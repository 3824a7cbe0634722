/** The compiler front end (src/dpqa.rs): its settings, the problem it hands
    to the solver and the result it returns. The solver is a parameter: its
    answer for the problem is given, and a satisfying answer is assumed to
    carry values of the right shape. */
module Dpqa {
  import opened Gates
  import opened Constraints
  import opened Synthesis
  import Circuits
  import Staging
  import Replay

  /** The source's `DPQA`: site grid, AOD grid and extra stages. */
  datatype Dpqa = Dpqa(rows: nat, cols: nat, aodRows: nat, aodCols: nat, extraStages: nat)

  /** The source's `DPQAResult`. */
  datatype DpqaResult = Failed | Succeeded(instructions: seq<Instruction>)

  /** What the solver reports: satisfiable with a model's values,
      unsatisfiable, or unknown. */
  datatype SolverAnswer = Sat(values: Values) | Unsat | Unknown

  /** `DPQA::new_aod`: the given grids and no extra stages. */
  function NewAod(rows: nat, cols: nat, aodRows: nat, aodCols: nat): (d: Dpqa)
    ensures d.extraStages == 0
    ensures (d.rows, d.cols, d.aodRows, d.aodCols) == (rows, cols, aodRows, aodCols)
  {
    Dpqa(rows, cols, aodRows, aodCols, 0)
  }

  /** `DPQA::new`: an AOD grid the size of the site grid. */
  function New(rows: nat, cols: nat): (d: Dpqa)
    ensures d == NewAod(rows, cols, rows, cols)
    ensures d.aodRows == d.rows == rows && d.aodCols == d.cols == cols && d.extraStages == 0
  {
    Dpqa(rows, cols, rows, cols, 0)
  }

  /** `set_extra_stages`: only the number of extra stages changes. */
  function SetExtraStages(d: Dpqa, extra: nat): (r: Dpqa)
    ensures r.extraStages == extra
    ensures r.(extraStages := d.extraStages) == d
  {
    d.(extraStages := extra)
  }

  /** The number of stages the solver is given: the circuit's stages plus
      the extra ones. When the circuit's stages partition its gates, the
      count exceeds the extra stages exactly when there is a gate. */
  function StageCount(d: Dpqa, c: Circuits.Circuit): (n: nat)
    ensures n >= d.extraStages
    ensures Staging.Partition(c.stages, |c.gates|) ==> (n > d.extraStages <==> |c.gates| > 0)
  {
    Circuits.NStages(c) + d.extraStages
  }

  /** The constraint system `solve` sets up, with `order` the gate ordering
      pairs. `x` ranges over columns and `y` over rows. For a valid circuit
      and ordering pairs that name gates, every indexing the constraints do
      is in range for values with one entry per variable. */
  function ProblemOf(d: Dpqa, c: Circuits.Circuit, order: seq<(nat, nat)>): (p: Problem)
    ensures p.gates == c.gates && p.nStages == StageCount(d, c)
    ensures Circuits.Valid(c) && (forall k :: 0 <= k < |order| ==> order[k].0 < |c.gates| && order[k].1 < |c.gates|) ==>
      forall v :: Dimensions(v, Circuits.NQubits(c), StageCount(d, c), |c.gates|) ==> Shaped(p, v)
  {
    Problem(d.rows, d.cols, d.aodRows, d.aodCols, StageCount(d, c), Circuits.NQubits(c), c.gates, order)
  }

  /** The values of a satisfying answer have one entry per variable. */
  predicate WellShaped(d: Dpqa, c: Circuits.Circuit, answer: SolverAnswer)
  {
    answer.Sat? ==> Dimensions(answer.values, Circuits.NQubits(c), StageCount(d, c), |c.gates|)
  }

  /** `DPQA::solve` after the solver has answered: success exactly on a
      satisfiable answer, with the instruction list synthesised from the
      model's values. */
  function Solve(d: Dpqa, c: Circuits.Circuit, answer: SolverAnswer): (r: DpqaResult)
    requires WellShaped(d, c, answer)
    ensures r.Succeeded? <==> answer.Sat?
  {
    match answer
    case Sat(v) => Succeeded(Synthesize(v, c.gates, Circuits.NQubits(c), StageCount(d, c)))
    case Unsat => Failed
    case Unknown => Failed
  }

  /** For a circuit built by appends only, the solver gets one stage per
      gate plus the extra stages. */
  lemma AppendedCircuitStages(d: Dpqa, gs: seq<Gate>)
    ensures StageCount(d, Circuits.FromGates(gs)) == |gs| + d.extraStages
  {
    Circuits.AppendOnly(gs);
  }

  /** A successful result replays to the last stage's placements as its
      list conveys them, provided every moved qubit is conveyed as held by
      AOD traps (the list never picks a qubit up, and it transfers before
      it moves). */
  lemma SolveReplays(d: Dpqa, c: Circuits.Circuit, order: seq<(nat, nat)>, v: Values, s: seq<Replay.Atom>)
    requires Valid(ProblemOf(d, c, order), v)
    requires 0 < StageCount(d, c) && |s| == Circuits.NQubits(c)
    requires forall k :: 0 < k < StageCount(d, c) ==> Replay.MoversConveyed(v, Circuits.NQubits(c), k)
    ensures WellShaped(d, c, Sat(v))
    ensures Solve(d, c, Sat(v)).Succeeded?
    ensures Replay.Run(s, Solve(d, c, Sat(v)).instructions)
      == Replay.StateAt(v, Circuits.NQubits(c), StageCount(d, c) - 1)
  {
    Replay.ConveyedReplay(ProblemOf(d, c, order), v, s);
  }

  /** Every instruction of a block of a satisfying assignment stays inside
      the grid: initial sites, move origins and destinations lie within the
      columns (for `x`) or rows (for `y`), and qubit numbers name qubits. */
  predicate InGridInstruction(p: Problem, ins: Instruction)
  {
    match ins
    case Init(q, x, y, _) => q < p.nQubits && x < p.cols && y < p.rows
    case MoveAod(axis, qs, o, dst) =>
      (forall q :: q in qs ==> q < p.nQubits)
      && (if axis == Col then o < p.cols && dst < p.cols else o < p.rows && dst < p.rows)
    case MoveToSlm(q) => q < p.nQubits
    case MoveToAod(q) => q < p.nQubits
    case GateBatch(_) => true
  }

  /** The `Init`s of a satisfying assignment name stage-0 sites in the grid. */
  lemma InitsInGrid(p: Problem, v: Values)
    requires Valid(p, v) && 0 < p.nStages
    ensures forall ins :: ins in Inits(v, p.nQubits) ==> InGridInstruction(p, ins)
  {
    var r := Inits(v, p.nQubits);
    forall ins | ins in r
      ensures InGridInstruction(p, ins)
    {
      var q :| 0 <= q < |r| && r[q] == ins;
      PlacementsInGrid(p, v, q, 0);
    }
  }

  /** The moves along `axis` of a satisfying assignment go between
      coordinates inside the grid. */
  lemma AxisMovesInGrid(p: Problem, v: Values, jj: nat, axis: Axis)
    requires Valid(p, v) && 0 < jj < p.nStages
    ensures forall ins :: ins in AxisMoves(v, jj, axis, p.nQubits) ==> InGridInstruction(p, ins)
  {
    AxisMovesExact(v, jj, axis, p.nQubits);
    forall ins | ins in AxisMoves(v, jj, axis, p.nQubits)
      ensures InGridInstruction(p, ins)
    {
      var q := ins.qubits[0];
      assert q in ins.qubits;
      PlacementsInGrid(p, v, q, jj - 1);
      PlacementsInGrid(p, v, q, jj);
    }
  }

  /** Every instruction of one stage's block stays inside the grid. */
  lemma BlockInGrid(p: Problem, v: Values, jj: nat)
    requires Valid(p, v) && jj < p.nStages
    ensures forall ins :: ins in Block(v, p.gates, p.nQubits, p.nStages, jj) ==> InGridInstruction(p, ins)
  {
    var nQ := p.nQubits;
    var rep := GateReport(p.gates, v.t, jj);
    var mv := Movement(v, nQ, p.nStages, jj);
    MovementInGrid(p, v, jj);
    forall ins | ins in mv + rep
      ensures InGridInstruction(p, ins)
    {
      if ins !in mv {
        assert ins in rep;
      }
    }
  }

  /** Every trap instruction of one stage stays inside the grid. */
  lemma MovementInGrid(p: Problem, v: Values, jj: nat)
    requires Valid(p, v) && jj < p.nStages
    ensures forall ins :: ins in Movement(v, p.nQubits, p.nStages, jj) ==> InGridInstruction(p, ins)
  {
    var nQ := p.nQubits;
    if jj == 0 {
      InitsInGrid(p, v);
    } else {
      var tr := Transfers(v, jj, nQ);
      var cm := AxisMoves(v, jj, Col, nQ);
      var rm := AxisMoves(v, jj, Row, nQ);
      AxisMovesInGrid(p, v, jj, Col);
      AxisMovesInGrid(p, v, jj, Row);
      forall ins | ins in tr + cm + rm
        ensures InGridInstruction(p, ins)
      {
        if ins in tr {
          var i :| 0 <= i < |tr| && tr[i] == ins;
        } else if ins in cm {
        } else {
          assert ins in rm;
        }
      }
    }
  }

  /** Every instruction of a successful result stays inside the grid. */
  lemma SolveStaysInGrid(d: Dpqa, c: Circuits.Circuit, order: seq<(nat, nat)>, v: Values)
    requires Valid(ProblemOf(d, c, order), v)
    ensures WellShaped(d, c, Sat(v))
    ensures forall ins :: ins in Solve(d, c, Sat(v)).instructions ==> InGridInstruction(ProblemOf(d, c, order), ins)
  {
    var p := ProblemOf(d, c, order);
    var bs := Stages(v, p.gates, p.nQubits, p.nStages);
    forall ins | ins in Solve(d, c, Sat(v)).instructions
      ensures InGridInstruction(p, ins)
    {
      ConcatMember(bs, ins);
      var jj :| 0 <= jj < |bs| && ins in bs[jj];
      BlockInGrid(p, v, jj);
    }
  }

  /** The circuit of the `one_gate` scenario: a CZ on qubits 0 and 1. */
  const OneGate: Circuits.Circuit := Circuits.Circuit([Gate(CZ, 0, 1)], [{0}], 2)

  /** Values for it: qubit 0 in an SLM trap and qubit 1 in an AOD trap, both
      at site (0, 0), and the gate at stage 0. */
  const OneGateModel: Values := Values([[Trap(0, 0, 0, 0, false)], [Trap(0, 0, 0, 0, true)]], [0])

  /** Appending the CZ to a new circuit gives one stage over two qubits. */
  lemma OneGateCircuit()
    ensures Circuits.FromGates([Gate(CZ, 0, 1)]) == OneGate
  {
    var gs := [Gate(CZ, 0, 1)];
    assert gs[..0] == [];
  }

  /** The one stage of the `one_gate` values: both `Init`s, then the gate. */
  lemma OneGateBlock()
    ensures Block(OneGateModel, OneGate.gates, 2, 1, 0)
      == [Init(0, 0, 0, false), Init(1, 0, 0, true), GateBatch([Gate(CZ, 0, 1)])]
  {
    var gs := OneGate.gates;
    var v := OneGateModel;
    assert Inits(v, 2) == [Init(0, 0, 0, false), Init(1, 0, 0, true)];
    assert RunEnd([0], 0, 1) == 1;
    assert RunEnd([0], 0, 0) == 1;
    assert Cursor([0], 0) == 0;
    assert gs[0..1] == gs;
    assert GateReport(gs, [0], 0) == [GateBatch(gs)];
  }

  /** The instruction list of the `one_gate` values. */
  lemma OneGateSynthesis()
    ensures Synthesize(OneGateModel, OneGate.gates, 2, 1)
      == [Init(0, 0, 0, false), Init(1, 0, 0, true), GateBatch([Gate(CZ, 0, 1)])]
  {
    var gs := OneGate.gates;
    var v := OneGateModel;
    OneGateBlock();
    var bs := Stages(v, gs, 2, 1);
    assert bs == [Block(v, gs, 2, 1, 0)];
    assert bs[..0] == [];
  }

  /** The `one_gate` scenario on `DPQA::new(2, 1)` is satisfiable: the
      values above satisfy its constraint system. */
  lemma OneGateSatisfiable()
    ensures Valid(ProblemOf(New(2, 1), OneGate, []), OneGateModel)
  {
    OneGateProblem();
    OneGateSolution();
  }

  /** `DPQA::new(2, 1)` builds, for the `one_gate` circuit, a problem over a
      2 x 1 grid with one stage. */
  lemma OneGateProblem()
    ensures ProblemOf(New(2, 1), OneGate, []) == Problem(2, 1, 2, 1, 1, 2, [Gate(CZ, 0, 1)], [])
  {
    assert StageCount(New(2, 1), OneGate) == 1;
  }

  /** For those values the result initialises qubit 0 in an SLM trap and
      qubit 1 in an AOD trap at site (0, 0) and then runs the gate. */
  lemma OneGateSucceeds()
    ensures WellShaped(New(2, 1), OneGate, Sat(OneGateModel))
    ensures Solve(New(2, 1), OneGate, Sat(OneGateModel))
      == Succeeded([Init(0, 0, 0, false), Init(1, 0, 0, true), GateBatch([Gate(CZ, 0, 1)])])
  {
    assert Dimensions(OneGateModel, 2, 1, 1);
    OneGateSynthesis();
  }
}
