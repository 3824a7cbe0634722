/** The instruction list `DPQA::solve` builds once the solver reports a
    satisfying assignment (src/dpqa.rs:93-168), as a pure function of the
    assignment and the gate list.

    For stage 0 it initialises every qubit; for each later stage `j` it
    reports the AOD-to-SLM transfers, then the AOD column moves, then the AOD
    row moves of the transition `j - 1 -> j`; at the end of every stage it
    reports the gates whose times form the next run equal to `j`. The source
    groups moves in a hash map; here groups are emitted in the order their
    first qubit appears, and every contract speaks about membership only.

    The module ends with a corrected list: it conveys pickups, moves
    before it drops, and reports every gate in the batch of its own stage. */
module Synthesis {
  import opened Gates
  import opened Constraints

  /** The source's `DPQAInstruction`. `MoveAod(Col, ...)` is `MoveAODCol`
      (an `x` move) and `MoveAod(Row, ...)` is `MoveAODRow` (a `y` move).
      `MoveToAod` is the `MoveToAOD` variant of src/instruction.rs: `solve`
      never emits it, only the corrected list at the end of this module. */
  datatype Instruction =
    | Init(qubit: nat, x: nat, y: nat, inAod: bool)
    | MoveAod(axis: Axis, qubits: seq<nat>, origin: nat, dest: nat)
    | MoveToSlm(qubit: nat)
    | MoveToAod(qubit: nat)
    | GateBatch(gates: seq<Gate>)

  /** Every qubit below `n` has a value at stage `j`. */
  predicate Present(v: Values, n: nat, j: nat)
  {
    n <= |v.at| && forall q :: 0 <= q < n ==> j < |v.at[q]|
  }

  /* Stage 0 */

  /** One `Init` per qubit below `n`, in qubit order, carrying the stage-0
      site and trap kind. */
  function Inits(v: Values, n: nat): (r: seq<Instruction>)
    requires Present(v, n, 0)
    ensures |r| == n
    ensures forall q :: 0 <= q < n ==> r[q] == Init(q, v.at[q][0].x, v.at[q][0].y, v.at[q][0].aod)
  {
    if n == 0 then []
    else Inits(v, n - 1) + [Init(n - 1, v.at[n - 1][0].x, v.at[n - 1][0].y, v.at[n - 1][0].aod)]
  }

  /* Transfers */

  /** Qubit `q` leaves its AOD trap for an SLM trap between `j - 1` and `j`. */
  predicate Dropped(v: Values, q: nat, j: nat)
    requires 0 < j && Cell(v, q, j)
  {
    v.at[q][j - 1].aod && !v.at[q][j].aod
  }

  /** The transfers of the transition `j - 1 -> j` among qubits below `n`:
      exactly the dropped qubits, in increasing order. */
  function Transfers(v: Values, j: nat, n: nat): (r: seq<Instruction>)
    requires 0 < j && Present(v, n, j)
    ensures forall i :: 0 <= i < |r| ==> r[i].MoveToSlm? && r[i].qubit < n && Dropped(v, r[i].qubit, j)
    ensures forall q :: 0 <= q < n && Dropped(v, q, j) ==> MoveToSlm(q) in r
    ensures forall a, b :: 0 <= a < b < |r| ==> r[a].qubit < r[b].qubit
  {
    if n == 0 then []
    else
      var prev := Transfers(v, j, n - 1);
      if Dropped(v, n - 1, j) then prev + [MoveToSlm(n - 1)] else prev
  }

  /* AOD moves */

  /** Qubit `q` changes its coordinate along `axis` between `j - 1` and `j`
      while keeping its lane: the source's test for a column (row) move. */
  predicate Mover(v: Values, q: nat, j: nat, axis: Axis)
    requires 0 < j && Cell(v, q, j)
  {
    && Coord(v.at[q][j], axis) != Coord(v.at[q][j - 1], axis)
    && Lane(v.at[q][j], axis) == Lane(v.at[q][j - 1], axis)
  }

  /** The source's hash-map key: the coordinate before and after. */
  function Shift(v: Values, q: nat, j: nat, axis: Axis): (nat, nat)
    requires 0 < j && Cell(v, q, j)
  {
    (Coord(v.at[q][j - 1], axis), Coord(v.at[q][j], axis))
  }

  /** The distinct shifts of the movers below `n`, in order of first
      appearance. */
  function Keys(v: Values, j: nat, axis: Axis, n: nat): (r: seq<(nat, nat)>)
    requires 0 < j && Present(v, n, j)
    ensures forall a, b :: 0 <= a < b < |r| ==> r[a] != r[b]
    ensures forall k :: k in r <==> exists q :: 0 <= q < n && Mover(v, q, j, axis) && Shift(v, q, j, axis) == k
  {
    if n == 0 then []
    else
      var prev := Keys(v, j, axis, n - 1);
      if Mover(v, n - 1, j, axis) && Shift(v, n - 1, j, axis) !in prev then
        prev + [Shift(v, n - 1, j, axis)]
      else prev
  }

  /** The movers below `n` whose shift is `k`, in increasing order: the
      qubit list of one hash-map entry. */
  function Group(v: Values, j: nat, axis: Axis, n: nat, k: (nat, nat)): (r: seq<nat>)
    requires 0 < j && Present(v, n, j)
    ensures forall a, b :: 0 <= a < b < |r| ==> r[a] < r[b]
    ensures forall q: nat :: q in r <==> q < n && Mover(v, q, j, axis) && Shift(v, q, j, axis) == k
  {
    if n == 0 then []
    else
      var prev := Group(v, j, axis, n - 1, k);
      if Mover(v, n - 1, j, axis) && Shift(v, n - 1, j, axis) == k then
        assert forall a :: 0 <= a < |prev| ==> prev[a] in prev;
        prev + [n - 1]
      else prev
  }

  /** One move instruction per key of `ks`. */
  function MovesFor(v: Values, j: nat, axis: Axis, n: nat, ks: seq<(nat, nat)>): (r: seq<Instruction>)
    requires 0 < j && Present(v, n, j)
    ensures |r| == |ks|
    ensures forall i :: 0 <= i < |r| ==> r[i] == MoveAod(axis, Group(v, j, axis, n, ks[i]), ks[i].0, ks[i].1)
  {
    if ks == [] then []
    else [MoveAod(axis, Group(v, j, axis, n, ks[0]), ks[0].0, ks[0].1)] + MovesFor(v, j, axis, n, ks[1..])
  }

  /** The column (or row) moves of the transition `j - 1 -> j`. */
  function AxisMoves(v: Values, j: nat, axis: Axis, n: nat): seq<Instruction>
    requires 0 < j && Present(v, n, j)
  {
    MovesFor(v, j, axis, n, Keys(v, j, axis, n))
  }

  /** Every move built from `ks` is the group of one key of `ks`. */
  lemma MovesForAreGroups(v: Values, j: nat, axis: Axis, n: nat, ks: seq<(nat, nat)>)
    requires 0 < j && Present(v, n, j)
    ensures forall m :: m in MovesFor(v, j, axis, n, ks) ==>
      && m.MoveAod? && m.axis == axis && (m.origin, m.dest) in ks
      && m.qubits == Group(v, j, axis, n, (m.origin, m.dest))
  {
    var r := MovesFor(v, j, axis, n, ks);
    forall m | m in r
      ensures m.MoveAod? && m.axis == axis && (m.origin, m.dest) in ks
      ensures m.qubits == Group(v, j, axis, n, (m.origin, m.dest))
    {
      var i :| 0 <= i < |r| && r[i] == m;
      assert ks[i] == (m.origin, m.dest);
    }
  }

  /** Each move lists exactly the movers of one shift: non-empty, in
      increasing order, with origin distinct from destination. */
  lemma AxisMovesExact(v: Values, j: nat, axis: Axis, n: nat)
    requires 0 < j && Present(v, n, j)
    ensures forall m :: m in AxisMoves(v, j, axis, n) ==>
      && m.MoveAod? && m.axis == axis && m.origin != m.dest && |m.qubits| > 0
      && (forall a, b :: 0 <= a < b < |m.qubits| ==> m.qubits[a] < m.qubits[b])
    ensures forall m, q: nat :: m in AxisMoves(v, j, axis, n) ==>
      (q in m.qubits <==> q < n && Mover(v, q, j, axis) && Shift(v, q, j, axis) == (m.origin, m.dest))
  {
    var ks := Keys(v, j, axis, n);
    MovesForAreGroups(v, j, axis, n, ks);
    forall m | m in AxisMoves(v, j, axis, n)
      ensures m.origin != m.dest && |m.qubits| > 0
    {
      var q :| 0 <= q < n && Mover(v, q, j, axis) && Shift(v, q, j, axis) == (m.origin, m.dest);
      assert q in m.qubits;
    }
  }

  /** Every mover is listed in exactly one move: different moves have
      different shifts, and some move has the mover's shift. */
  lemma AxisMovesCover(v: Values, j: nat, axis: Axis, n: nat)
    requires 0 < j && Present(v, n, j)
    ensures forall q :: 0 <= q < n && Mover(v, q, j, axis) ==>
      exists m :: m in AxisMoves(v, j, axis, n) && q in m.qubits
    ensures var r := AxisMoves(v, j, axis, n);
      forall i1, i2 :: 0 <= i1 < i2 < |r| ==> (r[i1].origin, r[i1].dest) != (r[i2].origin, r[i2].dest)
    ensures var r := AxisMoves(v, j, axis, n);
      forall q, i1, i2 :: 0 <= i1 < |r| && 0 <= i2 < |r| && q in r[i1].qubits && q in r[i2].qubits ==> i1 == i2
  {
    var ks := Keys(v, j, axis, n);
    var r := AxisMoves(v, j, axis, n);
    forall q | 0 <= q < n && Mover(v, q, j, axis)
      ensures exists m :: m in r && q in m.qubits
    {
      var k := Shift(v, q, j, axis);
      assert k in ks;
      var i :| 0 <= i < |ks| && ks[i] == k;
      assert r[i] in r && q in r[i].qubits;
    }
  }

  /* Gate reporting */

  /** Where the source's `while` loop stops when reporting stage `jj` from
      position `idx`: at the first gate from `idx` on whose time is not
      `jj`, or at the end. */
  function RunEnd(t: seq<nat>, jj: nat, idx: nat): (e: nat)
    requires idx <= |t|
    ensures idx <= e <= |t|
    ensures forall g :: idx <= g < e ==> t[g] == jj
    ensures e == |t| || t[e] != jj
    decreases |t| - idx
  {
    if idx < |t| && t[idx] == jj then RunEnd(t, jj, idx + 1) else idx
  }

  /** The source's `gate_idx` when stage `j` begins. */
  function Cursor(t: seq<nat>, j: nat): (c: nat)
    ensures c <= |t|
  {
    if j == 0 then 0 else RunEnd(t, j - 1, Cursor(t, j - 1))
  }

  /** The gate batch of stage `jj`, left out when it would be empty. */
  function GateReport(gates: seq<Gate>, t: seq<nat>, jj: nat): (r: seq<Instruction>)
    requires |t| == |gates|
    ensures |r| <= 1
    ensures forall i :: 0 <= i < |r| ==> r[i].GateBatch? && |r[i].gates| > 0
  {
    var idx := Cursor(t, jj);
    var e := RunEnd(t, jj, idx);
    if e == idx then [] else [GateBatch(gates[idx..e])]
  }

  /** The gates stage `j` reports: those from the cursor at `j` to the
      cursor at `j + 1`. */
  function StageRun(gates: seq<Gate>, t: seq<nat>, j: nat): seq<Gate>
    requires |t| == |gates|
  {
    gates[Cursor(t, j)..Cursor(t, j + 1)]
  }

  /* The whole list */

  /** The trap instructions of stage `jj`: the `Init`s for stage 0, and for
      a later stage the transfers, column moves and row moves that lead to
      it. */
  function Movement(v: Values, nQ: nat, nS: nat, jj: nat): seq<Instruction>
    requires Dimensions(v, nQ, nS, |v.t|) && jj < nS
  {
    if jj == 0 then Inits(v, nQ)
    else Transfers(v, jj, nQ) + AxisMoves(v, jj, Col, nQ) + AxisMoves(v, jj, Row, nQ)
  }

  /** What stage `jj` contributes: its trap instructions, then its gates.
      The only gates it reports are those from the cursor at its stage to
      the cursor at the next, in index order. */
  function Block(v: Values, gates: seq<Gate>, nQ: nat, nS: nat, jj: nat): (r: seq<Instruction>)
    requires Dimensions(v, nQ, nS, |gates|) && jj < nS
    ensures ReportedGates(r) == StageRun(gates, v.t, jj)
  {
    var head := Movement(v, nQ, nS, jj);
    var rep := GateReport(gates, v.t, jj);
    MovementHasNoBatches(v, nQ, nS, jj);
    NoBatches(head);
    ReportedGatesAppend(head, rep);
    assert rep != [] ==> rep[1..] == [];
    head + rep
  }

  /** The blocks of all stages, in stage order. */
  function Stages(v: Values, gates: seq<Gate>, nQ: nat, nS: nat): (r: seq<seq<Instruction>>)
    requires Dimensions(v, nQ, nS, |gates|)
    ensures |r| == nS
    ensures forall jj :: 0 <= jj < nS ==> r[jj] == Block(v, gates, nQ, nS, jj)
  {
    seq(nS, jj requires 0 <= jj < nS => Block(v, gates, nQ, nS, jj))
  }

  /** The blocks joined in order. */
  function Concat(bs: seq<seq<Instruction>>): seq<Instruction>
  {
    if bs == [] then [] else Concat(bs[..|bs| - 1]) + bs[|bs| - 1]
  }

  /** The instruction list the source returns for `nQ` qubits over `nS`
      stages. Its batches report the gates below the cursor after the last
      stage, in index order, each once. */
  function Synthesize(v: Values, gates: seq<Gate>, nQ: nat, nS: nat): (r: seq<Instruction>)
    requires Dimensions(v, nQ, nS, |gates|)
    ensures ReportedGates(r) == gates[..Cursor(v.t, nS)]
  {
    var bs := Stages(v, gates, nQ, nS);
    var runs := Runs(gates, v.t, nS);
    ConcatReports(bs, runs);
    FlattenRuns(gates, v.t, nS);
    Concat(bs)
  }

  /** Joining distributes over splitting the block list. */
  lemma {:induction false} ConcatSplit(bs: seq<seq<Instruction>>, n: nat)
    requires n <= |bs|
    ensures Concat(bs) == Concat(bs[..n]) + Concat(bs[n..])
  {
    if n == |bs| {
      assert bs[..n] == bs;
      assert bs[n..] == [];
    } else {
      var init := bs[..|bs| - 1];
      var last := bs[|bs| - 1];
      ConcatSplit(init, n);
      assert init[..n] == bs[..n];
      assert bs[n..][..|bs[n..]| - 1] == init[n..];
      assert bs[n..][|bs[n..]| - 1] == last;
    }
  }

  /** An instruction is in the joined list exactly when it is in one of the
      blocks. */
  lemma {:induction false} ConcatMember(bs: seq<seq<Instruction>>, x: Instruction)
    ensures x in Concat(bs) <==> exists i :: 0 <= i < |bs| && x in bs[i]
  {
    if bs != [] {
      var init := bs[..|bs| - 1];
      ConcatMember(init, x);
      assert Concat(bs) == Concat(init) + bs[|bs| - 1];
      if exists i :: 0 <= i < |bs| && x in bs[i] {
        var i :| 0 <= i < |bs| && x in bs[i];
        if i < |bs| - 1 {
          assert x in init[i];
        }
      }
      if exists i :: 0 <= i < |init| && x in init[i] {
        var i :| 0 <= i < |init| && x in init[i];
        assert x in bs[i];
      }
    }
  }

  /** The gates of every batch in `instrs`, in order. */
  function ReportedGates(instrs: seq<Instruction>): seq<Gate>
  {
    if instrs == [] then []
    else (if instrs[0].GateBatch? then instrs[0].gates else []) + ReportedGates(instrs[1..])
  }

  lemma {:induction false} ReportedGatesAppend(a: seq<Instruction>, b: seq<Instruction>)
    ensures ReportedGates(a + b) == ReportedGates(a) + ReportedGates(b)
  {
    if a == [] {
      assert a + b == b;
    } else {
      assert (a + b)[1..] == a[1..] + b;
      ReportedGatesAppend(a[1..], b);
    }
  }

  /** A list without batches reports no gates. */
  lemma {:induction false} NoBatches(instrs: seq<Instruction>)
    requires forall i :: 0 <= i < |instrs| ==> !instrs[i].GateBatch?
    ensures ReportedGates(instrs) == []
  {
    if instrs != [] {
      NoBatches(instrs[1..]);
    }
  }

  /** Trap instructions hold no batch. */
  lemma MovementHasNoBatches(v: Values, nQ: nat, nS: nat, jj: nat)
    requires Dimensions(v, nQ, nS, |v.t|) && jj < nS
    ensures forall i :: 0 <= i < |Movement(v, nQ, nS, jj)| ==> !Movement(v, nQ, nS, jj)[i].GateBatch?
  {
    if jj > 0 {
      AxisMovesExact(v, jj, Col, nQ);
      AxisMovesExact(v, jj, Row, nQ);
    }
  }

  /** The runs of stages `0 .. j - 1` joined are the gates below the
      cursor at `j`. */
  lemma StageRunsJoin(gates: seq<Gate>, t: seq<nat>, j: nat)
    requires |t| == |gates|
    ensures gates[..Cursor(t, j)] + StageRun(gates, t, j) == gates[..Cursor(t, j + 1)]
  {
    var c0, c1 := Cursor(t, j), Cursor(t, j + 1);
    assert gates[..c0] + gates[c0..c1] == gates[..c1];
  }

  lemma ConcatLast(bs: seq<seq<Instruction>>)
    requires bs != []
    ensures Concat(bs) == Concat(bs[..|bs| - 1]) + bs[|bs| - 1]
  {
  }

  /** Gate lists joined in order. */
  function Flatten(runs: seq<seq<Gate>>): seq<Gate>
  {
    if runs == [] then [] else Flatten(runs[..|runs| - 1]) + runs[|runs| - 1]
  }

  /** The runs of the first `n` stages. */
  function Runs(gates: seq<Gate>, t: seq<nat>, n: nat): (r: seq<seq<Gate>>)
    requires |t| == |gates|
    ensures |r| == n && forall i :: 0 <= i < n ==> r[i] == StageRun(gates, t, i)
  {
    seq(n, i requires 0 <= i < n => StageRun(gates, t, i))
  }

  /** The runs of the first `n` stages, joined, are the gates below the
      cursor at `n`. */
  lemma {:induction false} FlattenRuns(gates: seq<Gate>, t: seq<nat>, n: nat)
    requires |t| == |gates|
    ensures Flatten(Runs(gates, t, n)) == gates[..Cursor(t, n)]
  {
    if n > 0 {
      var k := n - 1;
      assert Runs(gates, t, n)[..k] == Runs(gates, t, k);
      FlattenRuns(gates, t, k);
      StageRunsJoin(gates, t, k);
    }
  }

  /** Blocks whose reported gates are the given runs report, joined, the
      runs joined. */
  lemma {:induction false} ConcatReports(bs: seq<seq<Instruction>>, runs: seq<seq<Gate>>)
    requires |bs| == |runs|
    requires forall i :: 0 <= i < |bs| ==> ReportedGates(bs[i]) == runs[i]
    ensures ReportedGates(Concat(bs)) == Flatten(runs)
  {
    if bs != [] {
      var k := |bs| - 1;
      var init, rinit := bs[..k], runs[..k];
      forall i | 0 <= i < k
        ensures ReportedGates(init[i]) == rinit[i]
      {
        assert init[i] == bs[i] && rinit[i] == runs[i];
      }
      ConcatReports(init, rinit);
      ConcatLast(bs);
      ReportedGatesAppend(Concat(init), bs[k]);
    }
  }

  /** Each gate the batches report is reported inside the block of the
      stage equal to its time. */
  lemma SynthesizeReportsGates(v: Values, gates: seq<Gate>, nQ: nat, nS: nat)
    requires Dimensions(v, nQ, nS, |gates|)
    ensures forall g :: 0 <= g < Cursor(v.t, nS) ==>
      v.t[g] < nS && Cursor(v.t, v.t[g]) <= g < Cursor(v.t, v.t[g] + 1)
  {
    forall g | 0 <= g < Cursor(v.t, nS)
      ensures v.t[g] < nS && Cursor(v.t, v.t[g]) <= g < Cursor(v.t, v.t[g] + 1)
    {
      ReportedAtItsTime(v.t, nS, g);
    }
  }

  /** A gate below the final cursor is reported in the batch of the stage
      equal to its time. */
  lemma {:induction false} ReportedAtItsTime(t: seq<nat>, n: nat, g: nat)
    requires g < Cursor(t, n)
    ensures t[g] < n
    ensures Cursor(t, t[g]) <= g < Cursor(t, t[g] + 1)
  {
    if g < Cursor(t, n - 1) {
      ReportedAtItsTime(t, n - 1, g);
    } else {
      assert t[g] == n - 1;
    }
  }

  /** With non-decreasing times, the cursor at stage `j` separates the gates
      timed before `j` from the rest. */
  lemma {:induction false} SortedCursor(t: seq<nat>, j: nat)
    requires forall a, b :: 0 <= a < b < |t| ==> t[a] <= t[b]
    ensures forall g :: 0 <= g < Cursor(t, j) ==> t[g] < j
    ensures forall g :: Cursor(t, j) <= g < |t| ==> t[g] >= j
  {
    if j > 0 {
      SortedCursor(t, j - 1);
    }
  }

  /** With non-decreasing times all below the stage count, every gate is
      reported, in index order, exactly once. */
  lemma SortedTimesReportEveryGate(v: Values, gates: seq<Gate>, nQ: nat, nS: nat)
    requires Dimensions(v, nQ, nS, |gates|)
    requires forall a, b :: 0 <= a < b < |v.t| ==> v.t[a] <= v.t[b]
    requires forall g :: 0 <= g < |v.t| ==> v.t[g] < nS
    ensures ReportedGates(Synthesize(v, gates, nQ, nS)) == gates
  {
    SortedCursorEnd(v.t, nS);
    assert gates[..Cursor(v.t, nS)] == gates;
  }

  /** With non-decreasing times all below `n`, the cursor at `n` is past
      every gate. */
  lemma SortedCursorEnd(t: seq<nat>, n: nat)
    requires forall a, b :: 0 <= a < b < |t| ==> t[a] <= t[b]
    requires forall g :: 0 <= g < |t| ==> t[g] < n
    ensures Cursor(t, n) == |t|
  {
    SortedCursor(t, n);
  }

  /** The reporting loop only moves forward: with times `[1, 0]` over two
      stages, gate 1 (timed at stage 0, a stage that exists) is never
      reported, because stage 0 stops at gate 0 and stage 1 stops at gate 1. */
  lemma UnsortedTimesDropGate(v: Values, gates: seq<Gate>, nQ: nat)
    requires Dimensions(v, nQ, 2, |gates|) && v.t == [1, 0]
    ensures v.t[1] < 2
    ensures ReportedGates(Synthesize(v, gates, nQ, 2)) == gates[..1]
  {
    assert RunEnd([1, 0], 0, 0) == 0;
    assert RunEnd([1, 0], 1, 1) == 1;
    assert RunEnd([1, 0], 1, 0) == 1;
    assert Cursor(v.t, 2) == 1;
  }

  /* What each stage holds */

  /** The list starts with stage 0's block, which begins with one `Init` per
      qubit in qubit order and holds no transfer and no move; the list is
      empty when there are no stages. */
  lemma SynthesizeStartsWithInits(v: Values, gates: seq<Gate>, nQ: nat, nS: nat)
    requires Dimensions(v, nQ, nS, |gates|)
    ensures nS == 0 ==> Synthesize(v, gates, nQ, nS) == []
    ensures 0 < nS ==> nQ <= |Synthesize(v, gates, nQ, nS)|
    ensures 0 < nS ==> forall q :: 0 <= q < nQ ==>
      Synthesize(v, gates, nQ, nS)[q] == Init(q, v.at[q][0].x, v.at[q][0].y, v.at[q][0].aod)
  {
    var bs := Stages(v, gates, nQ, nS);
    if 0 < nS {
      var sy := Synthesize(v, gates, nQ, nS);
      var inits := Inits(v, nQ);
      var b0 := Block(v, gates, nQ, nS, 0);
      ConcatStartsWith(bs);
      assert bs[0] == b0 == inits + GateReport(gates, v.t, 0);
      forall q | 0 <= q < nQ
        ensures sy[q] == Init(q, v.at[q][0].x, v.at[q][0].y, v.at[q][0].aod)
      {
        assert sy[q] == sy[..|b0|][q] == b0[q] == inits[q];
      }
    }
  }

  /** The joined list begins with the first block. */
  lemma ConcatStartsWith(bs: seq<seq<Instruction>>)
    requires 0 < |bs|
    ensures |bs[0]| <= |Concat(bs)| && Concat(bs)[..|bs[0]|] == bs[0]
  {
    ConcatSplit(bs, 1);
    assert bs[..1][..0] == [];
    assert Concat(bs[..1]) == bs[0];
  }

  /** Stage 0's block holds only `Init`s and gate batches. */
  lemma FirstBlockKinds(v: Values, gates: seq<Gate>, nQ: nat, nS: nat)
    requires Dimensions(v, nQ, nS, |gates|) && 0 < nS
    ensures forall ins :: ins in Block(v, gates, nQ, nS, 0) ==> ins.Init? || ins.GateBatch?
  {
    var inits, rep := Inits(v, nQ), GateReport(gates, v.t, 0);
    assert forall ins :: ins in inits ==> ins.Init?;
    assert forall ins :: ins in rep ==> ins.GateBatch?;
    assert Block(v, gates, nQ, nS, 0) == inits + rep;
  }

  /** A later stage's block holds no `Init`, and holds `MoveToSlm(q)`
      exactly for the qubits dropped from AOD to SLM traps on the way to it. */
  lemma TransitionTransfers(v: Values, gates: seq<Gate>, nQ: nat, nS: nat, jj: nat)
    requires Dimensions(v, nQ, nS, |gates|) && 0 < jj < nS
    ensures forall ins :: ins in Block(v, gates, nQ, nS, jj) ==> !ins.Init?
    ensures forall q: nat :: MoveToSlm(q) in Block(v, gates, nQ, nS, jj) <==> q < nQ && Dropped(v, q, jj)
  {
    var tr, cm, rm := Transfers(v, jj, nQ), AxisMoves(v, jj, Col, nQ), AxisMoves(v, jj, Row, nQ);
    var rep := GateReport(gates, v.t, jj);
    AxisMovesExact(v, jj, Col, nQ);
    AxisMovesExact(v, jj, Row, nQ);
    assert forall ins :: ins in rep ==> ins.GateBatch?;
    assert forall ins :: ins in tr ==> ins.MoveToSlm?;
    assert Block(v, gates, nQ, nS, jj) == tr + cm + rm + rep;
  }

  /** A later stage's moves along `axis`: each lists exactly the qubits that
      moved from its origin to its destination along `axis` while keeping
      their lane, and every such qubit is listed in one of them. */
  lemma TransitionMoves(v: Values, gates: seq<Gate>, nQ: nat, nS: nat, jj: nat, axis: Axis)
    requires Dimensions(v, nQ, nS, |gates|) && 0 < jj < nS
    ensures forall ins, q: nat :: ins in Block(v, gates, nQ, nS, jj) && ins.MoveAod? && ins.axis == axis ==>
      (q in ins.qubits <==> q < nQ && Mover(v, q, jj, axis) && Shift(v, q, jj, axis) == (ins.origin, ins.dest))
    ensures forall q :: 0 <= q < nQ && Mover(v, q, jj, axis) ==>
      exists ins :: ins in Block(v, gates, nQ, nS, jj) && ins.MoveAod? && ins.axis == axis && q in ins.qubits
  {
    BlockMoves(v, gates, nQ, nS, jj, axis);
    AxisMovesExact(v, jj, axis, nQ);
    AxisMovesCover(v, jj, axis, nQ);
  }

  /** The moves along `axis` in a later stage's block are exactly that
      axis's moves. */
  lemma BlockMoves(v: Values, gates: seq<Gate>, nQ: nat, nS: nat, jj: nat, axis: Axis)
    requires Dimensions(v, nQ, nS, |gates|) && 0 < jj < nS
    ensures forall ins ::
      (ins in Block(v, gates, nQ, nS, jj) && ins.MoveAod? && ins.axis == axis) <==> ins in AxisMoves(v, jj, axis, nQ)
  {
    var tr, cm, rm := Transfers(v, jj, nQ), AxisMoves(v, jj, Col, nQ), AxisMoves(v, jj, Row, nQ);
    var rep := GateReport(gates, v.t, jj);
    AxisMovesExact(v, jj, Col, nQ);
    AxisMovesExact(v, jj, Row, nQ);
    assert forall ins :: ins in rep ==> ins.GateBatch?;
    assert forall ins :: ins in tr ==> ins.MoveToSlm?;
    assert Block(v, gates, nQ, nS, jj) == tr + cm + rm + rep;
  }

  /** Over the whole list, `MoveToSlm(q)` appears exactly when qubit `q`
      leaves an AOD trap for an SLM trap at some transition. */
  lemma SynthesizeTransfers(v: Values, gates: seq<Gate>, nQ: nat, nS: nat, q: nat)
    requires Dimensions(v, nQ, nS, |gates|)
    ensures MoveToSlm(q) in Synthesize(v, gates, nQ, nS) <==>
      q < nQ && exists jj :: 0 < jj < nS && Dropped(v, q, jj)
  {
    ConcatMember(Stages(v, gates, nQ, nS), MoveToSlm(q));
    if MoveToSlm(q) in Synthesize(v, gates, nQ, nS) {
      var i :| 0 <= i < nS && MoveToSlm(q) in Stages(v, gates, nQ, nS)[i];
      TransferIsDrop(v, gates, nQ, nS, q, i);
    }
    if q < nQ && exists jj :: 0 < jj < nS && Dropped(v, q, jj) {
      var jj :| 0 < jj < nS && Dropped(v, q, jj);
      DropIsTransfer(v, gates, nQ, nS, q, jj);
    }
  }

  /** A `MoveToSlm(q)` in the block of stage `i` comes from a drop of `q`
      on the way to stage `i`. */
  lemma TransferIsDrop(v: Values, gates: seq<Gate>, nQ: nat, nS: nat, q: nat, i: nat)
    requires Dimensions(v, nQ, nS, |gates|) && i < nS
    requires MoveToSlm(q) in Block(v, gates, nQ, nS, i)
    ensures q < nQ && 0 < i && Dropped(v, q, i)
  {
    if i == 0 {
      FirstBlockKinds(v, gates, nQ, nS);
      assert false;
    }
    TransitionTransfers(v, gates, nQ, nS, i);
  }

  /** A drop of `q` on the way to stage `jj` puts `MoveToSlm(q)` in that
      stage's block. */
  lemma DropIsTransfer(v: Values, gates: seq<Gate>, nQ: nat, nS: nat, q: nat, jj: nat)
    requires Dimensions(v, nQ, nS, |gates|) && q < nQ && 0 < jj < nS && Dropped(v, q, jj)
    ensures 0 <= jj < nS && MoveToSlm(q) in Stages(v, gates, nQ, nS)[jj]
  {
    TransitionTransfers(v, gates, nQ, nS, jj);
  }



  /** No block of the source's list holds a transfer to an AOD trap. */
  lemma BlockNeverPicksUp(v: Values, gates: seq<Gate>, nQ: nat, nS: nat, jj: nat)
    requires Dimensions(v, nQ, nS, |gates|) && jj < nS
    ensures forall ins :: ins in Block(v, gates, nQ, nS, jj) ==> !ins.MoveToAod?
  {
    if jj == 0 {
      FirstBlockKinds(v, gates, nQ, nS);
    } else {
      var tr, cm, rm, rep := Transfers(v, jj, nQ), AxisMoves(v, jj, Col, nQ), AxisMoves(v, jj, Row, nQ), GateReport(gates, v.t, jj);
      AxisMovesExact(v, jj, Col, nQ);
      AxisMovesExact(v, jj, Row, nQ);
      assert forall ins :: ins in tr ==> ins.MoveToSlm?;
      assert forall ins :: ins in rep ==> ins.GateBatch?;
      assert Block(v, gates, nQ, nS, jj) == tr + cm + rm + rep;
    }
  }

  /** The source's list never transfers a qubit from an SLM trap to an AOD
      trap. */
  lemma SynthesizeNeverPicksUp(v: Values, gates: seq<Gate>, nQ: nat, nS: nat)
    requires Dimensions(v, nQ, nS, |gates|)
    ensures forall ins :: ins in Synthesize(v, gates, nQ, nS) ==> !ins.MoveToAod?
  {
    var bs := Stages(v, gates, nQ, nS);
    forall ins | ins in Synthesize(v, gates, nQ, nS)
      ensures !ins.MoveToAod?
    {
      ConcatMember(bs, ins);
      var i :| 0 <= i < nS && ins in bs[i];
      BlockNeverPicksUp(v, gates, nQ, nS, i);
    }
  }

  /* The corrected list */

  /** Qubit `q` leaves its SLM trap for an AOD trap between `j - 1` and `j`. */
  predicate PickedUp(v: Values, q: nat, j: nat)
    requires 0 < j && Cell(v, q, j)
  {
    !v.at[q][j - 1].aod && v.at[q][j].aod
  }

  /** The pickups of the transition `j - 1 -> j` among qubits below `n`:
      exactly the picked-up qubits, in increasing order. */
  function Pickups(v: Values, j: nat, n: nat): (r: seq<Instruction>)
    requires 0 < j && Present(v, n, j)
    ensures forall i :: 0 <= i < |r| ==> r[i].MoveToAod? && r[i].qubit < n && PickedUp(v, r[i].qubit, j)
    ensures forall q :: 0 <= q < n && PickedUp(v, q, j) ==> MoveToAod(q) in r
    ensures forall a, b :: 0 <= a < b < |r| ==> r[a].qubit < r[b].qubit
  {
    if n == 0 then []
    else
      var prev := Pickups(v, j, n - 1);
      if PickedUp(v, n - 1, j) then prev + [MoveToAod(n - 1)] else prev
  }

  /** The trap instructions of stage `jj` in an order that keeps every
      moving qubit in its AOD trap while it moves: pickups, column moves,
      row moves, and only then the transfers to SLM traps. */
  function CorrectedMovement(v: Values, nQ: nat, nS: nat, jj: nat): (r: seq<Instruction>)
    requires Dimensions(v, nQ, nS, |v.t|) && jj < nS
    ensures forall i :: 0 <= i < |r| ==> !r[i].GateBatch?
  {
    if jj == 0 then Inits(v, nQ)
    else
      var pick, cols, rows, drops := Pickups(v, jj, nQ), AxisMoves(v, jj, Col, nQ), AxisMoves(v, jj, Row, nQ), Transfers(v, jj, nQ);
      AxisMovesAreMoves(v, jj, Col, nQ);
      AxisMovesAreMoves(v, jj, Row, nQ);
      TrapsJoin(pick, cols, rows, drops);
      pick + cols + rows + drops
  }

  /** The moves of one axis are all `MoveAod`s. */
  lemma AxisMovesAreMoves(v: Values, j: nat, axis: Axis, n: nat)
    requires 0 < j && Present(v, n, j)
    ensures forall i :: 0 <= i < |AxisMoves(v, j, axis, n)| ==> AxisMoves(v, j, axis, n)[i].MoveAod?
  {
    AxisMovesExact(v, j, axis, n);
    forall i | 0 <= i < |AxisMoves(v, j, axis, n)|
      ensures AxisMoves(v, j, axis, n)[i].MoveAod?
    {
      assert AxisMoves(v, j, axis, n)[i] in AxisMoves(v, j, axis, n);
    }
  }

  /** Four lists without batches joined hold no batch. */
  lemma TrapsJoin(a: seq<Instruction>, b: seq<Instruction>, c: seq<Instruction>, d: seq<Instruction>)
    requires forall i :: 0 <= i < |a| ==> !a[i].GateBatch?
    requires forall i :: 0 <= i < |b| ==> !b[i].GateBatch?
    requires forall i :: 0 <= i < |c| ==> !c[i].GateBatch?
    requires forall i :: 0 <= i < |d| ==> !d[i].GateBatch?
    ensures forall i :: 0 <= i < |a + b + c + d| ==> !(a + b + c + d)[i].GateBatch?
  {
  }

  /** The indices below `n` of the gates timed at stage `j`, in increasing
      order. */
  function Timed(t: seq<nat>, j: nat, n: nat): (r: seq<nat>)
    requires n <= |t|
    ensures forall i :: 0 <= i < |r| ==> r[i] < n
    ensures forall a, b :: 0 <= a < b < |r| ==> r[a] < r[b]
    ensures forall g: nat :: g in r <==> g < n && t[g] == j
  {
    if n == 0 then []
    else
      var prev := Timed(t, j, n - 1);
      if t[n - 1] == j then
        assert forall a :: 0 <= a < |prev| ==> prev[a] in prev;
        prev + [n - 1]
      else prev
  }

  /** The gates at the indices `idx`, in that order. */
  function Pick(gates: seq<Gate>, idx: seq<nat>): (r: seq<Gate>)
    requires forall i :: 0 <= i < |idx| ==> idx[i] < |gates|
    ensures |r| == |idx| && forall i :: 0 <= i < |idx| ==> r[i] == gates[idx[i]]
  {
    seq(|idx|, i requires 0 <= i < |idx| => gates[idx[i]])
  }

  lemma PickAppend(gates: seq<Gate>, a: seq<nat>, b: seq<nat>)
    requires forall i :: 0 <= i < |a| ==> a[i] < |gates|
    requires forall i :: 0 <= i < |b| ==> b[i] < |gates|
    ensures forall i :: 0 <= i < |a + b| ==> (a + b)[i] < |gates|
    ensures Pick(gates, a + b) == Pick(gates, a) + Pick(gates, b)
  {
    assert forall i :: 0 <= i < |a + b| ==> (a + b)[i] == if i < |a| then a[i] else b[i - |a|];
  }

  /** The corrected batch of stage `jj`: every gate timed at `jj`, in index
      order, left out when there is none. */
  function TimedReport(gates: seq<Gate>, t: seq<nat>, jj: nat): (r: seq<Instruction>)
    requires |t| == |gates|
    ensures |r| <= 1
    ensures forall i :: 0 <= i < |r| ==> r[i].GateBatch? && |r[i].gates| > 0
    ensures ReportedGates(r) == Pick(gates, Timed(t, jj, |t|))
  {
    var idx := Timed(t, jj, |t|);
    if idx == [] then []
    else
      assert [GateBatch(Pick(gates, idx))][1..] == [];
      [GateBatch(Pick(gates, idx))]
  }

  /** The corrected block of stage `jj`: its trap instructions in the
      corrected order, then every gate timed at `jj`. */
  function CorrectedBlock(v: Values, gates: seq<Gate>, nQ: nat, nS: nat, jj: nat): (r: seq<Instruction>)
    requires Dimensions(v, nQ, nS, |gates|) && jj < nS
    ensures ReportedGates(r) == Pick(gates, Timed(v.t, jj, |gates|))
  {
    var head := CorrectedMovement(v, nQ, nS, jj);
    var rep := TimedReport(gates, v.t, jj);
    NoBatches(head);
    ReportedGatesAppend(head, rep);
    head + rep
  }

  function CorrectedStages(v: Values, gates: seq<Gate>, nQ: nat, nS: nat): (r: seq<seq<Instruction>>)
    requires Dimensions(v, nQ, nS, |gates|)
    ensures |r| == nS
    ensures forall jj :: 0 <= jj < nS ==> r[jj] == CorrectedBlock(v, gates, nQ, nS, jj)
  {
    seq(nS, jj requires 0 <= jj < nS => CorrectedBlock(v, gates, nQ, nS, jj))
  }

  /** The gate indices timed below stage `n`, stage by stage, each stage in
      index order. Every gate timed below `n` occurs exactly once, and
      stages never go back. */
  function Order(t: seq<nat>, n: nat): (r: seq<nat>)
    ensures forall i :: 0 <= i < |r| ==> r[i] < |t|
    ensures forall g: nat :: g in r <==> g < |t| && t[g] < n
    ensures forall a, b :: 0 <= a < b < |r| ==> r[a] != r[b]
    ensures forall a, b :: 0 <= a < b < |r| ==> t[r[a]] <= t[r[b]]
  {
    if n == 0 then []
    else
      var prev, last := Order(t, n - 1), Timed(t, n - 1, |t|);
      assert forall a :: 0 <= a < |prev| ==> prev[a] in prev;
      assert forall b :: 0 <= b < |last| ==> last[b] in last;
      prev + last
  }

  /** The gates timed at each of the first `n` stages. */
  function TimedRuns(gates: seq<Gate>, t: seq<nat>, n: nat): (r: seq<seq<Gate>>)
    requires |t| == |gates|
    ensures |r| == n && forall j :: 0 <= j < n ==> r[j] == Pick(gates, Timed(t, j, |t|))
  {
    seq(n, j requires 0 <= j < n => Pick(gates, Timed(t, j, |t|)))
  }

  /** The per-stage gate lists of the first `n` stages, joined, are the
      gates in `Order`. */
  lemma {:induction false} FlattenTimed(gates: seq<Gate>, t: seq<nat>, n: nat)
    requires |t| == |gates|
    ensures Flatten(TimedRuns(gates, t, n)) == Pick(gates, Order(t, n))
  {
    if n > 0 {
      var k := n - 1;
      var runs := TimedRuns(gates, t, n);
      FlattenTimed(gates, t, k);
      assert runs[..k] == TimedRuns(gates, t, k);
      assert Flatten(runs) == Flatten(runs[..k]) + runs[k];
      PickAppend(gates, Order(t, k), Timed(t, k, |t|));
      assert Order(t, n) == Order(t, k) + Timed(t, k, |t|);
    }
  }

  /** The corrected list: every gate timed at an existing stage is reported
      exactly once, in the batch of its own stage, whatever the order of
      the times. */
  function CorrectedSynthesize(v: Values, gates: seq<Gate>, nQ: nat, nS: nat): (r: seq<Instruction>)
    requires Dimensions(v, nQ, nS, |gates|)
    ensures ReportedGates(r) == Pick(gates, Order(v.t, nS))
  {
    var bs := CorrectedStages(v, gates, nQ, nS);
    var runs := TimedRuns(gates, v.t, nS);
    ConcatReports(bs, runs);
    FlattenTimed(gates, v.t, nS);
    Concat(bs)
  }

  /** When the gates timed at `j` are those in `lo .. hi`, the indices below
      `n` timed at `j` are that range cut at `n`, in order. */
  lemma {:induction false} TimedRange(t: seq<nat>, j: nat, n: nat, lo: nat, hi: nat)
    requires n <= |t| && lo <= hi
    requires forall g :: 0 <= g < |t| ==> (t[g] == j <==> lo <= g < hi)
    ensures Min(n, lo) <= Min(n, hi)
    ensures Timed(t, j, n) == seq(Min(n, hi) - Min(n, lo), i => Min(n, lo) + i)
  {
    if n > 0 {
      var k := n - 1;
      TimedRange(t, j, k, lo, hi);
      var prev := Timed(t, j, k);
      if t[k] == j {
        assert Min(k, lo) == lo && Min(k, hi) == k;
        assert Timed(t, j, n) == prev + [k];
      }
    }
  }

  /** With non-decreasing times, the gates timed at `j` are exactly those
      between the cursors at `j` and `j + 1`. */
  lemma SortedTimedRun(t: seq<nat>, j: nat)
    requires forall a, b :: 0 <= a < b < |t| ==> t[a] <= t[b]
    ensures Cursor(t, j) <= Cursor(t, j + 1)
    ensures forall g :: 0 <= g < |t| ==> (t[g] == j <==> Cursor(t, j) <= g < Cursor(t, j + 1))
  {
    SortedCursor(t, j);
    SortedCursor(t, j + 1);
  }

  /** With non-decreasing times, the corrected batch of every stage is the
      batch the source reports. */
  lemma SortedReportsAgree(gates: seq<Gate>, t: seq<nat>, j: nat)
    requires |t| == |gates|
    requires forall a, b :: 0 <= a < b < |t| ==> t[a] <= t[b]
    ensures TimedReport(gates, t, j) == GateReport(gates, t, j)
  {
    var lo, hi := Cursor(t, j), Cursor(t, j + 1);
    SortedTimedRun(t, j);
    TimedRange(t, j, |t|, lo, hi);
    PickRange(gates, Timed(t, j, |t|), lo, hi);
  }

  /** The gates at the indices `lo .. hi`, in order, are a slice. */
  lemma PickRange(gates: seq<Gate>, idx: seq<nat>, lo: nat, hi: nat)
    requires lo <= hi <= |gates|
    requires |idx| == hi - lo && forall i :: 0 <= i < |idx| ==> idx[i] == lo + i
    ensures Pick(gates, idx) == gates[lo..hi]
  {
  }


}
