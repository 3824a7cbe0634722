/** What an instruction list does to the qubit array, and the round trip
    from a satisfying assignment through `Synthesis.Synthesize` back to the
    assignment's placements.

    An instruction acts on a per-qubit record of site and trap kind: `Init`
    sets a qubit's record, a move sets the moved coordinate of every listed
    qubit that is held by an AOD trap (a qubit in an SLM trap stays where it
    is), `MoveToSlm` clears a qubit's AOD flag, `MoveToAod` sets it, and a
    gate batch changes nothing.

    The source's list replays to the assignment's placements when every
    qubit it moves is, as the list conveys it, in an AOD trap while moving
    (`ReplayReachesLastStage`). A satisfying assignment may drop a qubit
    into an SLM trap and move it in the same transition; the source
    transfers before it moves, so the qubit is left behind
    (`DropThenMoveStrands`). The corrected list of `Synthesis` replays to
    the exact placements for every satisfying assignment (`ValidReplay`). */
module Replay {
  import opened Gates
  import opened Constraints
  import opened Synthesis

  /** One qubit as the instructions describe it. */
  datatype Atom = Atom(x: nat, y: nat, aod: bool)

  /** `a` with its coordinate along `axis` set to `d`. */
  function Moved(a: Atom, axis: Axis, d: nat): Atom
  {
    match axis
    case Col => a.(x := d)
    case Row => a.(y := d)
  }

  function Apply(s: seq<Atom>, ins: Instruction): (r: seq<Atom>)
    ensures |r| == |s|
  {
    match ins
    case Init(q, x, y, a) => if q < |s| then s[q := Atom(x, y, a)] else s
    case MoveAod(axis, qs, _, d) =>
      seq(|s|, i requires 0 <= i < |s| => if i in qs && s[i].aod then Moved(s[i], axis, d) else s[i])
    case MoveToSlm(q) => if q < |s| then s[q := s[q].(aod := false)] else s
    case MoveToAod(q) => if q < |s| then s[q := s[q].(aod := true)] else s
    case GateBatch(_) => s
  }

  /** The state after executing `instrs` in order from `s`. */
  function Run(s: seq<Atom>, instrs: seq<Instruction>): (r: seq<Atom>)
    ensures |r| == |s|
    decreases |instrs|
  {
    if instrs == [] then s else Run(Apply(s, instrs[0]), instrs[1..])
  }

  lemma {:induction false} RunAppend(s: seq<Atom>, a: seq<Instruction>, b: seq<Instruction>)
    ensures Run(s, a + b) == Run(Run(s, a), b)
    decreases |a|
  {
    if a == [] {
      assert a + b == b;
    } else {
      assert (a + b)[0] == a[0];
      assert (a + b)[1..] == a[1..] + b;
      RunAppend(Apply(s, a[0]), a[1..], b);
    }
  }

  /** Running a one-instruction list applies that instruction. */
  lemma RunOne(s: seq<Atom>, ins: Instruction)
    ensures Run(s, [ins]) == Apply(s, ins)
  {
    assert [ins][1..] == [];
  }

  /** A transfer clears the AOD flag of its qubit and of no other. */
  lemma ApplyTransfer(s: seq<Atom>, k: nat)
    requires k < |s|
    ensures forall q :: 0 <= q < |s| ==>
      Apply(s, MoveToSlm(k))[q] == if q == k then s[q].(aod := false) else s[q]
  {
  }

  /** A pickup sets the AOD flag of its qubit and of no other. */
  lemma ApplyPickup(s: seq<Atom>, k: nat)
    requires k < |s|
    ensures forall q :: 0 <= q < |s| ==>
      Apply(s, MoveToAod(k))[q] == if q == k then s[q].(aod := true) else s[q]
  {
  }

  /** A list of gate batches changes nothing. */
  lemma {:induction false} RunBatches(s: seq<Atom>, instrs: seq<Instruction>)
    requires forall i :: 0 <= i < |instrs| ==> instrs[i].GateBatch?
    ensures Run(s, instrs) == s
    decreases |instrs|
  {
    if instrs != [] {
      RunBatches(s, instrs[1..]);
    }
  }

  /** Qubit `q` is held by AOD traps at every stage from 0 through `j`: the
      AOD flag the instruction list conveys, since it reports transfers to
      SLM traps but never a transfer back. */
  predicate AodThrough(v: Values, q: nat, j: nat)
    requires Cell(v, q, j)
  {
    v.at[q][j].aod && (j == 0 || AodThrough(v, q, j - 1))
  }

  /** Placements taking `x` from stage `jx`, `y` from stage `jy` and the
      AOD flags from `aods`. */
  function Frame(v: Values, nQ: nat, jx: nat, jy: nat, aods: seq<bool>): (r: seq<Atom>)
    requires Present(v, nQ, jx) && Present(v, nQ, jy) && |aods| == nQ
    ensures |r| == nQ
    ensures forall q :: 0 <= q < nQ ==> r[q] == Atom(v.at[q][jx].x, v.at[q][jy].y, aods[q])
  {
    seq(nQ, q requires 0 <= q < nQ => Atom(v.at[q][jx].x, v.at[q][jy].y, aods[q]))
  }

  /** A qubit is held by AOD traps through stage `j` exactly when it is in
      an AOD trap at every stage from 0 to `j`. */
  lemma {:induction false} AodThroughIff(v: Values, q: nat, j: nat)
    requires Cell(v, q, j)
    ensures AodThrough(v, q, j) <==> forall k :: 0 <= k <= j ==> v.at[q][k].aod
  {
    if j > 0 {
      AodThroughIff(v, q, j - 1);
    }
  }

  /** The AOD flags the source's list conveys at stage `j`: a qubit's flag
      is set exactly when it has been in an AOD trap at every stage so far. */
  function Conveyed(v: Values, nQ: nat, j: nat): (r: seq<bool>)
    requires Present(v, nQ, j)
    ensures |r| == nQ && forall q :: 0 <= q < nQ ==> r[q] == AodThrough(v, q, j)
    ensures forall q :: 0 <= q < nQ ==> (r[q] <==> forall k :: 0 <= k <= j ==> v.at[q][k].aod)
  {
    ConveyedIff(v, nQ, j);
    seq(nQ, q requires 0 <= q < nQ => AodThrough(v, q, j))
  }

  /** `AodThroughIff` for every qubit below `nQ`. */
  lemma ConveyedIff(v: Values, nQ: nat, j: nat)
    requires Present(v, nQ, j)
    ensures forall q :: 0 <= q < nQ ==> (AodThrough(v, q, j) <==> forall k :: 0 <= k <= j ==> v.at[q][k].aod)
  {
    forall q | 0 <= q < nQ
      ensures AodThrough(v, q, j) <==> forall k :: 0 <= k <= j ==> v.at[q][k].aod
    {
      AodThroughIff(v, q, j);
    }
  }

  /** The actual AOD flags at stage `j`. */
  function AodAt(v: Values, nQ: nat, j: nat): (r: seq<bool>)
    requires Present(v, nQ, j)
    ensures |r| == nQ && forall q :: 0 <= q < nQ ==> r[q] == v.at[q][j].aod
  {
    seq(nQ, q requires 0 <= q < nQ => v.at[q][j].aod)
  }

  /** Held by an AOD trap at `j - 1` or at `j`: the flags between the
      pickups and the drops of a transition. */
  function AodEither(v: Values, nQ: nat, j: nat): (r: seq<bool>)
    requires 0 < j && Present(v, nQ, j)
    ensures |r| == nQ && forall q :: 0 <= q < nQ ==> r[q] == (v.at[q][j - 1].aod || v.at[q][j].aod)
  {
    seq(nQ, q requires 0 <= q < nQ => v.at[q][j - 1].aod || v.at[q][j].aod)
  }

  /** The placements of stage `j` as the source's list conveys them. */
  function StateAt(v: Values, nQ: nat, j: nat): seq<Atom>
    requires Present(v, nQ, j)
  {
    Frame(v, nQ, j, j, Conveyed(v, nQ, j))
  }

  /** The placements of stage `j`, trap kinds included. */
  function Placement(v: Values, nQ: nat, j: nat): seq<Atom>
    requires Present(v, nQ, j)
  {
    Frame(v, nQ, j, j, AodAt(v, nQ, j))
  }

  /** Between `j - 1` and `j`, a qubit that changes a coordinate keeps the
      matching lane, as `FixedSlm` and `AodMoveTogether` demand; otherwise
      the source would not report the change. */
  predicate MovesKeepLanes(v: Values, nQ: nat, j: nat)
    requires 0 < j && Present(v, nQ, j)
  {
    forall q, axis :: 0 <= q < nQ ==> KeepsLane(v, q, j, axis)
  }

  /** Qubit `q` keeps its lane along `axis` if its coordinate changes. */
  predicate KeepsLane(v: Values, q: nat, j: nat, axis: Axis)
    requires 0 < j && Cell(v, q, j)
  {
    Coord(v.at[q][j], axis) != Coord(v.at[q][j - 1], axis) ==> Mover(v, q, j, axis)
  }

  /** Every qubit that changes a coordinate between `j - 1` and `j` is, as
      the source's list conveys it, held by AOD traps at `j`. */
  predicate MoversConveyed(v: Values, nQ: nat, j: nat)
    requires 0 < j && Present(v, nQ, j)
  {
    forall q, axis :: 0 <= q < nQ && Mover(v, q, j, axis) ==> AodThrough(v, q, j)
  }

  /** Every qubit that changes a coordinate between `j - 1` and `j` is held
      by an AOD trap at `j - 1`. */
  predicate MoversHeld(v: Values, nQ: nat, j: nat)
    requires 0 < j && Present(v, nQ, j)
  {
    forall q, axis :: 0 <= q < nQ && Mover(v, q, j, axis) ==> v.at[q][j - 1].aod
  }

  /** A satisfying assignment moves only qubits held by AOD traps, since an
      SLM trap keeps its qubit's site. */
  lemma ValidMoversHeld(p: Problem, v: Values, j: nat)
    requires Valid(p, v) && 0 < j < p.nStages
    ensures MoversHeld(v, p.nQubits, j)
  {
    forall q, axis | 0 <= q < p.nQubits && Mover(v, q, j, axis)
      ensures v.at[q][j - 1].aod
    {
      assert SlmHolds(v, q, j - 1);
    }
  }

  /** Every satisfying assignment reports all of its coordinate changes. */
  lemma ValidMovesKeepLanes(p: Problem, v: Values, j: nat)
    requires Valid(p, v) && 0 < j < p.nStages
    ensures MovesKeepLanes(v, p.nQubits, j)
  {
    forall q, axis | 0 <= q < p.nQubits
      ensures KeepsLane(v, q, j, axis)
    {
      assert SlmHolds(v, q, j - 1);
      assert AodHolds(v, q, j - 1);
    }
  }

  /* Replaying each part of a block */

  lemma {:induction false} RunInits(v: Values, n: nat, s: seq<Atom>)
    requires Present(v, n, 0) && n <= |s|
    ensures forall q :: 0 <= q < |s| ==>
      Run(s, Inits(v, n))[q] == if q < n then Atom(v.at[q][0].x, v.at[q][0].y, v.at[q][0].aod) else s[q]
  {
    if n > 0 {
      var k := n - 1;
      var ins := Init(k, v.at[k][0].x, v.at[k][0].y, v.at[k][0].aod);
      RunInits(v, k, s);
      RunAppend(s, Inits(v, k), [ins]);
      RunOne(Run(s, Inits(v, k)), ins);
    }
  }

  lemma {:induction false} RunTransfers(v: Values, j: nat, n: nat, s: seq<Atom>)
    requires 0 < j && Present(v, n, j) && n <= |s|
    ensures forall q :: 0 <= q < |s| ==>
      Run(s, Transfers(v, j, n))[q] == if q < n && Dropped(v, q, j) then s[q].(aod := false) else s[q]
  {
    if n > 0 {
      var prev := Transfers(v, j, n - 1);
      var r := Run(s, prev);
      RunTransfers(v, j, n - 1, s);
      if Dropped(v, n - 1, j) {
        assert Transfers(v, j, n) == prev + [MoveToSlm(n - 1)];
        RunAppend(s, prev, [MoveToSlm(n - 1)]);
        RunOne(r, MoveToSlm(n - 1));
        ApplyTransfer(r, n - 1);
        assert Run(s, Transfers(v, j, n)) == Apply(r, MoveToSlm(n - 1));
      } else {
        assert Transfers(v, j, n) == prev;
      }
    }
  }

  lemma {:induction false} RunPickups(v: Values, j: nat, n: nat, s: seq<Atom>)
    requires 0 < j && Present(v, n, j) && n <= |s|
    ensures forall q :: 0 <= q < |s| ==>
      Run(s, Pickups(v, j, n))[q] == if q < n && PickedUp(v, q, j) then s[q].(aod := true) else s[q]
  {
    if n > 0 {
      var prev := Pickups(v, j, n - 1);
      var r := Run(s, prev);
      RunPickups(v, j, n - 1, s);
      if PickedUp(v, n - 1, j) {
        assert Pickups(v, j, n) == prev + [MoveToAod(n - 1)];
        RunAppend(s, prev, [MoveToAod(n - 1)]);
        RunOne(r, MoveToAod(n - 1));
        ApplyPickup(r, n - 1);
        assert Run(s, Pickups(v, j, n)) == Apply(r, MoveToAod(n - 1));
      } else {
        assert Pickups(v, j, n) == prev;
      }
    }
  }

  lemma {:induction false} RunMovesFor(v: Values, j: nat, axis: Axis, n: nat, ks: seq<(nat, nat)>, s: seq<Atom>)
    requires 0 < j && Present(v, n, j) && n <= |s|
    ensures forall q :: 0 <= q < |s| ==>
      Run(s, MovesFor(v, j, axis, n, ks))[q] ==
        if q < n && Mover(v, q, j, axis) && Shift(v, q, j, axis) in ks && s[q].aod
        then Moved(s[q], axis, Coord(v.at[q][j], axis)) else s[q]
  {
    if ks != [] {
      var m := MoveAod(axis, Group(v, j, axis, n, ks[0]), ks[0].0, ks[0].1);
      var rest := MovesFor(v, j, axis, n, ks[1..]);
      assert MovesFor(v, j, axis, n, ks) == [m] + rest;
      assert ([m] + rest)[1..] == rest;
      var s1 := Apply(s, m);
      RunMovesFor(v, j, axis, n, ks[1..], s1);
      forall q | 0 <= q < |s|
        ensures Run(s, MovesFor(v, j, axis, n, ks))[q] ==
          if q < n && Mover(v, q, j, axis) && Shift(v, q, j, axis) in ks && s[q].aod
          then Moved(s[q], axis, Coord(v.at[q][j], axis)) else s[q]
      {
        assert Run(s, MovesFor(v, j, axis, n, ks)) == Run(s1, rest);
        assert s1[q] == if q in m.qubits && s[q].aod then Moved(s[q], axis, ks[0].1) else s[q];
        assert s1[q].aod == s[q].aod;
      }
    }
  }


  /** The transfers of a transition clear the conveyed AOD flag of the
      dropped qubits. */
  lemma ReplayTransfers(v: Values, nQ: nat, j: nat)
    requires 0 < j && Present(v, nQ, j)
    ensures Run(Frame(v, nQ, j - 1, j - 1, Conveyed(v, nQ, j - 1)), Transfers(v, j, nQ))
      == Frame(v, nQ, j - 1, j - 1, Conveyed(v, nQ, j))
  {
    var s0 := Frame(v, nQ, j - 1, j - 1, Conveyed(v, nQ, j - 1));
    var s1 := Run(s0, Transfers(v, j, nQ));
    var want := Frame(v, nQ, j - 1, j - 1, Conveyed(v, nQ, j));
    RunTransfers(v, j, nQ, s0);
    forall q | 0 <= q < nQ
      ensures s1[q] == want[q]
    {
      assert AodThrough(v, q, j) == (v.at[q][j].aod && AodThrough(v, q, j - 1));
      assert AodThrough(v, q, j - 1) ==> v.at[q][j - 1].aod;
    }
  }

  /** The column moves of a transition bring the `x` of every qubit to its
      new value, provided every mover is flagged as held by an AOD trap. */
  lemma ReplayColumnMoves(v: Values, nQ: nat, j: nat, aods: seq<bool>)
    requires 0 < j && Present(v, nQ, j) && MovesKeepLanes(v, nQ, j) && |aods| == nQ
    requires forall q :: 0 <= q < nQ && Mover(v, q, j, Col) ==> aods[q]
    ensures Run(Frame(v, nQ, j - 1, j - 1, aods), AxisMoves(v, j, Col, nQ)) == Frame(v, nQ, j, j - 1, aods)
  {
    var s0 := Frame(v, nQ, j - 1, j - 1, aods);
    var r := Run(s0, AxisMoves(v, j, Col, nQ));
    var want := Frame(v, nQ, j, j - 1, aods);
    RunMovesFor(v, j, Col, nQ, Keys(v, j, Col, nQ), s0);
    forall q | 0 <= q < nQ
      ensures r[q] == want[q]
    {
      assert KeepsLane(v, q, j, Col);
      if Mover(v, q, j, Col) {
        assert Shift(v, q, j, Col) in Keys(v, j, Col, nQ);
      }
    }
  }

  /** The row moves of a transition bring the `y` of every qubit to its new
      value, provided every mover is flagged as held by an AOD trap. */
  lemma ReplayRowMoves(v: Values, nQ: nat, j: nat, aods: seq<bool>)
    requires 0 < j && Present(v, nQ, j) && MovesKeepLanes(v, nQ, j) && |aods| == nQ
    requires forall q :: 0 <= q < nQ && Mover(v, q, j, Row) ==> aods[q]
    ensures Run(Frame(v, nQ, j, j - 1, aods), AxisMoves(v, j, Row, nQ)) == Frame(v, nQ, j, j, aods)
  {
    var s0 := Frame(v, nQ, j, j - 1, aods);
    var r := Run(s0, AxisMoves(v, j, Row, nQ));
    var want := Frame(v, nQ, j, j, aods);
    RunMovesFor(v, j, Row, nQ, Keys(v, j, Row, nQ), s0);
    forall q | 0 <= q < nQ
      ensures r[q] == want[q]
    {
      assert KeepsLane(v, q, j, Row);
      if Mover(v, q, j, Row) {
        assert Shift(v, q, j, Row) in Keys(v, j, Row, nQ);
      }
    }
  }

  /** Replaying the source's trap instructions of stage `j > 0` from the
      stage `j - 1` state gives the stage `j` state, when every mover is
      conveyed as held by AOD traps. */
  lemma ReplayTransition(v: Values, nQ: nat, nS: nat, j: nat)
    requires Dimensions(v, nQ, nS, |v.t|) && 0 < j < nS
    requires MovesKeepLanes(v, nQ, j) && MoversConveyed(v, nQ, j)
    ensures Run(StateAt(v, nQ, j - 1), Movement(v, nQ, nS, j)) == StateAt(v, nQ, j)
  {
    var tr, cm, rm := Transfers(v, j, nQ), AxisMoves(v, j, Col, nQ), AxisMoves(v, j, Row, nQ);
    var s0 := StateAt(v, nQ, j - 1);
    var aods := Conveyed(v, nQ, j);
    RunAppend(s0, tr, cm);
    RunAppend(s0, tr + cm, rm);
    ReplayTransfers(v, nQ, j);
    ReplayColumnMoves(v, nQ, j, aods);
    ReplayRowMoves(v, nQ, j, aods);
  }

  /** The pickups of a transition set the AOD flag of the picked-up
      qubits. */
  lemma ReplayPickups(v: Values, nQ: nat, j: nat)
    requires 0 < j && Present(v, nQ, j)
    ensures Run(Frame(v, nQ, j - 1, j - 1, AodAt(v, nQ, j - 1)), Pickups(v, j, nQ))
      == Frame(v, nQ, j - 1, j - 1, AodEither(v, nQ, j))
  {
    var s0 := Frame(v, nQ, j - 1, j - 1, AodAt(v, nQ, j - 1));
    RunPickups(v, j, nQ, s0);
  }

  /** The transfers after the moves clear the flags of the dropped qubits,
      leaving the actual flags of stage `j`. */
  lemma ReplayDrops(v: Values, nQ: nat, j: nat)
    requires 0 < j && Present(v, nQ, j)
    ensures Run(Frame(v, nQ, j, j, AodEither(v, nQ, j)), Transfers(v, j, nQ)) == Placement(v, nQ, j)
  {
    var s0 := Frame(v, nQ, j, j, AodEither(v, nQ, j));
    RunTransfers(v, j, nQ, s0);
  }

  /** Replaying the corrected trap instructions of stage `j > 0` from the
      exact stage `j - 1` placements gives the exact stage `j` placements. */
  lemma CorrectedTransition(v: Values, nQ: nat, nS: nat, j: nat)
    requires Dimensions(v, nQ, nS, |v.t|) && 0 < j < nS
    requires MovesKeepLanes(v, nQ, j) && MoversHeld(v, nQ, j)
    ensures Run(Placement(v, nQ, j - 1), CorrectedMovement(v, nQ, nS, j)) == Placement(v, nQ, j)
  {
    var pu, cm, rm, tr := Pickups(v, j, nQ), AxisMoves(v, j, Col, nQ), AxisMoves(v, j, Row, nQ), Transfers(v, j, nQ);
    var s0 := Placement(v, nQ, j - 1);
    var aods := AodEither(v, nQ, j);
    assert CorrectedMovement(v, nQ, nS, j) == pu + cm + rm + tr;
    RunAppend(s0, pu, cm);
    RunAppend(s0, pu + cm, rm);
    RunAppend(s0, pu + cm + rm, tr);
    ReplayPickups(v, nQ, j);
    ReplayColumnMoves(v, nQ, j, aods);
    ReplayRowMoves(v, nQ, j, aods);
    ReplayDrops(v, nQ, j);
  }

  /** Replaying stage 0's trap instructions from any state of the right
      size gives the stage 0 state, which is exact. */
  lemma ReplayInits(v: Values, nQ: nat, s: seq<Atom>)
    requires Present(v, nQ, 0) && |s| == nQ
    ensures Run(s, Inits(v, nQ)) == StateAt(v, nQ, 0) == Placement(v, nQ, 0)
  {
    RunInits(v, nQ, s);
  }

  /** Replaying a whole block: its gate batch changes nothing. */
  lemma ReplayBlock(v: Values, gates: seq<Gate>, nQ: nat, nS: nat, j: nat, s: seq<Atom>)
    requires Dimensions(v, nQ, nS, |gates|) && j < nS
    ensures Run(s, Block(v, gates, nQ, nS, j)) == Run(s, Movement(v, nQ, nS, j))
  {
    var head := Movement(v, nQ, nS, j);
    var rep := GateReport(gates, v.t, j);
    RunAppend(s, head, rep);
    RunBatches(Run(s, head), rep);
  }

  /** Replaying a whole corrected block: its gate batch changes nothing. */
  lemma ReplayCorrectedBlock(v: Values, gates: seq<Gate>, nQ: nat, nS: nat, j: nat, s: seq<Atom>)
    requires Dimensions(v, nQ, nS, |gates|) && j < nS
    ensures Run(s, CorrectedBlock(v, gates, nQ, nS, j)) == Run(s, CorrectedMovement(v, nQ, nS, j))
  {
    var head := CorrectedMovement(v, nQ, nS, j);
    var rep := TimedReport(gates, v.t, j);
    RunAppend(s, head, rep);
    RunBatches(Run(s, head), rep);
  }

  /** Replaying the first `n` blocks is replaying the first `n - 1` and
      then block `n - 1`. */
  lemma ReplayStep(bs: seq<seq<Instruction>>, n: nat, s: seq<Atom>)
    requires 0 < n <= |bs|
    ensures Run(s, Concat(bs[..n])) == Run(Run(s, Concat(bs[..n - 1])), bs[n - 1])
  {
    var pre := bs[..n];
    ConcatLast(pre);
    assert pre[..n - 1] == bs[..n - 1];
    RunAppend(s, Concat(bs[..n - 1]), bs[n - 1]);
  }

  /** Block `k` takes `states[k - 1]` to `states[k]`. */
  predicate Chained(bs: seq<seq<Instruction>>, states: seq<seq<Atom>>, k: nat)
    requires 0 < k < |bs| == |states|
  {
    Run(states[k - 1], bs[k]) == states[k]
  }

  /** Replaying the first `n` blocks reaches `states[n - 1]` when the first
      block takes `s` to `states[0]` and each later block takes the previous
      state to the next. */
  lemma {:induction false} RunThroughBlocks(bs: seq<seq<Instruction>>, states: seq<seq<Atom>>, s: seq<Atom>, n: nat)
    requires 0 < n <= |bs| == |states|
    requires Run(s, bs[0]) == states[0]
    requires forall k :: 0 < k < n ==> Chained(bs, states, k)
    ensures Run(s, Concat(bs[..n])) == states[n - 1]
  {
    ReplayStep(bs, n, s);
    if n == 1 {
      assert bs[..0] == [];
    } else {
      RunThroughBlocks(bs, states, s, n - 1);
      assert Chained(bs, states, n - 1);
    }
  }

  /** Stage 0's block takes any state of the right size to the stage-0
      state. */
  lemma ReplayFirstBlock(v: Values, gates: seq<Gate>, nQ: nat, nS: nat, s: seq<Atom>)
    requires Dimensions(v, nQ, nS, |gates|) && 0 < nS && |s| == nQ
    ensures Run(s, Block(v, gates, nQ, nS, 0)) == StateAt(v, nQ, 0)
  {
    ReplayBlock(v, gates, nQ, nS, 0, s);
    ReplayInits(v, nQ, s);
  }

  /** A later stage's block takes the previous stage's state to its own. */
  lemma ReplayLaterBlock(v: Values, gates: seq<Gate>, nQ: nat, nS: nat, j: nat)
    requires Dimensions(v, nQ, nS, |gates|) && 0 < j < nS
    requires MovesKeepLanes(v, nQ, j) && MoversConveyed(v, nQ, j)
    ensures Run(StateAt(v, nQ, j - 1), Block(v, gates, nQ, nS, j)) == StateAt(v, nQ, j)
  {
    ReplayBlock(v, gates, nQ, nS, j, StateAt(v, nQ, j - 1));
    ReplayTransition(v, nQ, nS, j);
  }

  /** The states of the first `n` stages. */
  function States(v: Values, nQ: nat, n: nat): (r: seq<seq<Atom>>)
    requires forall k :: 0 <= k < n ==> Present(v, nQ, k)
    ensures |r| == n && forall k :: 0 <= k < n ==> r[k] == StateAt(v, nQ, k)
  {
    if n == 0 then [] else States(v, nQ, n - 1) + [StateAt(v, nQ, n - 1)]
  }

  /** Every transition before stage `n` reports all of its coordinate
      changes and moves only qubits conveyed as held by AOD traps. */
  predicate ConveyedMoves(v: Values, nQ: nat, n: nat)
    requires forall k :: 0 <= k < n ==> Present(v, nQ, k)
  {
    forall k :: 0 < k < n ==> MovesKeepLanes(v, nQ, k) && MoversConveyed(v, nQ, k)
  }

  /** Replaying the first `n` stages from any state of the right size
      yields the stage-`n - 1` placements with the AOD flag of
      `AodThrough`. */
  lemma ReplayStages(v: Values, gates: seq<Gate>, nQ: nat, nS: nat, n: nat, s: seq<Atom>)
    requires Dimensions(v, nQ, nS, |gates|) && 0 < n <= nS && |s| == nQ
    requires ConveyedMoves(v, nQ, n)
    ensures Run(s, Concat(Stages(v, gates, nQ, nS)[..n])) == StateAt(v, nQ, n - 1)
  {
    var bs := Stages(v, gates, nQ, nS);
    var states := States(v, nQ, nS);
    ReplayFirstBlock(v, gates, nQ, nS, s);
    forall k | 0 < k < n
      ensures Chained(bs, states, k)
    {
      ReplayLaterBlock(v, gates, nQ, nS, k);
    }
    RunThroughBlocks(bs, states, s, n);
  }

  /** The round trip of the source's list: when every moved qubit is
      conveyed as held by AOD traps, replaying the whole list yields the
      placements of the last stage, with every qubit's site exact and its
      AOD flag set exactly when it stayed in AOD traps throughout. */
  lemma ReplayReachesLastStage(v: Values, gates: seq<Gate>, nQ: nat, nS: nat, s: seq<Atom>)
    requires Dimensions(v, nQ, nS, |gates|) && 0 < nS && |s| == nQ
    requires ConveyedMoves(v, nQ, nS)
    ensures Run(s, Synthesize(v, gates, nQ, nS)) == StateAt(v, nQ, nS - 1)
  {
    ReplayStages(v, gates, nQ, nS, nS, s);
    AllStages(v, gates, nQ, nS);
  }

  /** The instruction list is all the blocks joined. */
  lemma AllStages(v: Values, gates: seq<Gate>, nQ: nat, nS: nat)
    requires Dimensions(v, nQ, nS, |gates|)
    ensures Concat(Stages(v, gates, nQ, nS)[..nS]) == Synthesize(v, gates, nQ, nS)
  {
    var bs := Stages(v, gates, nQ, nS);
    assert bs[..nS] == bs;
  }

  /** Without SLM-to-AOD transfers, the conveyed AOD flag is the actual one. */
  lemma {:induction false} AodThroughWithoutPickups(v: Values, q: nat, j: nat)
    requires Cell(v, q, j)
    requires forall k :: 0 < k <= j ==> (v.at[q][k].aod ==> v.at[q][k - 1].aod)
    ensures AodThrough(v, q, j) == v.at[q][j].aod
  {
    if j > 0 {
      AodThroughWithoutPickups(v, q, j - 1);
    }
  }

  /* The corrected list */

  /** The exact placements of the first `n` stages. */
  function Placements(v: Values, nQ: nat, n: nat): (r: seq<seq<Atom>>)
    requires forall k :: 0 <= k < n ==> Present(v, nQ, k)
    ensures |r| == n && forall k :: 0 <= k < n ==> r[k] == Placement(v, nQ, k)
  {
    if n == 0 then [] else Placements(v, nQ, n - 1) + [Placement(v, nQ, n - 1)]
  }

  /** Every transition before stage `n` reports all of its coordinate
      changes and moves only qubits held by AOD traps. */
  predicate HeldMoves(v: Values, nQ: nat, n: nat)
    requires forall k :: 0 <= k < n ==> Present(v, nQ, k)
  {
    forall k :: 0 < k < n ==> MovesKeepLanes(v, nQ, k) && MoversHeld(v, nQ, k)
  }

  /** Replaying the first `n` corrected blocks from any state of the right
      size yields the exact stage-`n - 1` placements. */
  lemma CorrectedReplayStages(v: Values, gates: seq<Gate>, nQ: nat, nS: nat, n: nat, s: seq<Atom>)
    requires Dimensions(v, nQ, nS, |gates|) && 0 < n <= nS && |s| == nQ
    requires HeldMoves(v, nQ, n)
    ensures Run(s, Concat(CorrectedStages(v, gates, nQ, nS)[..n])) == Placement(v, nQ, n - 1)
  {
    var bs := CorrectedStages(v, gates, nQ, nS);
    var states := Placements(v, nQ, nS);
    ReplayCorrectedBlock(v, gates, nQ, nS, 0, s);
    ReplayInits(v, nQ, s);
    forall k | 0 < k < n
      ensures Chained(bs, states, k)
    {
      ReplayCorrectedBlock(v, gates, nQ, nS, k, Placement(v, nQ, k - 1));
      CorrectedTransition(v, nQ, nS, k);
    }
    RunThroughBlocks(bs, states, s, n);
  }

  /** The corrected round trip: replaying the whole corrected list yields
      the exact placements of the last stage, trap kinds included. */
  lemma CorrectedReplayReachesLastStage(v: Values, gates: seq<Gate>, nQ: nat, nS: nat, s: seq<Atom>)
    requires Dimensions(v, nQ, nS, |gates|) && 0 < nS && |s| == nQ
    requires HeldMoves(v, nQ, nS)
    ensures Run(s, CorrectedSynthesize(v, gates, nQ, nS)) == Placement(v, nQ, nS - 1)
  {
    CorrectedReplayStages(v, gates, nQ, nS, nS, s);
    CorrectedAllStages(v, gates, nQ, nS);
  }

  /** The corrected list is all the corrected blocks joined. */
  lemma CorrectedAllStages(v: Values, gates: seq<Gate>, nQ: nat, nS: nat)
    requires Dimensions(v, nQ, nS, |gates|)
    ensures Concat(CorrectedStages(v, gates, nQ, nS)[..nS]) == CorrectedSynthesize(v, gates, nQ, nS)
  {
    var bs := CorrectedStages(v, gates, nQ, nS);
    assert bs[..nS] == bs;
  }

  /* The pickup example */

  /** A transfer from an SLM trap to an AOD trap is not conveyed by the
      source's list: one qubit in an SLM trap at stage 0 and an AOD trap at
      stage 1 (same site) replays as still in an SLM trap. The corrected
      list conveys it. */
  lemma PickupNotConveyed()
    ensures Run([Atom(0, 0, false)], Synthesize(Pickup, [], 1, 2)) == [Atom(0, 0, false)]
    ensures Pickup.at[0][1].aod
    ensures Run([Atom(0, 0, false)], CorrectedSynthesize(Pickup, [], 1, 2)) == [Atom(0, 0, true)]
  {
    PickupStates();
    ReplayReachesLastStage(Pickup, [], 1, 2, [Atom(0, 0, false)]);
    CorrectedReplayReachesLastStage(Pickup, [], 1, 2, [Atom(0, 0, false)]);
  }

  /** The pickup moves nothing, stage 1 as the source's list conveys it
      still has the qubit in an SLM trap, and stage 1 as it is has it in an
      AOD trap. */
  lemma PickupStates()
    ensures Dimensions(Pickup, 1, 2, 0)
    ensures ConveyedMoves(Pickup, 1, 2) && HeldMoves(Pickup, 1, 2)
    ensures StateAt(Pickup, 1, 1) == [Atom(0, 0, false)]
    ensures Placement(Pickup, 1, 1) == [Atom(0, 0, true)]
  {
    var v := Pickup;
    assert KeepsLane(v, 0, 1, Col) && KeepsLane(v, 0, 1, Row);
    assert !Mover(v, 0, 1, Col) && !Mover(v, 0, 1, Row);
    assert !AodThrough(v, 0, 1);
    assert StateAt(v, 1, 1)[0] == Atom(0, 0, false);
    assert Placement(v, 1, 1)[0] == Atom(0, 0, true);
  }

  /** One qubit picked up from an SLM trap into an AOD trap at one site. */
  const Pickup: Values := Values([[Trap(0, 0, 0, 0, false), Trap(0, 0, 0, 0, true)]], [])

  /* Valid assignments */

  /** Every transition of a satisfying assignment reports all of its
      coordinate changes and moves only qubits held by AOD traps. */
  lemma ValidTransitionsHeld(p: Problem, v: Values)
    requires Valid(p, v)
    ensures HeldMoves(v, p.nQubits, p.nStages)
  {
    forall k | 0 < k < p.nStages
      ensures MovesKeepLanes(v, p.nQubits, k) && MoversHeld(v, p.nQubits, k)
    {
      ValidMovesKeepLanes(p, v, k);
      ValidMoversHeld(p, v, k);
    }
  }

  /** For a satisfying assignment the corrected list replays to the exact
      placements of the last stage, with no further assumption. */
  lemma ValidReplay(p: Problem, v: Values, s: seq<Atom>)
    requires Valid(p, v) && 0 < p.nStages && |s| == p.nQubits
    ensures Run(s, CorrectedSynthesize(v, p.gates, p.nQubits, p.nStages)) == Placement(v, p.nQubits, p.nStages - 1)
  {
    ValidTransitionsHeld(p, v);
    CorrectedReplayReachesLastStage(v, p.gates, p.nQubits, p.nStages, s);
  }

  /** For a satisfying assignment that moves only qubits conveyed as held
      by AOD traps, the source's list replays to the last stage's
      placements as it conveys them. */
  lemma ConveyedReplay(p: Problem, v: Values, s: seq<Atom>)
    requires Valid(p, v) && 0 < p.nStages && |s| == p.nQubits
    requires forall k :: 0 < k < p.nStages ==> MoversConveyed(v, p.nQubits, k)
    ensures Run(s, Synthesize(v, p.gates, p.nQubits, p.nStages)) == StateAt(v, p.nQubits, p.nStages - 1)
  {
    ValidTransitionsHeld(p, v);
    ReplayReachesLastStage(v, p.gates, p.nQubits, p.nStages, s);
  }

  /* Dropping and moving in one transition */

  /** One qubit that leaves its AOD trap for an SLM trap at site (1, 0)
      while its AOD column carries it from `x = 0` to `x = 1`. */
  const DropAndMove: Values := Values([[Trap(0, 0, 0, 0, true), Trap(1, 0, 0, 0, false)]], [])

  /** A 1 x 2 site grid, a 1 x 1 AOD grid, two stages, one qubit, no gates. */
  const DropAndMoveProblem: Problem := Problem(1, 2, 1, 1, 2, 1, [], [])

  /** The assignment satisfies every rule: nothing pins a qubit that is in
      an AOD trap at the earlier stage. */
  lemma DropAndMoveValid()
    ensures Valid(DropAndMoveProblem, DropAndMove)
  {
    var p, v := DropAndMoveProblem, DropAndMove;
    assert Shaped(p, v);
    assert GridBounds(p, v) by {
      assert InGrid(p, v.at[0][0]) && InGrid(p, v.at[0][1]);
    }
    assert FixedSlm(p, v) by {
      assert SlmHolds(v, 0, 0);
    }
    assert AodMoveTogether(p, v) by {
      assert AodHolds(v, 0, 0);
    }
  }

  /** The column move of its transition carries qubit 0 from `x = 0` to
      `x = 1`; there is no row move. */
  lemma DropAndMoveShifts()
    ensures AxisMoves(DropAndMove, 1, Col, 1) == [MoveAod(Col, [0], 0, 1)]
    ensures AxisMoves(DropAndMove, 1, Row, 1) == []
  {
    var v := DropAndMove;
    assert Mover(v, 0, 1, Col) && !Mover(v, 0, 1, Row);
    assert Keys(v, 1, Col, 1) == [(0, 1)];
    assert Group(v, 1, Col, 1, (0, 1)) == [0];
  }

  /** Its first block is the `Init` in the AOD trap. */
  lemma DropAndMoveFirstBlock()
    ensures Block(DropAndMove, [], 1, 2, 0) == [Init(0, 0, 0, true)]
  {
    assert Inits(DropAndMove, 1) == [Init(0, 0, 0, true)];
    assert GateReport([], DropAndMove.t, 0) == [];
  }

  /** Its second block is the transfer to the SLM trap followed by the
      column move. */
  lemma DropAndMoveSecondBlock()
    ensures Block(DropAndMove, [], 1, 2, 1) == [MoveToSlm(0), MoveAod(Col, [0], 0, 1)]
  {
    var v := DropAndMove;
    DropAndMoveShifts();
    assert Transfers(v, 1, 1) == [MoveToSlm(0)];
    assert Movement(v, 1, 2, 1) == [MoveToSlm(0), MoveAod(Col, [0], 0, 1)];
    assert GateReport([], v.t, 1) == [];
  }

  /** A two-stage list is the two blocks joined. */
  lemma TwoStages(v: Values, gates: seq<Gate>, nQ: nat)
    requires Dimensions(v, nQ, 2, |gates|)
    ensures Synthesize(v, gates, nQ, 2) == Block(v, gates, nQ, 2, 0) + Block(v, gates, nQ, 2, 1)
  {
    var bs := Stages(v, gates, nQ, 2);
    assert Synthesize(v, gates, nQ, 2) == Concat(bs);
    assert bs[..1][..0] == [];
    assert Concat(bs[..1]) == bs[0];
    assert Concat(bs) == Concat(bs[..1]) + bs[1];
  }

  /** The source's list for it: initialise in the AOD trap, transfer to the
      SLM trap, then move the column. */
  lemma DropAndMoveList()
    ensures Synthesize(DropAndMove, [], 1, 2) == [Init(0, 0, 0, true), MoveToSlm(0), MoveAod(Col, [0], 0, 1)]
  {
    assert Dimensions(DropAndMove, 1, 2, 0);
    TwoStages(DropAndMove, [], 1);
    DropAndMoveFirstBlock();
    DropAndMoveSecondBlock();
  }

  /** Replaying that list from any one-qubit state strands the qubit at
      `x = 0` in its SLM trap. */
  lemma DropAndMoveRun(s: seq<Atom>)
    requires |s| == 1
    ensures Run(s, [Init(0, 0, 0, true), MoveToSlm(0), MoveAod(Col, [0], 0, 1)]) == [Atom(0, 0, false)]
  {
    var s1 := Apply(s, Init(0, 0, 0, true));
    assert s1 == [Atom(0, 0, true)];
    var s2 := Apply(s1, MoveToSlm(0));
    assert s2 == [Atom(0, 0, false)];
    assert Apply(s2, MoveAod(Col, [0], 0, 1)) == s2;
    RunOne(s2, MoveAod(Col, [0], 0, 1));
    RunAppend(s1, [MoveToSlm(0)], [MoveAod(Col, [0], 0, 1)]);
    RunOne(s1, MoveToSlm(0));
    assert [Init(0, 0, 0, true), MoveToSlm(0), MoveAod(Col, [0], 0, 1)][1..] == [MoveToSlm(0), MoveAod(Col, [0], 0, 1)];
  }

  /** Stage 1 places the qubit at `x = 1` in an SLM trap, both as it is
      and as the source's list conveys it. */
  lemma DropAndMoveTarget()
    ensures Placement(DropAndMove, 1, 1) == StateAt(DropAndMove, 1, 1) == [Atom(1, 0, false)]
  {
    var v := DropAndMove;
    assert Placement(v, 1, 1)[0] == Atom(1, 0, false);
    assert !AodThrough(v, 0, 1);
    assert StateAt(v, 1, 1)[0] == Atom(1, 0, false);
  }

  /** The source transfers before it moves, so a satisfying assignment can
      leave a qubit behind: the list leaves it at `x = 0` in its SLM trap,
      while the assignment places it at `x = 1`. The corrected list, which
      moves first, brings it to `x = 1`. */
  lemma DropThenMoveStrands()
    ensures Valid(DropAndMoveProblem, DropAndMove)
    ensures Run([Atom(0, 0, false)], Synthesize(DropAndMove, [], 1, 2)) == [Atom(0, 0, false)]
    ensures Placement(DropAndMove, 1, 1) == StateAt(DropAndMove, 1, 1) == [Atom(1, 0, false)]
    ensures Run([Atom(0, 0, false)], CorrectedSynthesize(DropAndMove, [], 1, 2)) == [Atom(1, 0, false)]
  {
    DropAndMoveValid();
    DropAndMoveList();
    DropAndMoveRun([Atom(0, 0, false)]);
    DropAndMoveTarget();
    ValidReplay(DropAndMoveProblem, DropAndMove, [Atom(0, 0, false)]);
  }
}
