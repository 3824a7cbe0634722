/** A circuit as a sequence of two-qubit gates, grouped into stages
    (src/circuit.rs). */
module Circuits {
  import opened Gates
  import Staging

  /** `gates` in program order; `stages` as sets of gate indices (the source
      keeps vectors whose order comes from hash-set iteration); `nQubits` the
      number of qubits the gates need. */
  datatype Circuit = Circuit(gates: seq<Gate>, stages: seq<Staging.Stage>, nQubits: nat)

  /** What the source's fields satisfy whenever a `Circuit` is observed:
      every gate index lies below `nQubits` and every stage entry names a
      gate. */
  predicate Valid(c: Circuit)
  {
    && (forall i :: 0 <= i < |c.gates| ==> c.gates[i].ctrl < c.nQubits && c.gates[i].target < c.nQubits)
    && Staging.Bounded(c.stages, |c.gates|)
  }

  /** `Circuit::new`. */
  function New(): (c: Circuit)
    ensures Valid(c) && c.gates == [] && c.stages == [] && c.nQubits == 0
  {
    Circuit([], [], 0)
  }

  function Max(a: nat, b: nat): nat
  {
    if a < b then b else a
  }

  /** `Circuit::append`: the gate goes at the end, a singleton stage holding
      its index is added, and `nQubits` grows to the least bound covering the
      old value and both qubits of the gate. */
  function Append(c: Circuit, g: Gate): (r: Circuit)
    ensures r.nQubits >= c.nQubits && r.nQubits > g.ctrl && r.nQubits > g.target
    ensures r.nQubits == c.nQubits || r.nQubits == g.ctrl + 1 || r.nQubits == g.target + 1
    ensures r.gates == c.gates + [g]
    ensures r.stages == c.stages + [{|c.gates|}]
    ensures Valid(c) ==> Valid(r)
  {
    var n := Max(c.nQubits, g.ctrl + 1);
    var n' := Max(n, g.target + 1);
    Circuit(c.gates + [g], c.stages + [{|c.gates|}], n')
  }

  /** `get_n_qubits`: in a valid circuit, a bound above every qubit a gate
      acts on. */
  function NQubits(c: Circuit): (n: nat)
    ensures Valid(c) ==> forall i, q :: 0 <= i < |c.gates| && q in Qubits(c.gates[i]) ==> q < n
  {
    c.nQubits
  }

  /** `get_n_stages`: when the stages partition the gate indices, there is
      a stage exactly when there is a gate. */
  function NStages(c: Circuit): (n: nat)
    ensures Staging.Partition(c.stages, |c.gates|) ==> (n == 0 <==> |c.gates| == 0)
  {
    Staging.PartitionSize(c.stages, |c.gates|);
    |c.stages|
  }

  /** The circuit built by appending `gs` one by one to a new circuit. */
  function FromGates(gs: seq<Gate>): (c: Circuit)
    ensures Valid(c)
  {
    if |gs| == 0 then New()
    else Append(FromGates(gs[..|gs| - 1]), gs[|gs| - 1])
  }

  /** Some gate of `gates` acts on qubit `q`. */
  predicate Used(gates: seq<Gate>, q: nat)
  {
    exists i :: 0 <= i < |gates| && q in Qubits(gates[i])
  }

  /** Appending only keeps the gates in order and gives each its own
      singleton stage. */
  lemma {:induction false} AppendOnlyShape(gs: seq<Gate>)
    ensures FromGates(gs).gates == gs
    ensures |FromGates(gs).stages| == |gs|
    ensures SingletonStages(FromGates(gs).stages)
  {
    if |gs| > 0 {
      var init := gs[..|gs| - 1];
      AppendOnlyShape(init);
      var c := FromGates(init);
      assert FromGates(gs) == Append(c, gs[|gs| - 1]);
      SingletonStagesGrow(c.stages);
      assert gs == init + [gs[|gs| - 1]];
    }
  }

  /** Stage `i` holds exactly gate `i`. */
  predicate SingletonStages(stages: seq<Staging.Stage>)
  {
    forall i :: 0 <= i < |stages| ==> stages[i] == {i}
  }

  lemma SingletonStagesGrow(stages: seq<Staging.Stage>)
    requires SingletonStages(stages)
    ensures SingletonStages(stages + [{|stages|}])
  {
    var r := stages + [{|stages|}];
    forall i | 0 <= i < |r|
      ensures r[i] == {i}
    {
      if i < |stages| {
        assert r[i] == stages[i];
      }
    }
  }

  /** Appending only sets `nQubits` to zero or to one above a qubit some
      gate uses. */
  lemma {:induction false} AppendOnlyQubits(gs: seq<Gate>)
    ensures FromGates(gs).nQubits == 0 || Used(gs, FromGates(gs).nQubits - 1)
  {
    if |gs| > 0 {
      var init := gs[..|gs| - 1];
      AppendOnlyQubits(init);
      var c := FromGates(init);
      var g := gs[|gs| - 1];
      var r := Append(c, g);
      assert FromGates(gs) == r;
      if r.nQubits == c.nQubits && c.nQubits > 0 {
        var i :| 0 <= i < |init| && c.nQubits - 1 in Qubits(init[i]);
        assert gs[i] == init[i];
      } else {
        assert r.nQubits - 1 in Qubits(g);
        assert gs[|gs| - 1] == g;
      }
    }
  }

  /** Appending only: the gates are `gs`, there is one singleton stage per
      gate, the circuit is valid, and `nQubits` is the least bound above
      every qubit index used (zero for no gates). */
  lemma AppendOnly(gs: seq<Gate>)
    ensures FromGates(gs).gates == gs
    ensures |FromGates(gs).stages| == |gs|
    ensures forall i :: 0 <= i < |gs| ==> FromGates(gs).stages[i] == {i}
    ensures Valid(FromGates(gs))
    ensures forall i, q :: 0 <= i < |gs| && q in Qubits(gs[i]) ==> q < FromGates(gs).nQubits
    ensures FromGates(gs).nQubits == 0 || Used(gs, FromGates(gs).nQubits - 1)
  {
    AppendOnlyShape(gs);
    AppendOnlyQubits(gs);
  }

  /* Renumbering. */

  /** Number of `true` entries of `s`. */
  function CountTrue(s: seq<bool>): (n: nat)
    ensures n <= |s|
    decreases |s|
  {
    if |s| == 0 then 0
    else CountTrue(s[..|s| - 1]) + (if s[|s| - 1] then 1 else 0)
  }

  /** Counting over a longer prefix counts at least as many; strictly more
      when the longer prefix covers an extra `true` entry. */
  lemma {:induction false} CountTrueMonotone(s: seq<bool>, i: nat, j: nat)
    requires i <= j <= |s|
    ensures CountTrue(s[..i]) <= CountTrue(s[..j])
    ensures i < j && s[i] ==> CountTrue(s[..i]) < CountTrue(s[..j])
    decreases j - i
  {
    if i < j {
      CountTrueMonotone(s, i, j - 1);
      assert s[..j][..j - 1] == s[..j - 1];
      if i == j - 1 {
        assert s[..j][j - 1] == s[i];
      }
    }
  }

  /** Every count below the total is the rank of some `true` entry. */
  lemma {:induction false} CountTrueRank(s: seq<bool>, k: nat)
    requires k < CountTrue(s)
    ensures exists q :: 0 <= q < |s| && s[q] && CountTrue(s[..q]) == k
    decreases |s|
  {
    var t := s[..|s| - 1];
    if k < CountTrue(t) {
      CountTrueRank(t, k);
      var q :| 0 <= q < |t| && t[q] && CountTrue(t[..q]) == k;
      assert s[..q] == t[..q];
    } else {
      assert s[..|s| - 1] == t;
    }
  }

  /** All entries are `true` exactly when the count is the length. */
  lemma {:induction false} CountTrueAll(s: seq<bool>)
    ensures CountTrue(s) == |s| <==> forall q :: 0 <= q < |s| ==> s[q]
    decreases |s|
  {
    if |s| > 0 {
      var t := s[..|s| - 1];
      CountTrueAll(t);
      if forall q :: 0 <= q < |s| ==> s[q] {
        assert forall q :: 0 <= q < |t| ==> t[q];
      }
      if CountTrue(s) == |s| {
        assert CountTrue(t) == |t| && s[|s| - 1];
        forall q | 0 <= q < |s| ensures s[q] {
          if q < |t| { assert t[q] == s[q]; }
        }
      }
    }
  }

  /** Positions of the `true` entries of `s`. */
  function TrueSet(s: seq<bool>): set<nat>
  {
    set q: nat | q < |s| && s[q]
  }

  /** Counting `true` entries is the size of the set of their positions. */
  lemma {:induction false} CountTrueIsCardinality(s: seq<bool>)
    ensures CountTrue(s) == |TrueSet(s)|
    decreases |s|
  {
    if |s| > 0 {
      var t := s[..|s| - 1];
      CountTrueIsCardinality(t);
      var last: nat := |s| - 1;
      if s[last] {
        assert TrueSet(s) == TrueSet(t) + {last};
      } else {
        assert TrueSet(s) == TrueSet(t);
      }
    }
  }

  /** The qubits below `nQubits` that some gate uses. */
  function UsedQubits(c: Circuit): set<nat>
  {
    set q: nat | q < c.nQubits && Used(c.gates, q)
  }

  /** The source's `seen` vector, built the way the source builds it: `n`
      entries `false`, then each gate in turn marks its control and its
      target. It marks exactly the qubits some gate uses. */
  function Seen(gates: seq<Gate>, n: nat): (s: seq<bool>)
    requires forall i :: 0 <= i < |gates| ==> gates[i].ctrl < n && gates[i].target < n
    ensures |s| == n
    ensures forall q :: 0 <= q < n ==> (s[q] <==> Used(gates, q))
    decreases |gates|
  {
    if |gates| == 0 then seq(n, q => false)
    else
      var g := gates[|gates| - 1];
      UsedLast(gates);
      Seen(gates[..|gates| - 1], n)[g.ctrl := true][g.target := true]
  }

  /** A qubit is used by a non-empty gate list iff the last gate or one of
      the others acts on it. */
  lemma UsedLast(gates: seq<Gate>)
    requires |gates| > 0
    ensures forall q :: Used(gates, q) <==>
      Used(gates[..|gates| - 1], q) || q in Qubits(gates[|gates| - 1])
  {
    var init := gates[..|gates| - 1];
    forall q | Used(init, q)
      ensures Used(gates, q)
    {
      var i :| 0 <= i < |init| && q in Qubits(init[i]);
      assert gates[i] == init[i];
    }
    forall q | Used(gates, q) && q !in Qubits(gates[|gates| - 1])
      ensures Used(init, q)
    {
      var i :| 0 <= i < |gates| && q in Qubits(gates[i]);
      assert init[i] == gates[i];
    }
  }

  /** The source's `new_idx[q]`: the number of used qubits below `q`. */
  function NewIndex(seen: seq<bool>, q: nat): nat
    requires q <= |seen|
  {
    CountTrue(seen[..q])
  }

  /** Side `false` of a gate is its control, side `true` its target. */
  function End(g: Gate, side: bool): nat
  {
    if side then g.target else g.ctrl
  }

  /** Gate `g` with both of its qubits renamed through `new_idx`. */
  function Relabel(seen: seq<bool>, g: Gate): (r: Gate)
    requires g.ctrl < |seen| && g.target < |seen|
    ensures r.gateType == g.gateType
    ensures forall side :: End(r, side) == NewIndex(seen, End(g, side))
  {
    Gate(g.gateType, NewIndex(seen, g.ctrl), NewIndex(seen, g.target))
  }

  /** The renumbering of used qubits is strictly increasing and lands below
      the number of used qubits. */
  lemma NewIndexOrder(seen: seq<bool>, p: nat, q: nat)
    requires p < |seen| && q < |seen| && seen[p] && seen[q]
    ensures p < q <==> NewIndex(seen, p) < NewIndex(seen, q)
    ensures p == q <==> NewIndex(seen, p) == NewIndex(seen, q)
    ensures NewIndex(seen, p) < CountTrue(seen)
  {
    if p < q {
      CountTrueMonotone(seen, p, q);
    } else if q < p {
      CountTrueMonotone(seen, q, p);
    }
    CountTrueMonotone(seen, p, |seen|);
    assert seen[..|seen|] == seen;
  }

  /** `Circuit::renumber_qubits`. When every qubit below `nQubits` is used it
      reports `false` and changes nothing. Otherwise it reports `true`, keeps
      the gate count, types and stages, and renames qubits so that the
      relative order of any two gate endpoints is unchanged, every index is
      below the new `nQubits`, and every index below it is used. */
  function RenumberQubits(c: Circuit): (r: (Circuit, bool))
    requires Valid(c)
    ensures r.1 <==> exists q :: 0 <= q < c.nQubits && !Used(c.gates, q)
    ensures !r.1 ==> r.0 == c
    ensures r.1 ==> r.0.nQubits == |UsedQubits(c)| < c.nQubits
    ensures Valid(r.0)
    ensures r.0.stages == c.stages && |r.0.gates| == |c.gates|
    ensures forall i :: 0 <= i < |c.gates| ==> r.0.gates[i].gateType == c.gates[i].gateType
    ensures forall i, j, si, sj :: 0 <= i < |c.gates| && 0 <= j < |c.gates| ==>
      (End(r.0.gates[i], si) < End(r.0.gates[j], sj) <==> End(c.gates[i], si) < End(c.gates[j], sj))
    ensures forall i, j, si, sj :: 0 <= i < |c.gates| && 0 <= j < |c.gates| ==>
      (End(r.0.gates[i], si) == End(r.0.gates[j], sj) <==> End(c.gates[i], si) == End(c.gates[j], sj))
    ensures forall q :: 0 <= q < r.0.nQubits ==> Used(r.0.gates, q)
  {
    var seen := Seen(c.gates, c.nQubits);
    CountTrueAll(seen);
    CountTrueIsCardinality(seen);
    assert TrueSet(seen) == UsedQubits(c);
    if forall q :: 0 <= q < |seen| ==> seen[q] then
      (c, false)
    else
      var gates := seq(|c.gates|, i requires 0 <= i < |c.gates| => Relabel(seen, c.gates[i]));
      var r := Circuit(gates, c.stages, CountTrue(seen));
      RenumberKeepsShape(c, seen, r);
      (r, true)
  }

  /** The relabelled circuit satisfies the renumbering promises. */
  lemma RenumberKeepsShape(c: Circuit, seen: seq<bool>, r: Circuit)
    requires Valid(c)
    requires seen == Seen(c.gates, c.nQubits)
    requires r == Circuit(seq(|c.gates|, i requires 0 <= i < |c.gates| => Relabel(seen, c.gates[i])), c.stages, CountTrue(seen))
    ensures Valid(r)
    ensures forall i, j, si, sj :: 0 <= i < |c.gates| && 0 <= j < |c.gates| ==>
      (End(r.gates[i], si) < End(r.gates[j], sj) <==> End(c.gates[i], si) < End(c.gates[j], sj))
    ensures forall i, j, si, sj :: 0 <= i < |c.gates| && 0 <= j < |c.gates| ==>
      (End(r.gates[i], si) == End(r.gates[j], sj) <==> End(c.gates[i], si) == End(c.gates[j], sj))
    ensures forall q :: 0 <= q < r.nQubits ==> Used(r.gates, q)
  {
    EndsSeen(c, seen);
    RelabelValid(c, seen, r);
    RelabelKeepsOrder(c, seen, r);
    RelabelUsesAll(c, seen, r);
  }

  /** Every gate endpoint of a valid circuit is marked in `seen`. */
  lemma EndsSeen(c: Circuit, seen: seq<bool>)
    requires Valid(c) && seen == Seen(c.gates, c.nQubits)
    ensures forall i, side :: 0 <= i < |c.gates| ==> End(c.gates[i], side) < |seen| && seen[End(c.gates[i], side)]
  {
    forall i, side | 0 <= i < |c.gates|
      ensures End(c.gates[i], side) < |seen| && seen[End(c.gates[i], side)]
    {
      assert End(c.gates[i], side) in Qubits(c.gates[i]);
    }
  }

  /** The relabelled gates lie below the new `nQubits`. */
  lemma RelabelValid(c: Circuit, seen: seq<bool>, r: Circuit)
    requires Valid(c) && seen == Seen(c.gates, c.nQubits)
    requires r == Circuit(seq(|c.gates|, i requires 0 <= i < |c.gates| => Relabel(seen, c.gates[i])), c.stages, CountTrue(seen))
    ensures Valid(r)
  {
    EndsSeen(c, seen);
    forall i | 0 <= i < |r.gates|
      ensures r.gates[i].ctrl < r.nQubits && r.gates[i].target < r.nQubits
    {
      NewIndexOrder(seen, c.gates[i].ctrl, c.gates[i].ctrl);
      NewIndexOrder(seen, c.gates[i].target, c.gates[i].target);
      assert End(c.gates[i], false) == c.gates[i].ctrl && End(c.gates[i], true) == c.gates[i].target;
    }
  }

  /** Relabelling keeps the relative order of any two gate endpoints. */
  lemma RelabelKeepsOrder(c: Circuit, seen: seq<bool>, r: Circuit)
    requires Valid(c) && seen == Seen(c.gates, c.nQubits)
    requires r == Circuit(seq(|c.gates|, i requires 0 <= i < |c.gates| => Relabel(seen, c.gates[i])), c.stages, CountTrue(seen))
    ensures forall i, j, si, sj :: 0 <= i < |c.gates| && 0 <= j < |c.gates| ==>
      (End(r.gates[i], si) < End(r.gates[j], sj) <==> End(c.gates[i], si) < End(c.gates[j], sj))
    ensures forall i, j, si, sj :: 0 <= i < |c.gates| && 0 <= j < |c.gates| ==>
      (End(r.gates[i], si) == End(r.gates[j], sj) <==> End(c.gates[i], si) == End(c.gates[j], sj))
  {
    EndsSeen(c, seen);
    forall i, j, si, sj | 0 <= i < |c.gates| && 0 <= j < |c.gates|
      ensures (End(r.gates[i], si) < End(r.gates[j], sj) <==> End(c.gates[i], si) < End(c.gates[j], sj))
      ensures (End(r.gates[i], si) == End(r.gates[j], sj) <==> End(c.gates[i], si) == End(c.gates[j], sj))
    {
      NewIndexOrder(seen, End(c.gates[i], si), End(c.gates[j], sj));
    }
  }

  /** After relabelling, every index below the new `nQubits` is used. */
  lemma RelabelUsesAll(c: Circuit, seen: seq<bool>, r: Circuit)
    requires Valid(c) && seen == Seen(c.gates, c.nQubits)
    requires r == Circuit(seq(|c.gates|, i requires 0 <= i < |c.gates| => Relabel(seen, c.gates[i])), c.stages, CountTrue(seen))
    ensures forall q :: 0 <= q < r.nQubits ==> Used(r.gates, q)
  {
    forall k | 0 <= k < r.nQubits
      ensures Used(r.gates, k)
    {
      CountTrueRank(seen, k);
      var q :| 0 <= q < |seen| && seen[q] && CountTrue(seen[..q]) == k;
      assert Used(c.gates, q);
      var i :| 0 <= i < |c.gates| && q in Qubits(c.gates[i]);
      var side := q == c.gates[i].target;
      assert End(c.gates[i], side) == q;
      assert End(r.gates[i], side) == k;
      assert k in Qubits(r.gates[i]);
    }
  }

  /** Renumbering is idempotent: a renumbered circuit uses every index below
      its `nQubits`, so renumbering it again reports `false`. */
  lemma RenumberIdempotent(c: Circuit)
    requires Valid(c)
    ensures !RenumberQubits(RenumberQubits(c).0).1
    ensures RenumberQubits(RenumberQubits(c).0).0 == RenumberQubits(c).0
  {
  }

  /* The circuit tests of src/circuit.rs. */

  /** One CX on qubits 0 and 1 needs two qubits, and a CZ on the same pair
      adds none. */
  lemma OneGateNeedsTwoQubits()
    ensures NQubits(FromGates([Gate(CX, 0, 1)])) == 2
    ensures NQubits(FromGates([Gate(CX, 0, 1), Gate(CZ, 0, 1)])) == 2
  {
  }

  /** The gates of the renumbering test: qubits 0, 3 and 4 are unused. */
  const Sparse: seq<Gate> := [Gate(CX, 1, 2), Gate(CZ, 2, 5)]

  /** Appending CX(1, 2) and CZ(2, 5) keeps those gates and needs six
      qubits. */
  lemma RenumberExampleCircuit()
    ensures FromGates(Sparse).gates == Sparse
    ensures NQubits(FromGates(Sparse)) == 6
  {
    AppendOnly(Sparse);
  }

  /** That circuit uses exactly qubits 1, 2 and 5. */
  lemma RenumberExampleUsed()
    ensures !Used(FromGates(Sparse).gates, 0)
    ensures UsedQubits(FromGates(Sparse)) == {1, 2, 5}
  {
    RenumberExampleCircuit();
    SparseUsed(FromGates(Sparse));
  }

  /** Any six-qubit circuit with the gates of `Sparse` uses exactly qubits
      1, 2 and 5. */
  lemma SparseUsed(c: Circuit)
    requires c.gates == Sparse && c.nQubits == 6
    ensures !Used(c.gates, 0)
    ensures UsedQubits(c) == {1, 2, 5}
  {
    assert Used(c.gates, 1) && Used(c.gates, 2) && Used(c.gates, 5) by {
      assert 1 in Qubits(c.gates[0]) && 5 in Qubits(c.gates[1]);
    }
    forall q | q in UsedQubits(c)
      ensures q in {1, 2, 5}
    {
      var i :| 0 <= i < |c.gates| && q in Qubits(c.gates[i]);
    }
  }

  /** Renumbering that circuit reports a change and leaves three qubits. */
  lemma RenumberExample()
    ensures NQubits(FromGates(Sparse)) == 6
    ensures RenumberQubits(FromGates(Sparse)).1
    ensures NQubits(RenumberQubits(FromGates(Sparse)).0) == 3
  {
    RenumberExampleCircuit();
    AppendOnly(Sparse);
    RenumberSparse(FromGates(Sparse));
  }

  /** Renumbering any valid six-qubit circuit with the gates of `Sparse`
      reports a change and leaves three qubits. */
  lemma RenumberSparse(c: Circuit)
    requires Valid(c) && c.gates == Sparse && c.nQubits == 6
    ensures RenumberQubits(c).1
    ensures NQubits(RenumberQubits(c).0) == 3
  {
    SparseUsed(c);
    assert |{1, 2, 5}| == 3;
  }

  /** `Circuit::recalculate_stages` under commutation rule `rule`; the
      source is `RecalculateStages(AsWritten, c)`. Gates and `nQubits` are
      kept, the stages are recomputed greedily, and the result reports
      whether the stages differ from the previous ones. The new stages
      partition the gate indices, are qubit-disjoint, respect dependency
      order under `rule`, and are no more numerous than the gates. */
  function RecalculateStages(rule: CommuteRule, c: Circuit): (r: (Circuit, bool))
    ensures r.0.gates == c.gates && r.0.nQubits == c.nQubits
    ensures r.1 <==> r.0.stages != c.stages
    ensures |r.0.stages| <= |c.gates|
    ensures Staging.StagingInvariant(rule, c.gates, r.0.stages, |c.gates|)
    ensures Valid(c) ==> Valid(r.0)
  {
    var stages := Staging.Restage(rule, c.gates, |c.gates|);
    (c.(stages := stages), stages != c.stages)
  }

  /** The as-written rule lets the greedy packing move CZ(1, 2) into a stage
      before CX(0, 1), although X on qubit 1 and Z on qubit 1 do not
      commute; the corrected rule keeps the three gates in three stages in
      program order. */
  lemma RestageRulesDiverge()
    ensures RecalculateStages(AsWritten, FromGates(Diverging)).0.stages == [{0, 2}, {1}]
    ensures !Staging.DependenciesOrdered(Corrected, Diverging, [{0, 2}, {1}])
    ensures RecalculateStages(Corrected, FromGates(Diverging)).0.stages == [{0}, {1}, {2}]
  {
    var gs := Diverging;
    AppendOnlyShape(gs);
    RestageDivergeAsWritten(gs);
    RestageDivergeCorrected(gs);
    DivergingMisordered(gs, [{0, 2}, {1}]);
  }

  /** Gate 2 sits in stage 0 and gate 1 in stage 1, yet gate 1 comes first
      and the two do not commute. */
  lemma DivergingMisordered(gs: seq<Gate>, stages: seq<Staging.Stage>)
    requires gs == Diverging && stages == [{0, 2}, {1}]
    ensures Staging.Bounded(stages, |gs|)
    ensures !Staging.DependenciesOrdered(Corrected, gs, stages)
  {
    assert 1 in stages[1] && 2 in stages[0];
    assert !Commute(Corrected, gs[1], gs[2]) by { assert 1 in Qubits(gs[2]); }
  }

  const Diverging: seq<Gate> := [Gate(CX, 0, 5), Gate(CX, 0, 1), Gate(CZ, 1, 2)]

  /** Under either rule the second gate opens stage 1: it shares qubit 0
      with the first and commutes with it. */
  lemma RestageDivergeTwo(rule: CommuteRule, gs: seq<Gate>) returns (s2: seq<Staging.Stage>)
    requires gs == Diverging
    ensures s2 == Staging.Restage(rule, gs, 2) == [{0}, {1}]
  {
    var s1 := RestageFirst(rule, gs);
    assert !Staging.Fits(gs, s1[0], gs[1]) by { assert 0 in Qubits(gs[0]); }
    assert Staging.CommutesAll(rule, gs, s1[0], gs[1]);
    assert Staging.Scan(rule, gs, s1, gs[1], 0, 1) == 1;
    assert Staging.Choose(rule, gs, s1, gs[1]) == 1;
    s2 := Staging.Restage(rule, gs, 2);
    assert s2 == Staging.Place(s1, 1, 1);
  }

  lemma RestageDivergeAsWritten(gs: seq<Gate>)
    requires gs == Diverging
    ensures Staging.Restage(AsWritten, gs, 3) == [{0, 2}, {1}]
  {
    var s2 := RestageDivergeTwo(AsWritten, gs);
    assert !Staging.Fits(gs, s2[1], gs[2]) by { assert 1 in Qubits(gs[1]); }
    assert Staging.CommutesAll(AsWritten, gs, s2[1], gs[2]);
    assert Staging.Fits(gs, s2[0], gs[2]);
    Staging.FitsCommutes(AsWritten, gs, s2[0], gs[2]);
    assert Staging.Scan(AsWritten, gs, s2, gs[2], 0, 0) == 0;
    assert Staging.Scan(AsWritten, gs, s2, gs[2], 1, 2) == 0;
    assert Staging.Choose(AsWritten, gs, s2, gs[2]) == 0;
    assert Staging.Restage(AsWritten, gs, 3) == Staging.Place(s2, 2, 0);
    assert Staging.Place(s2, 2, 0) == [{0} + {2}, {1}];
    assert {0} + {2} == {0, 2};
  }

  lemma RestageDivergeCorrected(gs: seq<Gate>)
    requires gs == Diverging
    ensures Staging.Restage(Corrected, gs, 3) == [{0}, {1}, {2}]
  {
    var s2 := RestageDivergeTwo(Corrected, gs);
    assert !Staging.Fits(gs, s2[1], gs[2]) by { assert 1 in Qubits(gs[1]); }
    assert !Staging.CommutesAll(Corrected, gs, s2[1], gs[2]) by { assert 1 in s2[1]; }
    assert Staging.Choose(Corrected, gs, s2, gs[2]) == 2;
    assert Staging.Restage(Corrected, gs, 3) == Staging.Place(s2, 2, 2);
  }

  /** Two gates on disjoint qubits, first placed in two stages, share one
      stage after restaging. */
  lemma RestageMergesDisjoint()
    ensures NStages(FromGates([Gate(CX, 0, 1), Gate(CZ, 2, 3)])) == 2
    ensures RecalculateStages(AsWritten, FromGates([Gate(CX, 0, 1), Gate(CZ, 2, 3)])).1
    ensures NStages(RecalculateStages(AsWritten, FromGates([Gate(CX, 0, 1), Gate(CZ, 2, 3)])).0) == 1
  {
    var gs1 := [Gate(CX, 0, 1), Gate(CZ, 2, 3)];
    AppendOnlyShape(gs1);
    Restage1(AsWritten, gs1);
  }

  /** A chain of four dependent `CX` gates, first placed in four stages,
      needs three after restaging. */
  lemma RestageShortensChain()
    ensures NStages(FromGates([Gate(CX, 0, 1), Gate(CX, 1, 2), Gate(CX, 3, 2), Gate(CX, 2, 3)])) == 4
    ensures RecalculateStages(AsWritten, FromGates([Gate(CX, 0, 1), Gate(CX, 1, 2), Gate(CX, 3, 2), Gate(CX, 2, 3)])).1
    ensures NStages(RecalculateStages(AsWritten, FromGates([Gate(CX, 0, 1), Gate(CX, 1, 2), Gate(CX, 3, 2), Gate(CX, 2, 3)])).0) == 3
  {
    var gs2 := [Gate(CX, 0, 1), Gate(CX, 1, 2), Gate(CX, 3, 2), Gate(CX, 2, 3)];
    AppendOnlyShape(gs2);
    Restage2(gs2);
  }

  lemma Restage1(rule: CommuteRule, gs: seq<Gate>)
    requires gs == [Gate(CX, 0, 1), Gate(CZ, 2, 3)]
    ensures Staging.Restage(rule, gs, 2) == [{0, 1}]
  {
    var s1 := RestageFirst(rule, gs);
    assert Staging.Fits(gs, s1[0], gs[1]);
    Staging.FitsCommutes(rule, gs, s1[0], gs[1]);
    assert Staging.Scan(rule, gs, s1, gs[1], 0, 0) == 0;
    assert Staging.Choose(rule, gs, s1, gs[1]) == 0;
    assert Staging.Restage(rule, gs, 2) == Staging.Place(s1, 1, 0);
    assert Staging.Place(s1, 1, 0) == [{0} + {1}];
    assert {0} + {1} == {0, 1};
  }

  /** The first gate always opens stage 0. */
  lemma RestageFirst(rule: CommuteRule, gs: seq<Gate>) returns (s1: seq<Staging.Stage>)
    requires |gs| > 0
    ensures s1 == Staging.Restage(rule, gs, 1) == [{0}]
  {
    assert Staging.Restage(rule, gs, 0) == [];
    assert Staging.Choose(rule, gs, [], gs[0]) == 0;
    s1 := Staging.Restage(rule, gs, 1);
  }

  lemma Restage2(gs: seq<Gate>)
    requires gs == [Gate(CX, 0, 1), Gate(CX, 1, 2), Gate(CX, 3, 2), Gate(CX, 2, 3)]
    ensures Staging.Restage(AsWritten, gs, 4) == [{0, 2}, {1}, {3}]
  {
    var s3 := RestageChainThree(gs);
    assert !Staging.Fits(gs, s3[1], gs[3]) by { assert 2 in Qubits(gs[1]); }
    assert !Staging.CommutesAll(AsWritten, gs, s3[1], gs[3]) by { assert 1 in s3[1]; }
    assert Staging.Choose(AsWritten, gs, s3, gs[3]) == 2;
    assert Staging.Restage(AsWritten, gs, 4) == Staging.Place(s3, 3, 2);
  }

  /** The first three gates of the chain: CX(3, 2) fits beside CX(0, 1). */
  lemma RestageChainThree(gs: seq<Gate>) returns (s3: seq<Staging.Stage>)
    requires gs == [Gate(CX, 0, 1), Gate(CX, 1, 2), Gate(CX, 3, 2), Gate(CX, 2, 3)]
    ensures s3 == Staging.Restage(AsWritten, gs, 3) == [{0, 2}, {1}]
  {
    var s1 := RestageFirst(AsWritten, gs);
    assert !Staging.Fits(gs, s1[0], gs[1]) by { assert 1 in Qubits(gs[0]); }
    assert !Staging.CommutesAll(AsWritten, gs, s1[0], gs[1]) by { assert 0 in s1[0]; }
    assert Staging.Choose(AsWritten, gs, s1, gs[1]) == 1;
    var s2 := Staging.Restage(AsWritten, gs, 2);
    assert s2 == Staging.Place(s1, 1, 1);
    assert s2 == [{0}, {1}];
    assert !Staging.Fits(gs, s2[1], gs[2]) by { assert 2 in Qubits(gs[1]); }
    assert Staging.CommutesAll(AsWritten, gs, s2[1], gs[2]);
    assert Staging.Fits(gs, s2[0], gs[2]);
    Staging.FitsCommutes(AsWritten, gs, s2[0], gs[2]);
    assert Staging.Scan(AsWritten, gs, s2, gs[2], 0, 0) == 0;
    assert Staging.Scan(AsWritten, gs, s2, gs[2], 1, 2) == 0;
    assert Staging.Choose(AsWritten, gs, s2, gs[2]) == 0;
    s3 := Staging.Restage(AsWritten, gs, 3);
    assert s3 == Staging.Place(s2, 2, 0);
    assert Staging.Place(s2, 2, 0) == [{0} + {2}, {1}];
    assert {0} + {2} == {0, 2};
  }
}
