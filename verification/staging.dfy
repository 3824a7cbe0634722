/** The greedy stage packing of `Circuit::recalculate_stages`
    (src/circuit.rs:72-116). Gates are taken in index order; each one is
    pushed back past every stage whose gates all commute with it and lands
    in the lowest qubit-disjoint stage reached, or in a new stage. */
module Staging {
  import opened Gates

  /** A stage is a set of gate indices. */
  type Stage = set<nat>

  /** Every gate index named by `stages` is below `k`. */
  predicate Bounded(stages: seq<Stage>, k: nat)
  {
    forall s, i :: 0 <= s < |stages| && i in stages[s] ==> i < k
  }

  /** The entry `qubits_used[stage][q]` of the source: some gate of the
      stage acts on qubit `q`. */
  predicate QubitUsed(gates: seq<Gate>, stage: Stage, q: nat)
    requires forall i :: i in stage ==> i < |gates|
  {
    exists i :: i in stage && q in Qubits(gates[i])
  }

  /** Gate `g` may join `stage`: neither of its qubits is used there. */
  predicate Fits(gates: seq<Gate>, stage: Stage, g: Gate)
    requires forall i :: i in stage ==> i < |gates|
  {
    !QubitUsed(gates, stage, g.ctrl) && !QubitUsed(gates, stage, g.target)
  }

  /** Every gate of `stage` commutes with `g` (earlier gate first). */
  predicate CommutesAll(rule: CommuteRule, gates: seq<Gate>, stage: Stage, g: Gate)
    requires forall i :: i in stage ==> i < |gates|
  {
    forall i :: i in stage ==> Commute(rule, gates[i], g)
  }

  /** A stage `g` fits into holds only gates parallel with `g`. */
  lemma FitsParallel(gates: seq<Gate>, stage: Stage, g: Gate)
    requires forall i :: i in stage ==> i < |gates|
    ensures Fits(gates, stage, g) ==> forall i :: i in stage ==> ParallelWith(gates[i], g)
  {
    if Fits(gates, stage, g) {
      forall i | i in stage
        ensures ParallelWith(gates[i], g)
      {
        assert g.ctrl !in Qubits(gates[i]) && g.target !in Qubits(gates[i]);
      }
    }
  }

  /** A stage `g` fits into holds only gates parallel with `g`, so all of
      them commute with it. */
  lemma FitsCommutes(rule: CommuteRule, gates: seq<Gate>, stage: Stage, g: Gate)
    requires forall i :: i in stage ==> i < |gates|
    ensures Fits(gates, stage, g) ==> forall i :: i in stage ==> ParallelWith(gates[i], g)
    ensures Fits(gates, stage, g) ==> CommutesAll(rule, gates, stage, g)
  {
    FitsParallel(gates, stage, g);
    if Fits(gates, stage, g) {
      forall i | i in stage
        ensures Commute(rule, gates[i], g)
      {
        ParallelCommutes(rule, gates[i], g);
      }
    }
  }

  /** Some stage above `m` holds a gate that does not commute with `g`, so
      the push-back of `g` stops before reaching `m`. */
  predicate BlockedAbove(rule: CommuteRule, gates: seq<Gate>, stages: seq<Stage>, g: Gate, m: nat)
    requires Bounded(stages, |gates|)
  {
    exists m' :: m < m' < |stages| && !CommutesAll(rule, gates, stages[m'], g)
  }

  /** The inner loop over stages `j-1, j-2, ..., 0` (top down). `best` is the
      lowest stage found so far that `g` fits into (or the number of stages,
      meaning "open a new stage"). The loop stops after the first stage
      holding a gate that does not commute with `g`. The result is the
      lowest stage `g` fits into above every non-commuting stage: every
      fitting stage below it is cut off by a non-commuting stage above. */
  function Scan(rule: CommuteRule, gates: seq<Gate>, stages: seq<Stage>, g: Gate, j: nat, best: nat): (r: nat)
    requires Bounded(stages, |gates|)
    requires j <= best <= |stages|
    requires best == |stages| || Fits(gates, stages[best], g)
    requires forall m :: j <= m < |stages| ==> CommutesAll(rule, gates, stages[m], g)
    requires forall m :: j <= m < best ==> !Fits(gates, stages[m], g)
    ensures r <= |stages|
    ensures r == |stages| || Fits(gates, stages[r], g)
    ensures forall m :: 0 <= m < |stages| && !CommutesAll(rule, gates, stages[m], g) ==> m < r
    ensures forall m :: 0 <= m < r && Fits(gates, stages[m], g) ==> BlockedAbove(rule, gates, stages, g, m)
    decreases j
  {
    if j == 0 then best
    else
      var best' := if Fits(gates, stages[j - 1], g) then j - 1 else best;
      if !CommutesAll(rule, gates, stages[j - 1], g) then
        FitsCommutes(rule, gates, stages[j - 1], g);
        assert forall m :: 0 <= m < j - 1 ==> BlockedAbove(rule, gates, stages, g, m);
        best'
      else
        Scan(rule, gates, stages, g, j - 1, best')
  }

  /** The stage the next gate `g` is placed in: the lowest stage it fits
      into above every stage holding a gate it does not commute with, or a
      new stage when there is none. */
  function Choose(rule: CommuteRule, gates: seq<Gate>, stages: seq<Stage>, g: Gate): (r: nat)
    requires Bounded(stages, |gates|)
    ensures r <= |stages|
    ensures r == |stages| || Fits(gates, stages[r], g)
    ensures forall m :: 0 <= m < |stages| && !CommutesAll(rule, gates, stages[m], g) ==> m < r
    ensures forall m :: 0 <= m < r && Fits(gates, stages[m], g) ==> BlockedAbove(rule, gates, stages, g, m)
  {
    Scan(rule, gates, stages, g, |stages|, |stages|)
  }

  /** Insert gate index `i` into stage `s`, opening a new stage when
      `s == |stages|`. */
  function Place(stages: seq<Stage>, i: nat, s: nat): (r: seq<Stage>)
    requires s <= |stages|
    ensures |r| == if s == |stages| then |stages| + 1 else |stages|
    ensures forall m, j :: 0 <= m < |r| ==>
      (j in r[m] <==> (m < |stages| && j in stages[m]) || (m == s && j == i))
  {
    if s == |stages| then stages + [{i}]
    else stages[s := stages[s] + {i}]
  }

  /** Gate index `i` lies in some stage. */
  predicate Staged(stages: seq<Stage>, i: nat)
  {
    exists s :: 0 <= s < |stages| && i in stages[s]
  }

  /** Each index below `k` lies in exactly one stage, no other index occurs
      and no stage is empty. */
  predicate Partition(stages: seq<Stage>, k: nat)
  {
    && Bounded(stages, k)
    && (forall i :: 0 <= i < k ==> Staged(stages, i))
    && (forall s1, s2, i :: 0 <= s1 < |stages| && 0 <= s2 < |stages| && i in stages[s1] && i in stages[s2] ==> s1 == s2)
    && (forall s :: 0 <= s < |stages| ==> stages[s] != {})
  }

  /** A partition of the indices below `k` has a stage exactly when `k` is
      positive. */
  lemma PartitionSize(stages: seq<Stage>, k: nat)
    ensures Partition(stages, k) ==> (|stages| == 0 <==> k == 0)
  {
    if Partition(stages, k) {
      if k > 0 {
        assert Staged(stages, 0);
      }
      if |stages| > 0 {
        assert stages[0] != {};
        var i :| i in stages[0];
        assert i < k;
      }
    }
  }

  /** No two gates of one stage share a qubit. */
  predicate StagesParallel(gates: seq<Gate>, stages: seq<Stage>)
    requires Bounded(stages, |gates|)
  {
    forall s, a, b :: 0 <= s < |stages| && a in stages[s] && b in stages[s] && a != b ==>
      ParallelWith(gates[a], gates[b])
  }

  /** An earlier gate that does not commute with a later one sits in a
      strictly earlier stage. */
  predicate DependenciesOrdered(rule: CommuteRule, gates: seq<Gate>, stages: seq<Stage>)
    requires Bounded(stages, |gates|)
  {
    forall s1, s2, a, b ::
      (0 <= s1 < |stages| && 0 <= s2 < |stages| && a in stages[s1] && b in stages[s2]
       && a < b && !Commute(rule, gates[a], gates[b])) ==> s1 < s2
  }

  /** Placing gate `k` into any stage keeps the partition property. */
  lemma PlaceKeepsPartition(prev: seq<Stage>, k: nat, s: nat)
    requires s <= |prev|
    requires Partition(prev, k)
    ensures Partition(Place(prev, k, s), k + 1)
  {
    var r := Place(prev, k, s);
    assert Bounded(r, k + 1);
    forall i | 0 <= i < k + 1
      ensures Staged(r, i)
    {
      if i == k {
        assert i in r[s];
      } else {
        assert Staged(prev, i);
        var m :| 0 <= m < |prev| && i in prev[m];
        assert i in r[m];
      }
    }
    forall m | 0 <= m < |r|
      ensures r[m] != {}
    {
      if m == s {
        assert k in r[m];
      } else {
        assert prev[m] != {};
        var i :| i in prev[m];
        assert i in r[m];
      }
    }
  }

  /** Placing gate `k` into a stage it fits (or a new one) keeps stages
      qubit-disjoint. */
  lemma PlaceKeepsParallel(gates: seq<Gate>, prev: seq<Stage>, k: nat, s: nat)
    requires k < |gates|
    requires s <= |prev|
    requires Bounded(prev, k)
    requires s == |prev| || Fits(gates, prev[s], gates[k])
    requires StagesParallel(gates, prev)
    ensures Bounded(Place(prev, k, s), |gates|)
    ensures StagesParallel(gates, Place(prev, k, s))
  {
    var g := gates[k];
    var r := Place(prev, k, s);
    if s < |prev| {
      FitsParallel(gates, prev[s], g);
    }
    forall m, a, b | 0 <= m < |r| && a in r[m] && b in r[m] && a != b
      ensures ParallelWith(gates[a], gates[b])
    {
      if a == k {
        assert b in prev[s];
        ParallelSymmetric(gates[b], g);
      } else if b == k {
        assert a in prev[s];
      } else {
        assert a in prev[m] && b in prev[m];
      }
    }
  }

  /** Placing gate `k` above every stage holding a gate it does not commute
      with keeps dependencies ordered. */
  lemma PlaceKeepsOrder(rule: CommuteRule, gates: seq<Gate>, prev: seq<Stage>, k: nat, s: nat)
    requires k < |gates|
    requires s <= |prev|
    requires Partition(prev, k)
    requires forall m :: 0 <= m < |prev| && !CommutesAll(rule, gates, prev[m], gates[k]) ==> m < s
    requires DependenciesOrdered(rule, gates, prev)
    ensures Bounded(Place(prev, k, s), |gates|)
    ensures DependenciesOrdered(rule, gates, Place(prev, k, s))
  {
    var g := gates[k];
    var r := Place(prev, k, s);
    forall s1, s2, a, b |
      0 <= s1 < |r| && 0 <= s2 < |r| && a in r[s1] && b in r[s2]
      && a < b && !Commute(rule, gates[a], gates[b])
      ensures s1 < s2
    {
      assert a != k && a in prev[s1];
      if b == k {
        assert s2 == s;
        assert !CommutesAll(rule, gates, prev[s1], g);
      } else {
        assert b in prev[s2];
      }
    }
  }

  /** What holds after the first `k` gates have been staged. */
  predicate StagingInvariant(rule: CommuteRule, gates: seq<Gate>, stages: seq<Stage>, k: nat)
  {
    && k <= |gates|
    && |stages| <= k
    && Partition(stages, k)
    && Bounded(stages, |gates|)
    && StagesParallel(gates, stages)
    && DependenciesOrdered(rule, gates, stages)
  }

  /** One iteration of the outer loop, placing gate `k - 1`, keeps every
      stage invariant. */
  lemma PlaceNextKeepsInvariants(rule: CommuteRule, gates: seq<Gate>, prev: seq<Stage>, k: nat)
    requires 0 < k <= |gates|
    requires StagingInvariant(rule, gates, prev, k - 1)
    ensures StagingInvariant(rule, gates, Place(prev, k - 1, Choose(rule, gates, prev, gates[k - 1])), k)
  {
    var s := Choose(rule, gates, prev, gates[k - 1]);
    PlaceKeepsPartition(prev, k - 1, s);
    PlaceKeepsParallel(gates, prev, k - 1, s);
    PlaceKeepsOrder(rule, gates, prev, k - 1, s);
  }

  /** The stages after the first `k` gates have been placed. Each gate index
      below `k` is in exactly one stage, stages are qubit-disjoint, and a
      gate that fails to commute with an earlier gate is staged strictly
      after it. */
  function Restage(rule: CommuteRule, gates: seq<Gate>, k: nat): (r: seq<Stage>)
    requires k <= |gates|
    ensures StagingInvariant(rule, gates, r, k)
  {
    if k == 0 then []
    else
      var prev := Restage(rule, gates, k - 1);
      PlaceNextKeepsInvariants(rule, gates, prev, k);
      Place(prev, k - 1, Choose(rule, gates, prev, gates[k - 1]))
  }

  /** The stage a gate is assigned to. */
  ghost function StageOf(stages: seq<Stage>, k: nat, i: nat): (s: nat)
    requires Partition(stages, k)
    requires i < k
    ensures s < |stages| && i in stages[s]
    ensures forall m :: 0 <= m < |stages| && i in stages[m] ==> m == s
  {
    assert Staged(stages, i);
    var s :| 0 <= s < |stages| && i in stages[s];
    s
  }

  /** Dependency order restated on stage numbers: if gate `a` comes before
      gate `b` and does not commute with it, `a`'s stage is strictly smaller. */
  lemma DependentGatesStagedInOrder(rule: CommuteRule, gates: seq<Gate>, a: nat, b: nat)
    requires a < b < |gates|
    requires !Commute(rule, gates[a], gates[b])
    ensures StageOf(Restage(rule, gates, |gates|), |gates|, a)
          < StageOf(Restage(rule, gates, |gates|), |gates|, b)
  {
  }
}
