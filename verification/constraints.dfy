/** The hardware rules of the dynamically field-programmable qubit array
    (src/variables.rs:124-414), stated over a concrete assignment instead of
    solver variables. `Valid(p, v)` holds exactly when the values `v` satisfy
    every formula the source asserts for problem `p`. */
module Constraints {
  import opened Gates

  /** Qubit `q` at one stage: grid site (x, y), AOD column and row (c, r),
      and whether it is held by an AOD trap (otherwise by an SLM trap). The
      solver's values are read back as unsigned integers. */
  datatype Trap = Trap(x: nat, y: nat, c: nat, r: nat, aod: bool)

  /** A solved assignment (the source's `DPQAVarsValues`): `at[q][j]` is the
      trap of qubit `q` at stage `j`, `t[g]` the stage gate `g` runs at. */
  datatype Values = Values(at: seq<seq<Trap>>, t: seq<nat>)

  /** The inputs of one constraint system: the site grid (`rows` x `cols`),
      the AOD grid, the number of stages, the gates and the ordering pairs
      `(g0, g1)` that must run in that order. */
  datatype Problem = Problem(
    rows: nat, cols: nat, aodRows: nat, aodCols: nat,
    nStages: nat, nQubits: nat, gates: seq<Gate>, order: seq<(nat, nat)>)

  /** Motion along columns moves `x` and is driven by AOD column `c`;
      motion along rows moves `y` and is driven by AOD row `r`. */
  datatype Axis = Col | Row

  function Coord(tr: Trap, axis: Axis): nat
  {
    match axis
    case Col => tr.x
    case Row => tr.y
  }

  function Lane(tr: Trap, axis: Axis): nat
  {
    match axis
    case Col => tr.c
    case Row => tr.r
  }

  /** `v` has one value per variable the source creates. */
  predicate Dimensions(v: Values, nQubits: nat, nStages: nat, nGates: nat)
  {
    && |v.at| == nQubits
    && (forall q :: 0 <= q < nQubits ==> |v.at[q]| == nStages)
    && |v.t| == nGates
  }

  /** Everything the source indexes exists: values of the right shape, gate
      qubits below `nQubits`, ordering pairs naming gates. */
  predicate Shaped(p: Problem, v: Values)
  {
    && Dimensions(v, p.nQubits, p.nStages, |p.gates|)
    && (forall g :: 0 <= g < |p.gates| ==> p.gates[g].ctrl < p.nQubits && p.gates[g].target < p.nQubits)
    && (forall k :: 0 <= k < |p.order| ==> p.order[k].0 < |p.gates| && p.order[k].1 < |p.gates|)
  }

  predicate Cell(v: Values, q: nat, j: nat)
  {
    q < |v.at| && j < |v.at[q]|
  }

  predicate Step(v: Values, q: nat, j: nat)
  {
    q < |v.at| && j + 1 < |v.at[q]|
  }

  /* constraint_grid_bounds */

  predicate InGrid(p: Problem, tr: Trap)
  {
    tr.x < p.cols && tr.y < p.rows && tr.c < p.aodCols && tr.r < p.aodRows
  }

  predicate GridBounds(p: Problem, v: Values)
    requires Shaped(p, v)
  {
    forall q, j :: 0 <= q < p.nQubits && 0 <= j < p.nStages ==> InGrid(p, v.at[q][j])
  }

  /* constraint_fixed_slm */

  /** A qubit in an SLM trap at stage `j` keeps its site at `j + 1`. */
  predicate SlmHolds(v: Values, q: nat, j: nat)
    requires Step(v, q, j)
  {
    !v.at[q][j].aod ==> v.at[q][j + 1].x == v.at[q][j].x && v.at[q][j + 1].y == v.at[q][j].y
  }

  predicate FixedSlm(p: Problem, v: Values)
    requires Shaped(p, v)
  {
    forall q, j :: 0 <= q < p.nQubits && 0 <= j && j + 1 < p.nStages ==> SlmHolds(v, q, j)
  }

  /* constraint_aod_move_together */

  /** A qubit in an AOD trap at stage `j` keeps its AOD column and row. */
  predicate AodHolds(v: Values, q: nat, j: nat)
    requires Step(v, q, j)
  {
    v.at[q][j].aod ==> v.at[q][j + 1].c == v.at[q][j].c && v.at[q][j + 1].r == v.at[q][j].r
  }

  /** Two AOD qubits sharing a lane at stage `j` share the matching
      coordinate at `j + 1`. */
  predicate LanesRigid(v: Values, q0: nat, q1: nat, j: nat)
    requires Step(v, q0, j) && Step(v, q1, j)
  {
    var a0, a1, b0, b1 := v.at[q0][j], v.at[q1][j], v.at[q0][j + 1], v.at[q1][j + 1];
    a0.aod && a1.aod ==>
      && (a0.c == a1.c ==> b0.x == b1.x)
      && (a0.r == a1.r ==> b0.y == b1.y)
  }

  predicate AodMoveTogether(p: Problem, v: Values)
    requires Shaped(p, v)
  {
    && (forall q, j :: 0 <= q < p.nQubits && 0 <= j && j + 1 < p.nStages ==> AodHolds(v, q, j))
    && (forall q0, q1, j :: 0 <= q0 < q1 < p.nQubits && 0 <= j && j + 1 < p.nStages ==> LanesRigid(v, q0, q1, j))
  }

  /* constraint_aod_order_from_slm */

  /** Along `axis`, a strictly smaller coordinate means a strictly smaller
      lane, in both directions. */
  predicate LaneFollowsCoord(a0: Trap, a1: Trap, axis: Axis)
  {
    && (Coord(a0, axis) < Coord(a1, axis) ==> Lane(a0, axis) < Lane(a1, axis))
    && (Coord(a1, axis) < Coord(a0, axis) ==> Lane(a1, axis) < Lane(a0, axis))
  }

  predicate AodOrderAt(v: Values, q0: nat, q1: nat, j: nat)
    requires Cell(v, q0, j) && Cell(v, q1, j)
  {
    var a0, a1 := v.at[q0][j], v.at[q1][j];
    a0.aod && a1.aod ==> LaneFollowsCoord(a0, a1, Col) && LaneFollowsCoord(a0, a1, Row)
  }

  predicate AodOrderFromSlm(p: Problem, v: Values)
    requires Shaped(p, v)
  {
    forall q0, q1, j :: 0 <= q0 < q1 < p.nQubits && 0 <= j < p.nStages ==> AodOrderAt(v, q0, q1, j)
  }

  /* constraint_slm_order_from_aod */

  /** Along `axis`, a strictly smaller lane at one stage means a coordinate
      no larger at the next, in both directions. */
  predicate CoordFollowsLane(a0: Trap, a1: Trap, b0: Trap, b1: Trap, axis: Axis)
  {
    && (Lane(a0, axis) < Lane(a1, axis) ==> Coord(b0, axis) <= Coord(b1, axis))
    && (Lane(a1, axis) < Lane(a0, axis) ==> Coord(b1, axis) <= Coord(b0, axis))
  }

  predicate SlmOrderStep(v: Values, q0: nat, q1: nat, j: nat)
    requires Step(v, q0, j) && Step(v, q1, j)
  {
    var a0, a1, b0, b1 := v.at[q0][j], v.at[q1][j], v.at[q0][j + 1], v.at[q1][j + 1];
    a0.aod && a1.aod ==> CoordFollowsLane(a0, a1, b0, b1, Col) && CoordFollowsLane(a0, a1, b0, b1, Row)
  }

  predicate SlmOrderFromAod(p: Problem, v: Values)
    requires Shaped(p, v)
  {
    forall q0, q1, j :: 0 <= q0 < q1 < p.nQubits && 0 <= j && j + 1 < p.nStages ==> SlmOrderStep(v, q0, q1, j)
  }

  /* constraint_aod_crowding */

  /** The source's `max_stack`: lanes this far apart cannot share a coordinate. */
  const MaxStack: int := 3

  /** Along `axis`, lanes at least `MaxStack` apart force strictly ordered
      coordinates, in both directions. */
  predicate Uncrowded(a0: Trap, a1: Trap, b0: Trap, b1: Trap, axis: Axis)
  {
    && (Lane(a0, axis) - Lane(a1, axis) >= MaxStack ==> Coord(b0, axis) > Coord(b1, axis))
    && (Lane(a1, axis) - Lane(a0, axis) >= MaxStack ==> Coord(b1, axis) > Coord(b0, axis))
  }

  predicate UncrowdedAtStart(v: Values, q0: nat, q1: nat)
    requires Cell(v, q0, 0) && Cell(v, q1, 0)
  {
    var a0, a1 := v.at[q0][0], v.at[q1][0];
    a0.aod && a1.aod ==> Uncrowded(a0, a1, a0, a1, Col) && Uncrowded(a0, a1, a0, a1, Row)
  }

  predicate UncrowdedStep(v: Values, q0: nat, q1: nat, j: nat)
    requires Step(v, q0, j) && Step(v, q1, j)
  {
    var a0, a1, b0, b1 := v.at[q0][j], v.at[q1][j], v.at[q0][j + 1], v.at[q1][j + 1];
    a0.aod && a1.aod ==> Uncrowded(a0, a1, b0, b1, Col) && Uncrowded(a0, a1, b0, b1, Row)
  }

  predicate AodCrowding(p: Problem, v: Values)
    requires Shaped(p, v)
  {
    && (forall q0, q1 :: 0 <= q0 < q1 < p.nQubits && 0 < p.nStages ==> UncrowdedAtStart(v, q0, q1))
    && (forall q0, q1, j :: 0 <= q0 < q1 < p.nQubits && 0 <= j && j + 1 < p.nStages ==> UncrowdedStep(v, q0, q1, j))
  }

  /* constraint_site_crowding */

  /** Two AOD qubits never share both lanes; two SLM qubits never share a
      site. */
  predicate OneAtomPerTrap(v: Values, q0: nat, q1: nat, j: nat)
    requires Cell(v, q0, j) && Cell(v, q1, j)
  {
    var a0, a1 := v.at[q0][j], v.at[q1][j];
    && (a0.aod && a1.aod ==> a0.c != a1.c || a0.r != a1.r)
    && (!a0.aod && !a1.aod ==> a0.x != a1.x || a0.y != a1.y)
  }

  predicate SiteCrowding(p: Problem, v: Values)
    requires Shaped(p, v)
  {
    forall q0, q1, j :: 0 <= q0 < q1 < p.nQubits && 0 <= j < p.nStages ==> OneAtomPerTrap(v, q0, q1, j)
  }

  /* constraint_no_swap */

  /** Two qubits share a site at stage `j`. */
  predicate Coincident(v: Values, q0: nat, q1: nat, j: nat)
    requires Cell(v, q0, j) && Cell(v, q1, j)
  {
    v.at[q0][j].x == v.at[q1][j].x && v.at[q0][j].y == v.at[q1][j].y
  }

  /** Two qubits sharing a site at `j + 1` both kept their trap kind. */
  predicate NoSwapStep(v: Values, q0: nat, q1: nat, j: nat)
    requires Step(v, q0, j) && Step(v, q1, j)
  {
    Coincident(v, q0, q1, j + 1) ==>
      v.at[q0][j].aod == v.at[q0][j + 1].aod && v.at[q1][j].aod == v.at[q1][j + 1].aod
  }

  predicate NoSwap(p: Problem, v: Values)
    requires Shaped(p, v)
  {
    forall q0, q1, j :: 0 <= q0 < q1 < p.nQubits && 0 <= j && j + 1 < p.nStages ==> NoSwapStep(v, q0, q1, j)
  }

  /* constraint_t_bounds */

  predicate TBounds(p: Problem, v: Values)
    requires Shaped(p, v)
  {
    && (forall g :: 0 <= g < |p.gates| ==> v.t[g] < p.nStages)
    && (forall k :: 0 <= k < |p.order| ==> v.t[p.order[k].0] < v.t[p.order[k].1])
  }

  /* constraint_entangling_gates */

  predicate EntanglingGates(p: Problem, v: Values)
    requires Shaped(p, v)
  {
    forall g, s :: 0 <= g < |p.gates| && 0 <= s < p.nStages && v.t[g] == s ==>
      Coincident(v, p.gates[g].ctrl, p.gates[g].target, s)
  }

  /* constraint_interaction_exactness */

  function Min(a: nat, b: nat): nat { if a < b then a else b }
  function Max(a: nat, b: nat): nat { if a < b then b else a }

  /** Gate `g` is filed under the qubit pair `(q0, q1)` (smaller index first). */
  predicate OnPair(g: Gate, q0: nat, q1: nat)
  {
    Min(g.ctrl, g.target) == q0 && Max(g.ctrl, g.target) == q1
  }

  /** Some gate acts on the pair `(q0, q1)`. */
  predicate Interacting(gates: seq<Gate>, q0: nat, q1: nat)
  {
    exists g :: 0 <= g < |gates| && OnPair(gates[g], q0, q1)
  }

  /** Some gate on the pair `(q0, q1)` runs at stage `s`. */
  predicate GateOnPairAt(p: Problem, v: Values, q0: nat, q1: nat, s: nat)
    requires Shaped(p, v)
  {
    exists g :: 0 <= g < |p.gates| && OnPair(p.gates[g], q0, q1) && v.t[g] == s
  }

  predicate ExactAt(p: Problem, v: Values, q0: nat, q1: nat, s: nat)
    requires Shaped(p, v)
    requires q0 < q1 < p.nQubits && s < p.nStages
  {
    if Interacting(p.gates, q0, q1) then
      Coincident(v, q0, q1, s) ==> GateOnPairAt(p, v, q0, q1, s)
    else
      !Coincident(v, q0, q1, s)
  }

  predicate InteractionExactness(p: Problem, v: Values)
    requires Shaped(p, v)
  {
    forall q0, q1, s :: 0 <= q0 < q1 < p.nQubits && 0 <= s < p.nStages ==> ExactAt(p, v, q0, q1, s)
  }

  /* constraint_gate_type_timing */

  predicate GateTypeTiming(p: Problem, v: Values)
    requires Shaped(p, v)
  {
    forall g0, g1 :: 0 <= g0 < g1 < |p.gates| && p.gates[g0].gateType != p.gates[g1].gateType ==>
      v.t[g0] != v.t[g1]
  }

  /** `set_constraints`: the conjunction of every family above. */
  predicate Valid(p: Problem, v: Values)
  {
    && Shaped(p, v)
    && GridBounds(p, v)
    && FixedSlm(p, v)
    && AodMoveTogether(p, v)
    && SlmOrderFromAod(p, v)
    && AodOrderFromSlm(p, v)
    && AodCrowding(p, v)
    && SiteCrowding(p, v)
    && NoSwap(p, v)
    && TBounds(p, v)
    && EntanglingGates(p, v)
    && InteractionExactness(p, v)
    && GateTypeTiming(p, v)
  }

  /* Consequences of `Valid`. The source asserts most pair rules for
     `q0 < q1` only; the lemmas below state them for any two distinct
     qubits. */

  /** Every placement lies inside the site grid and the AOD grid. */
  lemma PlacementsInGrid(p: Problem, v: Values, q: nat, j: nat)
    requires Valid(p, v) && q < p.nQubits && j < p.nStages
    ensures v.at[q][j].x < p.cols && v.at[q][j].y < p.rows
    ensures v.at[q][j].c < p.aodCols && v.at[q][j].r < p.aodRows
  {
    assert InGrid(p, v.at[q][j]);
  }

  /** A qubit held by SLM traps at every stage from `j` up to (not
      including) `k` is at the same site at `k` as at `j`. */
  lemma {:induction false} SlmQubitStaysPut(p: Problem, v: Values, q: nat, j: nat, k: nat)
    requires Valid(p, v) && q < p.nQubits && j <= k < p.nStages
    requires forall m :: j <= m < k ==> !v.at[q][m].aod
    ensures v.at[q][k].x == v.at[q][j].x && v.at[q][k].y == v.at[q][j].y
    decreases k - j
  {
    if j < k {
      SlmQubitStaysPut(p, v, q, j, k - 1);
      assert SlmHolds(v, q, k - 1);
    }
  }

  /** A qubit held by AOD traps at every stage from `j` up to (not
      including) `k` is in the same AOD column and row at `k` as at `j`. */
  lemma {:induction false} AodQubitKeepsLanes(p: Problem, v: Values, q: nat, j: nat, k: nat)
    requires Valid(p, v) && q < p.nQubits && j <= k < p.nStages
    requires forall m :: j <= m < k ==> v.at[q][m].aod
    ensures v.at[q][k].c == v.at[q][j].c && v.at[q][k].r == v.at[q][j].r
    decreases k - j
  {
    if j < k {
      AodQubitKeepsLanes(p, v, q, j, k - 1);
      assert AodHolds(v, q, k - 1);
    }
  }

  /** Two AOD qubits sharing a lane at `j` share the matching coordinate at
      `j + 1`, whichever has the smaller index. */
  lemma LanesRigidAny(p: Problem, v: Values, q0: nat, q1: nat, j: nat, axis: Axis)
    requires Valid(p, v) && q0 < p.nQubits && q1 < p.nQubits && q0 != q1 && j + 1 < p.nStages
    requires v.at[q0][j].aod && v.at[q1][j].aod
    requires Lane(v.at[q0][j], axis) == Lane(v.at[q1][j], axis)
    ensures Coord(v.at[q0][j + 1], axis) == Coord(v.at[q1][j + 1], axis)
  {
    if q0 < q1 {
      assert LanesRigid(v, q0, q1, j);
    } else {
      assert LanesRigid(v, q1, q0, j);
    }
  }

  /** Two AOD qubits at one stage: a smaller coordinate means a smaller lane. */
  lemma LaneFollowsCoordAny(p: Problem, v: Values, q0: nat, q1: nat, j: nat, axis: Axis)
    requires Valid(p, v) && q0 < p.nQubits && q1 < p.nQubits && q0 != q1 && j < p.nStages
    requires v.at[q0][j].aod && v.at[q1][j].aod
    requires Coord(v.at[q0][j], axis) < Coord(v.at[q1][j], axis)
    ensures Lane(v.at[q0][j], axis) < Lane(v.at[q1][j], axis)
  {
    if q0 < q1 {
      assert AodOrderAt(v, q0, q1, j);
    } else {
      assert AodOrderAt(v, q1, q0, j);
    }
  }

  /** Two AOD qubits at stage `j`: a smaller lane means a coordinate no
      larger at `j + 1`. */
  lemma CoordFollowsLaneAny(p: Problem, v: Values, q0: nat, q1: nat, j: nat, axis: Axis)
    requires Valid(p, v) && q0 < p.nQubits && q1 < p.nQubits && q0 != q1 && j + 1 < p.nStages
    requires v.at[q0][j].aod && v.at[q1][j].aod
    requires Lane(v.at[q0][j], axis) < Lane(v.at[q1][j], axis)
    ensures Coord(v.at[q0][j + 1], axis) <= Coord(v.at[q1][j + 1], axis)
  {
    if q0 < q1 {
      assert SlmOrderStep(v, q0, q1, j);
    } else {
      assert SlmOrderStep(v, q1, q0, j);
    }
  }

  /** AOD qubits never cross: two qubits held by AOD traps from stage `j`
      up to (not including) `k`, strictly ordered along an axis at `j`, are
      ordered the same way (not necessarily strictly) at every later stage
      up to `k`. */
  lemma AodQubitsNeverCross(p: Problem, v: Values, q0: nat, q1: nat, j: nat, k: nat, axis: Axis)
    requires Valid(p, v) && q0 < p.nQubits && q1 < p.nQubits && q0 != q1 && j < k < p.nStages
    requires forall m :: j <= m < k ==> v.at[q0][m].aod && v.at[q1][m].aod
    requires Coord(v.at[q0][j], axis) < Coord(v.at[q1][j], axis)
    ensures forall m :: j < m <= k ==> Coord(v.at[q0][m], axis) <= Coord(v.at[q1][m], axis)
  {
    LaneFollowsCoordAny(p, v, q0, q1, j, axis);
    forall m | j < m <= k
      ensures Coord(v.at[q0][m], axis) <= Coord(v.at[q1][m], axis)
    {
      AodQubitKeepsLanes(p, v, q0, j, m - 1);
      AodQubitKeepsLanes(p, v, q1, j, m - 1);
      CoordFollowsLaneAny(p, v, q0, q1, m - 1, axis);
    }
  }

  /** AOD lanes at least `MaxStack` apart at stage `j` leave the two qubits
      strictly ordered along that axis at `j + 1`, whichever has the smaller
      index; and likewise within stage 0. */
  lemma UncrowdedAny(p: Problem, v: Values, q0: nat, q1: nat, j: nat, axis: Axis)
    requires Valid(p, v) && q0 < p.nQubits && q1 < p.nQubits && q0 != q1 && j + 1 < p.nStages
    requires v.at[q0][j].aod && v.at[q1][j].aod
    requires Lane(v.at[q0][j], axis) - Lane(v.at[q1][j], axis) >= MaxStack
    ensures Coord(v.at[q0][j + 1], axis) > Coord(v.at[q1][j + 1], axis)
  {
    if q0 < q1 {
      assert UncrowdedStep(v, q0, q1, j);
    } else {
      assert UncrowdedStep(v, q1, q0, j);
    }
  }

  lemma UncrowdedAtStartAny(p: Problem, v: Values, q0: nat, q1: nat, axis: Axis)
    requires Valid(p, v) && q0 < p.nQubits && q1 < p.nQubits && q0 != q1 && 0 < p.nStages
    requires v.at[q0][0].aod && v.at[q1][0].aod
    requires Lane(v.at[q0][0], axis) - Lane(v.at[q1][0], axis) >= MaxStack
    ensures Coord(v.at[q0][0], axis) > Coord(v.at[q1][0], axis)
  {
    if q0 < q1 {
      assert UncrowdedAtStart(v, q0, q1);
    } else {
      assert UncrowdedAtStart(v, q1, q0);
    }
  }

  /** Two distinct qubits never occupy the same AOD trap, and never the same
      SLM trap: hence two qubits at one site are never both in SLM traps. */
  lemma CoincidentNeverBothSlm(p: Problem, v: Values, q0: nat, q1: nat, j: nat)
    requires Valid(p, v) && q0 < p.nQubits && q1 < p.nQubits && q0 != q1 && j < p.nStages
    ensures v.at[q0][j].aod && v.at[q1][j].aod ==>
      v.at[q0][j].c != v.at[q1][j].c || v.at[q0][j].r != v.at[q1][j].r
    ensures Coincident(v, q0, q1, j) ==> v.at[q0][j].aod || v.at[q1][j].aod
  {
    if q0 < q1 {
      assert OneAtomPerTrap(v, q0, q1, j);
    } else {
      assert OneAtomPerTrap(v, q1, q0, j);
    }
  }

  /** Two qubits sharing a site at `j + 1` both kept their trap kind from `j`. */
  lemma NoSwapAny(p: Problem, v: Values, q0: nat, q1: nat, j: nat)
    requires Valid(p, v) && q0 < p.nQubits && q1 < p.nQubits && q0 != q1 && j + 1 < p.nStages
    requires Coincident(v, q0, q1, j + 1)
    ensures v.at[q0][j].aod == v.at[q0][j + 1].aod && v.at[q1][j].aod == v.at[q1][j + 1].aod
  {
    if q0 < q1 {
      assert NoSwapStep(v, q0, q1, j);
    } else {
      assert NoSwapStep(v, q1, q0, j);
    }
  }

  /** Every gate runs at a stage that exists, after the gates it is ordered
      after, and at that stage its two qubits share a site. */
  lemma GateQubitsMeet(p: Problem, v: Values, g: nat)
    requires Valid(p, v) && g < |p.gates|
    ensures v.t[g] < p.nStages
    ensures Coincident(v, p.gates[g].ctrl, p.gates[g].target, v.t[g])
    ensures forall k :: 0 <= k < |p.order| && p.order[k].1 == g ==> v.t[p.order[k].0] < v.t[g]
  {
  }

  /** Gates of different types never run at the same stage, whichever comes
      first. */
  lemma MixedTypesNeverShareStage(p: Problem, v: Values, g0: nat, g1: nat)
    requires Valid(p, v) && g0 < |p.gates| && g1 < |p.gates|
    requires p.gates[g0].gateType != p.gates[g1].gateType
    ensures v.t[g0] != v.t[g1]
  {
    if g1 < g0 {
      assert v.t[g1] != v.t[g0];
    }
  }

  /** For `q0 < q1`, a gate is filed under `(q0, q1)` exactly when it acts
      on the qubit set `{q0, q1}`. */
  lemma OnPairIff(g: Gate, q0: nat, q1: nat)
    requires q0 < q1
    ensures OnPair(g, q0, q1) <==> Qubits(g) == {q0, q1}
  {
    if Qubits(g) == {q0, q1} {
      assert g.ctrl in {q0, q1} && g.target in {q0, q1};
      assert q0 in Qubits(g) && q1 in Qubits(g);
    }
  }

  /** Two distinct qubits share a site at stage `s` exactly when some gate
      acting on those two qubits runs at `s`. In particular a pair no gate
      acts on never shares a site. */
  lemma CoincidentIffGateAt(p: Problem, v: Values, q0: nat, q1: nat, s: nat)
    requires Valid(p, v) && q0 < p.nQubits && q1 < p.nQubits && q0 != q1 && s < p.nStages
    ensures Coincident(v, q0, q1, s) <==>
      exists g :: 0 <= g < |p.gates| && Qubits(p.gates[g]) == {q0, q1} && v.t[g] == s
  {
    var lo, hi := Min(q0, q1), Max(q0, q1);
    assert {lo, hi} == {q0, q1};
    assert Coincident(v, q0, q1, s) <==> Coincident(v, lo, hi, s);
    assert ExactAt(p, v, lo, hi, s);
    if Coincident(v, q0, q1, s) {
      assert Interacting(p.gates, lo, hi);
      var g :| 0 <= g < |p.gates| && OnPair(p.gates[g], lo, hi) && v.t[g] == s;
      OnPairIff(p.gates[g], lo, hi);
    }
    if exists g :: 0 <= g < |p.gates| && Qubits(p.gates[g]) == {q0, q1} && v.t[g] == s {
      var g :| 0 <= g < |p.gates| && Qubits(p.gates[g]) == {q0, q1} && v.t[g] == s;
      var gate := p.gates[g];
      assert Coincident(v, gate.ctrl, gate.target, s);
      assert gate.ctrl in {q0, q1} && gate.target in {q0, q1};
      assert q0 in Qubits(gate) && q1 in Qubits(gate);
    }
  }

  /* Concrete assignments. */

  /** With two qubits and one stage, the rules that relate consecutive
      stages hold trivially and every pair rule is about qubits 0 and 1 at
      stage 0. */
  lemma TwoQubitsOneStage(p: Problem, v: Values)
    requires Shaped(p, v) && p.nQubits == 2 && p.nStages == 1
    ensures Valid(p, v) <==>
      && InGrid(p, v.at[0][0]) && InGrid(p, v.at[1][0])
      && AodOrderAt(v, 0, 1, 0) && UncrowdedAtStart(v, 0, 1) && OneAtomPerTrap(v, 0, 1, 0)
      && ExactAt(p, v, 0, 1, 0)
      && TBounds(p, v) && EntanglingGates(p, v) && GateTypeTiming(p, v)
  {
    if InGrid(p, v.at[0][0]) && InGrid(p, v.at[1][0]) {
      assert forall q, j :: 0 <= q < 2 && 0 <= j < 1 ==> InGrid(p, v.at[q][j]) by {
        assert forall q, j :: 0 <= q < 2 && 0 <= j < 1 ==> v.at[q][j] == v.at[q][0];
      }
    }
  }

  /** The `one_gate` scenario: one CZ on qubits 0 and 1, a grid of 2 rows
      and 1 column, one stage. Qubit 0 in an SLM trap and qubit 1 in an AOD
      trap at site (0, 0) satisfy every rule, so the constraints are not
      contradictory. */
  lemma OneGateSolution()
    ensures Valid(
      Problem(2, 1, 2, 1, 1, 2, [Gate(CZ, 0, 1)], []),
      Values([[Trap(0, 0, 0, 0, false)], [Trap(0, 0, 0, 0, true)]], [0]))
  {
    var p := Problem(2, 1, 2, 1, 1, 2, [Gate(CZ, 0, 1)], []);
    var v := Values([[Trap(0, 0, 0, 0, false)], [Trap(0, 0, 0, 0, true)]], [0]);
    TwoQubitsOneStage(p, v);
    assert OnPair(p.gates[0], 0, 1);
    assert ExactAt(p, v, 0, 1, 0);
  }

  /** The rules do not require the two qubits of a gate to be in different
      trap kinds: two AOD qubits in different AOD columns may share a site
      while their gate runs. */
  lemma GateMayUseTwoAodTraps()
    ensures Valid(
      Problem(1, 1, 1, 2, 1, 2, [Gate(CZ, 0, 1)], []),
      Values([[Trap(0, 0, 0, 0, true)], [Trap(0, 0, 1, 0, true)]], [0]))
  {
    var p := Problem(1, 1, 1, 2, 1, 2, [Gate(CZ, 0, 1)], []);
    var v := Values([[Trap(0, 0, 0, 0, true)], [Trap(0, 0, 1, 0, true)]], [0]);
    TwoQubitsOneStage(p, v);
    assert OnPair(p.gates[0], 0, 1);
    assert ExactAt(p, v, 0, 1, 0);
  }
}
