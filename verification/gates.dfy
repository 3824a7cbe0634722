/** Two-qubit gates and the rules that decide when two of them may be
    reordered (src/gates.rs). */
module Gates {

  datatype GateType = CX | CZ

  /** A two-qubit gate: its kind, its control qubit and its target qubit. */
  datatype Gate = Gate(gateType: GateType, ctrl: nat, target: nat)

  /** The qubits a gate acts on. */
  function Qubits(g: Gate): set<nat>
  {
    {g.ctrl, g.target}
  }

  /** Two gates are parallel when none of the four control/target indices
      coincide, i.e. when they act on disjoint sets of qubits. */
  function ParallelWith(a: Gate, b: Gate): (r: bool)
    ensures r <==> Qubits(a) !! Qubits(b)
  {
    && a.ctrl != b.ctrl
    && a.ctrl != b.target
    && a.target != b.ctrl
    && a.target != b.target
  }

  /** The commutation rule exactly as the source writes it. For a CX/CZ pair
      it only compares the CX target with the CZ *target*, although a CZ
      gate is symmetric in its two qubits (see `CommutesWithDependsOnCzOrientation`).
      It answers "commute" exactly for the pairs the X/Z reference
      semantics calls independent, and in addition for the pairs where the
      CX target is the CZ control only. */
  function CommutesWith(a: Gate, b: Gate): (r: bool)
    ensures r <==> Independent(a, b) || MisreadsCzControl(a, b) || MisreadsCzControl(b, a)
  {
    if ParallelWith(a, b) then true
    else
      match a.gateType
      case CX =>
        (match b.gateType
         case CX => a.ctrl != b.target && a.target != b.ctrl
         case CZ => a.target != b.target)
      case CZ =>
        (match b.gateType
         case CX => a.target != b.target
         case CZ => true)
  }

  /* Reference semantics of commutation. A CX acts as a Z-type operator on
     its control and an X-type operator on its target; a CZ acts as a Z-type
     operator on both of its qubits. Two such gates commute exactly when no
     qubit carries an X-type action of one gate and a Z-type action of the
     other. */

  /** Qubits on which `g` acts as an X-type operator. */
  function XQubits(g: Gate): set<nat>
  {
    if g.gateType == CX then {g.target} else {}
  }

  /** Qubits on which `g` acts as a Z-type operator. */
  function ZQubits(g: Gate): set<nat>
  {
    if g.gateType == CX then {g.ctrl} else {g.ctrl, g.target}
  }

  /** No qubit carries an X-type action of one gate and a Z-type action of
      the other. */
  predicate Independent(a: Gate, b: Gate)
  {
    XQubits(a) !! ZQubits(b) && ZQubits(a) !! XQubits(b)
  }

  /** `a` is a CX whose target is the control, and not the target, of the
      CZ `b`: the one case the as-written rule gets wrong. */
  predicate MisreadsCzControl(a: Gate, b: Gate)
  {
    a.gateType == CX && b.gateType == CZ && a.target == b.ctrl && a.target != b.target
  }

  /** The commutation rule with the CX/CZ case treating both qubits of the
      CZ alike. It agrees with the X/Z reference semantics on every pair. */
  function Commutes(a: Gate, b: Gate): (r: bool)
    ensures r <==> Independent(a, b)
  {
    if ParallelWith(a, b) then true
    else
      match a.gateType
      case CX =>
        (match b.gateType
         case CX => a.ctrl != b.target && a.target != b.ctrl
         case CZ => a.target !in Qubits(b))
      case CZ =>
        (match b.gateType
         case CX => b.target !in Qubits(a)
         case CZ => true)
  }

  /** Which of the two commutation rules a computation uses. */
  datatype CommuteRule = AsWritten | Corrected

  /** Either rule answers "commute" for every independent pair; only the
      as-written rule also does so for a dependent pair, and then only for a
      CX whose target is the CZ control. */
  function Commute(rule: CommuteRule, a: Gate, b: Gate): (r: bool)
    ensures Independent(a, b) ==> r
    ensures r && !Independent(a, b) ==>
      rule == AsWritten && (MisreadsCzControl(a, b) || MisreadsCzControl(b, a))
  {
    match rule
    case AsWritten => CommutesWith(a, b)
    case Corrected => Commutes(a, b)
  }

  /** Parallelism is symmetric. */
  lemma ParallelSymmetric(a: Gate, b: Gate)
    ensures ParallelWith(a, b) <==> ParallelWith(b, a)
  {
  }

  /** Gates on disjoint qubits commute, under either rule. */
  lemma ParallelCommutes(rule: CommuteRule, a: Gate, b: Gate)
    requires ParallelWith(a, b)
    ensures Commute(rule, a, b) && Commute(rule, b, a)
  {
  }

  /** Any two CZ gates commute, under either rule. */
  lemma CzPairsCommute(rule: CommuteRule, a: Gate, b: Gate)
    requires a.gateType == CZ && b.gateType == CZ
    ensures Commute(rule, a, b)
  {
  }

  /** As written: a CX and a CZ that share a qubit commute iff their targets
      differ, whichever of the two comes first. */
  lemma CxCzCommuteIffTargetsDiffer(a: Gate, b: Gate)
    requires a.gateType != b.gateType
    requires !ParallelWith(a, b)
    ensures CommutesWith(a, b) <==> a.target != b.target
    ensures CommutesWith(b, a) <==> a.target != b.target
  {
  }

  /** As written: two CX gates that share a qubit commute iff neither's
      control is the other's target. */
  lemma CxPairCommuteIff(a: Gate, b: Gate)
    requires a.gateType == CX && b.gateType == CX
    requires !ParallelWith(a, b)
    ensures CommutesWith(a, b) <==> a.ctrl != b.target && b.ctrl != a.target
  {
  }

  /** Both rules are symmetric in their two arguments. */
  lemma CommuteSymmetric(rule: CommuteRule, a: Gate, b: Gate)
    ensures Commute(rule, a, b) <==> Commute(rule, b, a)
  {
  }

  /** The CZ gate with its two qubits named the other way round. */
  function Flip(g: Gate): (r: Gate)
    requires g.gateType == CZ
    ensures r.gateType == CZ && Qubits(r) == Qubits(g)
  {
    Gate(CZ, g.target, g.ctrl)
  }

  /** The as-written rule gives different answers for CZ(1, 2) and CZ(2, 1),
      which denote the same operation, and its answer for CZ(1, 2) disagrees
      with the X/Z reference semantics. */
  lemma CommutesWithDependsOnCzOrientation()
    ensures CommutesWith(Gate(CX, 0, 1), Gate(CZ, 1, 2))
    ensures !CommutesWith(Gate(CX, 0, 1), Flip(Gate(CZ, 1, 2)))
    ensures !(XQubits(Gate(CX, 0, 1)) !! ZQubits(Gate(CZ, 1, 2)))
  {
  }

  /** The corrected rule does not depend on how a CZ names its qubits. */
  lemma CommutesIgnoresCzOrientation(a: Gate, b: Gate)
    requires b.gateType == CZ
    ensures Commutes(a, b) <==> Commutes(a, Flip(b))
    ensures Commutes(b, a) <==> Commutes(Flip(b), a)
  {
  }

  /** The two rules disagree only on a CX/CZ pair in which the CX target is
      the CZ control and not the CZ target; there the source reports
      "commute" and the reference semantics does not. */
  lemma RulesDifferOnlyOnCzControl(a: Gate, b: Gate)
    ensures CommutesWith(a, b) != Commutes(a, b) <==>
      || (a.gateType == CX && b.gateType == CZ && !ParallelWith(a, b)
          && a.target == b.ctrl && a.target != b.target)
      || (a.gateType == CZ && b.gateType == CX && !ParallelWith(a, b)
          && b.target == a.ctrl && b.target != a.target)
  {
  }
}
