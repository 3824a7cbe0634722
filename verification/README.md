# dpqa_rs core in Dafny

dpqa_rs compiles a circuit of two-qubit gates (CX and CZ) into a program for
a dynamically field-programmable qubit array (DPQA). In this device, qubits
sit in fixed SLM traps at grid sites or in movable AOD traps. AOD traps are
organised in columns and rows that slide as rigid groups. A gate runs when
its two qubits share a site. The compiler has four parts, and this project
models each as a Dafny module:

- `Gates` (src/gates.rs) covers gates, qubit-disjointness (`parallel_with`)
  and the commutation rule (`commutes_with`). It holds the rule as written,
  a corrected rule, and an X/Z reference semantics that the corrected rule
  is proved equal to.
- `Staging` and `Circuits` (src/circuit.rs) cover circuit bookkeeping:
  - `new`, `append`, `get_n_qubits` and `get_n_stages`;
  - the order-preserving compaction of qubit indices in `renumber_qubits`;
  - the greedy stage packing of `recalculate_stages`. It is modelled as
    recursion over the gates with an explicit staging invariant (partition,
    qubit-disjoint stages, dependency order).
- `Constraints` (src/variables.rs) states every `constraint_*` family as a
  predicate over a concrete solved assignment. The assignment gives, per
  qubit and stage, a site `(x, y)`, an AOD column and row `(c, r)` and a
  trap kind. It also gives a stage `t` per gate. `Constraints.Valid` is the
  conjunction that `set_constraints` asserts. Lemmas derive the physical
  consequences from it, stated for any two distinct qubits rather than only
  for `q0 < q1`.
- `Synthesis` (src/dpqa.rs:93-168) builds the instruction list from a
  satisfying assignment as a pure function:
  - `Init`s for stage 0;
  - for each later stage, `MoveToSLM` transfers, then column moves, then
    row moves grouped by (from, to);
  - at the end of every stage, a batch of the gates from the cursor whose
    times form the next run equal to the stage.

  It also holds a corrected list: pickups, moves, and only then the
  transfers to SLM traps, and per stage a batch of every gate timed at that
  stage.
- `Replay` gives the instructions an operational meaning: a move carries
  only qubits held by AOD traps. It proves the round trips. The source's
  list reaches the last stage's placements when every moved qubit is, as
  the list conveys it, in an AOD trap. The corrected list reaches the exact
  placements for every satisfying assignment.
- `Dpqa` covers the compiler object:
  - `DPQA::new`, `new_aod` and `set_extra_stages`;
  - the stage count handed to the solver;
  - `solve` after the solver has answered.

  The solver's answer is a parameter, and success holds exactly on a
  satisfiable answer.

## Model

| member | source | states |
|---|---|---|
| Gates.ParallelWith | src/gates.rs:27-32 | two gates are parallel exactly when the sets of qubits they act on are disjoint |
| Gates.ParallelSymmetric | src/gates.rs:27-32 | parallelism does not depend on argument order |
| Gates.ParallelCommutes | src/gates.rs:34-37 | parallel gates commute under both the as-written and the corrected rule, in both argument orders |
| Gates.CzPairsCommute | src/gates.rs:47-49 | any two CZ gates commute, under either rule |
| Gates.CommutesWith | src/gates.rs:34-52 | as written, two gates commute exactly when they share no X/Z clash, or when they are a CX and a CZ whose CX target is the CZ control but not the CZ target |
| Gates.CxCzCommuteIffTargetsDiffer | src/gates.rs:39-50 | as written, a CX and a CZ sharing a qubit commute iff their target qubits differ, whichever comes first |
| Gates.CxPairCommuteIff | src/gates.rs:40-43 | as written, two CX gates sharing a qubit commute iff neither's control is the other's target |
| Gates.CommuteSymmetric | src/gates.rs:34-52 | both commutation rules are symmetric in their arguments |
| Gates.Commutes | src/gates.rs:34-52 | the corrected rule holds exactly when no qubit carries an X-type action of one gate and a Z-type action of the other |
| Gates.Commute | src/gates.rs:34-52 | under either rule, gates without an X/Z clash commute; the only clashing pairs reported to commute are those the as-written rule misreads as CX target on CZ control |
| Gates.CommutesIgnoresCzOrientation | src/gates.rs:44-48 | the corrected rule gives the same answer for CZ(a, b) and CZ(b, a) |
| Gates.CommutesWithDependsOnCzOrientation | src/gates.rs:44 | as written, CX(0, 1) commutes with CZ(1, 2) but not with CZ(2, 1), and the first answer contradicts the X/Z semantics |
| Gates.RulesDifferOnlyOnCzControl | src/gates.rs:44-48 | the two rules disagree exactly on CX/CZ pairs whose CX target is the CZ control but not the CZ target |
| Staging.FitsParallel | src/circuit.rs:81-91 | a stage whose qubits are all free for the gate holds only gates parallel with it |
| Staging.FitsCommutes | src/circuit.rs:81-91 | a stage whose qubits are all free for the gate holds only gates parallel with it, so none of them blocks the push-back |
| Staging.Scan | src/circuit.rs:80-95 | the inner loop returns a stage the gate fits into (or "new stage"), above every stage holding a gate that does not commute with it; every fitting stage below the result is blocked by a non-commuting stage above it, so the result is the lowest reachable one |
| Staging.Choose | src/circuit.rs:77-100 | the chosen stage is qubit-free for the gate or a fresh stage, lies after every stage holding a non-commuting gate, and every lower stage the gate fits into has a non-commuting stage above it |
| Staging.Place | src/circuit.rs:97-103 | inserting gate `i` into stage `s` adds exactly `i` to stage `s` (opening it if new) and changes nothing else |
| Staging.PlaceKeepsPartition | src/circuit.rs:97-103 | placing the next gate keeps every earlier gate index in exactly one non-empty stage and adds the new index |
| Staging.PlaceKeepsParallel | src/circuit.rs:81-103 | placing a gate into a stage whose qubits it does not use keeps all stages qubit-disjoint |
| Staging.PlaceKeepsOrder | src/circuit.rs:80-103 | placing a gate after every stage holding a non-commuting gate keeps dependency order |
| Staging.PlaceNextKeepsInvariants | src/circuit.rs:76-104 | one iteration of the outer loop preserves partition, qubit-disjointness, dependency order and the stage-count bound |
| Staging.Restage | src/circuit.rs:73-104 | after the first `k` gates, the stages partition `0..k`, are qubit-disjoint, order dependent gates, and number at most `k` |
| Staging.DependentGatesStagedInOrder | src/circuit.rs:80-95 | an earlier gate that does not commute with a later one lands in a strictly smaller stage |
| Staging.PartitionSize | src/circuit.rs:118-120 | a partition of the first `k` gates into non-empty stages has no stages exactly when `k` is zero |
| Circuits.New | src/circuit.rs:15-21 | a new circuit is empty and well formed |
| Circuits.NQubits | src/circuit.rs:32-34 | in a well-formed circuit every gate qubit lies below the reported qubit count |
| Circuits.Append | src/circuit.rs:24-29 | the gate is added at the end with a new singleton stage; the qubit count is the least value covering the old count and both gate qubits |
| Circuits.FromGates | src/circuit.rs:24-29 | every circuit built by appends is well formed: every gate qubit is below the qubit count and every stage entry names a gate |
| Circuits.AppendOnlyShape | src/circuit.rs:27-28 | with appends only, the gates are the appended ones and stage `i` is exactly `{i}`, so stage count equals gate count |
| Circuits.AppendOnlyQubits | src/circuit.rs:24-26 | with appends only, the qubit count is zero or one above a qubit some gate uses |
| Circuits.AppendOnly | src/circuit.rs:15-29 | with appends only, the qubit count is the least bound above every used qubit index, and stages are singletons in gate order |
| Circuits.NStages | src/circuit.rs:118-120 | when the stages partition the gates, the stage count is zero exactly for a circuit without gates |
| Circuits.Seen | src/circuit.rs:40-44 | the `seen` vector built gate by gate has one flag per qubit, set exactly for the qubits some gate acts on |
| Circuits.UsedLast | src/circuit.rs:41-44 | a qubit is used by a non-empty gate list iff it is used by all but the last gate or by the last gate |
| Circuits.NewIndexOrder | src/circuit.rs:49-56 | the new index map is strictly increasing and injective on used qubits and lands below the number of used qubits |
| Circuits.RenumberQubits | src/circuit.rs:39-67 | reports `false` and changes nothing iff every qubit below the count is used; otherwise the count becomes the number of used qubits and gate types, stages and relative qubit order are kept, with every new index used |
| Circuits.EndsSeen | src/circuit.rs:40-44 | every gate qubit of a well-formed circuit is marked as seen |
| Circuits.RelabelValid | src/circuit.rs:57-64 | the renumbered circuit is well formed under the new qubit count |
| Circuits.RelabelKeepsOrder | src/circuit.rs:49-61 | renumbering keeps the order and equality of any two gate qubits |
| Circuits.RelabelUsesAll | src/circuit.rs:49-64 | after renumbering, every index below the new count is used by some gate |
| Circuits.RenumberKeepsShape | src/circuit.rs:49-66 | the renumbered circuit is well formed, order-preserving and uses every index |
| Circuits.RenumberIdempotent | src/circuit.rs:39-67 | renumbering a renumbered circuit reports `false` and changes nothing |
| Circuits.RecalculateStages | src/circuit.rs:72-116 | for a given commutation rule (the source's is the as-written one): gates and qubit count are kept; the result is `true` iff the stages changed; the new stages satisfy the staging invariant for that rule and are no more than the gates |
| Circuits.OneGateNeedsTwoQubits | src/circuit.rs:145-158 | appending CX(0, 1), and then CZ(0, 1), gives a 2-qubit circuit |
| Circuits.RenumberExample | src/circuit.rs:160-168 | CX(1, 2), CZ(2, 5) needs 6 qubits; renumbering reports a change and leaves 3 |
| Circuits.RenumberExampleCircuit | src/circuit.rs:161-165 | appending CX(1, 2) and CZ(2, 5) gives these gates and 6 qubits |
| Circuits.RenumberExampleUsed | src/circuit.rs:165-167 | that circuit uses exactly qubits 1, 2 and 5, and not qubit 0 |
| Circuits.SparseUsed | src/circuit.rs:160-167 | any six-qubit circuit with gates CX(1, 2), CZ(2, 5) uses exactly qubits 1, 2 and 5 |
| Circuits.RenumberSparse | src/circuit.rs:160-168 | renumbering any valid six-qubit circuit with those gates reports a change and leaves three qubits |
| Circuits.RestageMergesDisjoint | src/circuit.rs:170-178 | with the as-written rule, CX(0, 1), CZ(2, 3) go from 2 stages to 1, reporting a change |
| Circuits.RestageShortensChain | src/circuit.rs:180-190 | with the as-written rule, CX(0, 1), CX(1, 2), CX(3, 2), CX(2, 3) go from 4 stages to 3, reporting a change |
| Circuits.Restage1 | src/circuit.rs:170-178 | CX(0, 1), CZ(2, 3) restage into the single stage {0, 1} |
| Circuits.RestageFirst | src/circuit.rs:97-103 | the first gate always opens stage 0 |
| Circuits.Restage2 | src/circuit.rs:180-190 | CX(0, 1), CX(1, 2), CX(3, 2), CX(2, 3) restage into {0, 2}, {1}, {3} |
| Circuits.RestageChainThree | src/circuit.rs:180-190 | the first three gates of that chain restage into {0, 2}, {1} |
| Circuits.RestageRulesDiverge | src/circuit.rs:72-116 | for CX(0, 5), CX(0, 1), CZ(1, 2), restaging with the as-written rule gives {0, 2}, {1}, which puts CZ(1, 2) before the CX(0, 1) it does not commute with; the corrected rule gives {0}, {1}, {2} |
| Circuits.DivergingMisordered | src/circuit.rs:80-95 | the stages {0, 2}, {1} of those gates break dependency order under the corrected rule |
| Circuits.RestageDivergeTwo | src/circuit.rs:77-103 | under either rule the first two of those gates restage into {0}, {1} |
| Circuits.RestageDivergeAsWritten | src/circuit.rs:80-103 | the as-written rule lets CZ(1, 2) pass stage 1 and join stage 0 |
| Circuits.RestageDivergeCorrected | src/circuit.rs:80-103 | the corrected rule stops CZ(1, 2) at stage 1, which it cannot join, so it opens stage 2 |
| Constraints.PlacementsInGrid | src/variables.rs:125-141 | under a valid assignment, every site lies in the site grid and every AOD column and row in the AOD grid |
| Constraints.SlmQubitStaysPut | src/variables.rs:148-156 | a qubit held by SLM traps over a span of stages keeps its site across it |
| Constraints.AodQubitKeepsLanes | src/variables.rs:159-166 | a qubit held by AOD traps over a span of stages keeps its AOD column and row across it |
| Constraints.LanesRigidAny | src/variables.rs:168-190 | two AOD qubits sharing a column (row) share their `x` (`y`) at the next stage |
| Constraints.LaneFollowsCoordAny | src/variables.rs:195-216 | two AOD qubits at one stage: a smaller `x` (`y`) means a smaller column (row) |
| Constraints.CoordFollowsLaneAny | src/variables.rs:220-244 | two AOD qubits: a smaller column (row) means an `x` (`y`) no larger at the next stage |
| Constraints.AodQubitsNeverCross | src/variables.rs:195-244 | AOD qubits strictly ordered along an axis stay ordered as long as both remain in AOD traps |
| Constraints.UncrowdedAny | src/variables.rs:269-278 | AOD lanes at least 3 apart force strictly ordered coordinates at the next stage |
| Constraints.UncrowdedAtStartAny | src/variables.rs:260-267 | AOD lanes at least 3 apart force strictly ordered coordinates at stage 0 |
| Constraints.CoincidentNeverBothSlm | src/variables.rs:283-299 | two qubits never share an AOD trap or an SLM site, so qubits sharing a site are never both in SLM traps |
| Constraints.NoSwapAny | src/variables.rs:302-319 | qubits sharing a site at stage `j + 1` both kept their trap kind from `j` |
| Constraints.GateQubitsMeet | src/variables.rs:323-345 | every gate runs at an existing stage, after the gates ordered before it, with its two qubits on one site |
| Constraints.MixedTypesNeverShareStage | src/variables.rs:389-395 | gates of different type never run at the same stage, in either index order |
| Constraints.OnPairIff | src/variables.rs:352-356 | a gate is filed under the pair `(q0, q1)` exactly when it acts on the qubit set `{q0, q1}` |
| Constraints.CoincidentIffGateAt | src/variables.rs:349-386 | two distinct qubits share a site at a stage exactly when a gate on those two qubits runs then |
| Constraints.TwoQubitsOneStage | src/variables.rs:398-414 | with two qubits and one stage, the full rule set reduces to the stage-0 rules for qubits 0 and 1 |
| Constraints.OneGateSolution | src/dpqa.rs:247-254 | the `one_gate` problem (CZ(0, 1), 2 x 1 grid) has a satisfying assignment, so the rules are not contradictory |
| Constraints.GateMayUseTwoAodTraps | src/variables.rs:283-299 | the rules let a gate run on two AOD qubits in different AOD columns at one site |
| Constraints.GridBounds | src/variables.rs:125-141 | every site coordinate lies below the grid size and every AOD column and row below the AOD grid size |
| Constraints.FixedSlm | src/variables.rs:148-156 | a qubit in an SLM trap at two consecutive stages keeps its site |
| Constraints.AodMoveTogether | src/variables.rs:159-190 | a qubit in an AOD trap at two consecutive stages keeps its column and row, and qubits sharing a column (row) share `x` (`y`) at the next stage |
| Constraints.AodOrderFromSlm | src/variables.rs:195-216 | for AOD qubits `q0 < q1` at one stage, a smaller `x` (`y`) means a smaller column (row), in both directions |
| Constraints.SlmOrderFromAod | src/variables.rs:220-244 | for AOD qubits `q0 < q1` over a transition, a smaller column (row) means an `x` (`y`) no larger at the next stage, in both directions |
| Constraints.AodCrowding | src/variables.rs:247-280 | AOD lanes at least 3 apart force strictly ordered coordinates, at stage 0 and at each next stage |
| Constraints.SiteCrowding | src/variables.rs:283-299 | two AOD qubits never share a column and a row, and two SLM qubits never share a site |
| Constraints.NoSwap | src/variables.rs:302-319 | two qubits sharing a site after a transition both kept their trap kind |
| Constraints.TBounds | src/variables.rs:323-332 | each gate time is below the stage count, and an ordered pair of gates runs in strictly increasing time |
| Constraints.EntanglingGates | src/variables.rs:336-345 | the two qubits of a gate share a site at the gate's time |
| Constraints.InteractionExactness | src/variables.rs:349-386 | two distinct qubits share a site at a stage only when a gate on that pair runs then |
| Constraints.GateTypeTiming | src/variables.rs:389-395 | gates run at the same time have the same type |
| Constraints.Valid | src/variables.rs:398-414 | a valid assignment has the problem's dimensions and meets every family above |
| Synthesis.Inits | src/dpqa.rs:102-111 | one `Init` per qubit, in qubit order, carrying its stage-0 site and trap kind |
| Synthesis.Transfers | src/dpqa.rs:113-118 | `MoveToSLM(q)` is listed iff qubit `q` goes from an AOD trap to an SLM trap, in increasing qubit order |
| Synthesis.Keys | src/dpqa.rs:121-130 | the move keys are the distinct (from, to) pairs of qubits that changed coordinate while keeping their lane |
| Synthesis.Group | src/dpqa.rs:121-130 | a key's qubit list holds exactly the movers with that (from, to) pair, in increasing order |
| Synthesis.MovesFor | src/dpqa.rs:131-137 | one move instruction per key, carrying that key's group |
| Synthesis.MovesForAreGroups | src/dpqa.rs:131-155 | every emitted move is the group of one of the keys |
| Synthesis.AxisMovesExact | src/dpqa.rs:120-155 | each column (row) move lists exactly the qubits with that from/to `x` (`y`), different from each other, with unchanged column (row); never empty |
| Synthesis.AxisMovesCover | src/dpqa.rs:120-155 | every mover appears in exactly one move of its axis, and no two moves share a (from, to) pair |
| Synthesis.RunEnd | src/dpqa.rs:159-163 | the reporting loop stops at the first gate from the cursor whose time differs from the stage, or at the end |
| Synthesis.Cursor | src/dpqa.rs:99-163 | the gate cursor never passes the gate count |
| Synthesis.GateReport | src/dpqa.rs:158-166 | a stage reports at most one batch, and a reported batch is never empty |
| Synthesis.Block | src/dpqa.rs:101-167 | a stage's block reports exactly the gates between the cursors at that stage and the next |
| Synthesis.FlattenRuns | src/dpqa.rs:159-163 | the runs of the first `n` stages, joined, are the gates below the cursor at `n` |
| Synthesis.Synthesize | src/dpqa.rs:93-168 | the batches of the list report the gates below the final cursor, in index order, each once |
| Synthesis.SynthesizeReportsGates | src/dpqa.rs:158-166 | every reported gate is timed at an existing stage and reported in the batch of the stage equal to its time |
| Synthesis.ReportedAtItsTime | src/dpqa.rs:160-163 | a reported gate is reported in the stage equal to its time |
| Synthesis.SortedCursor | src/dpqa.rs:160-163 | with non-decreasing times, the cursor at stage `j` separates gates timed before `j` from the rest |
| Synthesis.SortedTimesReportEveryGate | src/dpqa.rs:160-163 | with non-decreasing times below the stage count, every gate is reported exactly once, in order |
| Synthesis.UnsortedTimesDropGate | src/dpqa.rs:158-166 | with times `[1, 0]` over two stages, gate 1 has a valid time yet only gate 0 is ever reported |
| Synthesis.SynthesizeStartsWithInits | src/dpqa.rs:101-111 | the list starts with one `Init` per qubit in qubit order, carrying stage-0 placements; no stages gives an empty list |
| Synthesis.FirstBlockKinds | src/dpqa.rs:101-112 | stage 0 contributes only `Init`s and a gate batch, so no move or transfer precedes stage 1 |
| Synthesis.TransitionTransfers | src/dpqa.rs:112-118 | a later stage's block has no `Init`, and holds `MoveToSLM(q)` iff `q` went from an AOD to an SLM trap on the way to that stage |
| Synthesis.TransitionMoves | src/dpqa.rs:120-155 | in a later stage's block, each move along an axis lists exactly the qubits with its from/to, and each mover is listed |
| Synthesis.BlockMoves | src/dpqa.rs:112-155 | the moves along an axis in a later stage's block are exactly that axis's grouped moves |
| Synthesis.SynthesizeTransfers | src/dpqa.rs:113-118 | over the whole list, `MoveToSLM(q)` appears iff `q` goes from an AOD trap to an SLM trap at some transition |
| Synthesis.TransferIsDrop | src/dpqa.rs:113-118 | a transfer in a stage's block comes from that qubit going from an AOD to an SLM trap on the way to that stage, never in stage 0 |
| Synthesis.DropIsTransfer | src/dpqa.rs:113-118 | each AOD-to-SLM change is listed in the block of the stage it leads to |
| Synthesis.BlockNeverPicksUp | src/dpqa.rs:101-166 | no block of the source's list holds a transfer to an AOD trap |
| Synthesis.SynthesizeNeverPicksUp | src/dpqa.rs:101-168 | the source's list never transfers a qubit from an SLM trap to an AOD trap: its only transfers are `MoveToSLM` |
| Synthesis.SortedCursorEnd | src/dpqa.rs:159-163 | with non-decreasing times all below `n`, the cursor at `n` is past every gate |
| Synthesis.Pickups | src/instruction.rs:24 | `MoveToAOD(q)` is listed iff qubit `q` goes from an SLM trap to an AOD trap, in increasing qubit order |
| Synthesis.CorrectedMovement | src/dpqa.rs:112-155 | the corrected trap instructions of a stage hold no gate batch |
| Synthesis.Timed | src/dpqa.rs:159-163 | the indices below `n` listed for stage `j` are, in increasing order, exactly those of the gates timed at `j` |
| Synthesis.PickAppend | src/dpqa.rs:159-161 | picking from joined index lists joins the picks |
| Synthesis.TimedReport | src/dpqa.rs:158-166 | the corrected batch of a stage is at most one non-empty batch holding exactly the gates timed at that stage, in index order |
| Synthesis.CorrectedBlock | src/dpqa.rs:101-167 | a corrected block reports exactly the gates timed at its stage |
| Synthesis.Order | src/dpqa.rs:158-166 | the stage-by-stage index list holds every gate timed below `n` exactly once, with times never decreasing |
| Synthesis.FlattenTimed | src/dpqa.rs:158-166 | the per-stage gate lists joined are the gates in stage-by-stage order |
| Synthesis.CorrectedSynthesize | src/dpqa.rs:93-168 | the corrected list reports every gate timed at an existing stage exactly once, in the batch of its own stage, whatever the order of the times |
| Synthesis.TimedRange | src/dpqa.rs:159-163 | when the gates timed at `j` form a range, the indices listed for `j` are that range, in order |
| Synthesis.SortedTimedRun | src/dpqa.rs:159-163 | with non-decreasing times, a gate is timed at `j` iff it lies between the cursors at `j` and `j + 1` |
| Synthesis.SortedReportsAgree | src/dpqa.rs:158-166 | with non-decreasing times, the corrected batch of every stage equals the batch the source reports |
| Replay.ApplyPickup | src/instruction.rs:24 | a `MoveToAOD(q)` sets the AOD flag of qubit `q` and changes nothing else |
| Replay.RunBatches | src/dpqa.rs:158-166 | a list of gate batches changes no qubit |
| Replay.AodThroughIff | src/dpqa.rs:102-118 | a qubit is held by AOD traps through stage `j` iff it is in an AOD trap at every stage from 0 to `j` |
| Replay.Conveyed | src/dpqa.rs:102-118 | the flag the source's list conveys for a qubit at stage `j` is set iff the qubit is in an AOD trap at every stage from 0 to `j` |
| Replay.ValidMoversHeld | src/variables.rs:148-156 | under a valid assignment, every qubit that changes a coordinate is in an AOD trap before the transition |
| Replay.RunPickups | src/instruction.rs:24 | executing the pickups sets the AOD flag of exactly the picked-up qubits |
| Replay.ValidMovesKeepLanes | src/variables.rs:148-166 | under a valid assignment, every coordinate change keeps the matching AOD lane, so the source's move test sees it |
| Replay.RunInits | src/dpqa.rs:104-111 | executing the `Init`s sets each qubit's site and trap kind to its stage-0 values |
| Replay.RunOne | src/dpqa.rs:101-167 | executing a one-instruction list applies that instruction |
| Replay.ApplyTransfer | src/dpqa.rs:114-118 | a `MoveToSLM(q)` clears the AOD flag of qubit `q` and changes nothing else |
| Replay.RunTransfers | src/dpqa.rs:114-118 | executing the transfers clears the AOD flag of exactly the transferred qubits |
| Replay.RunMovesFor | src/dpqa.rs:131-137 | executing the moves sets the coordinate of each mover held by an AOD trap to its new value and leaves the other qubits alone |
| Replay.ReplayTransfers | src/dpqa.rs:113-118 | the transfers turn the conveyed AOD flags of stage `j - 1` into those of stage `j` |
| Replay.ReplayColumnMoves | src/dpqa.rs:120-137 | when every column mover is flagged as held by an AOD trap, the column moves bring every `x` from stage `j - 1` to stage `j` |
| Replay.ReplayRowMoves | src/dpqa.rs:139-155 | when every row mover is flagged as held by an AOD trap, the row moves bring every `y` from stage `j - 1` to stage `j` |
| Replay.ReplayTransition | src/dpqa.rs:112-156 | when every mover is conveyed as held by AOD traps, a later stage's trap instructions take the previous stage's conveyed placements to its own |
| Replay.ReplayPickups | src/instruction.rs:24 | the pickups turn the stage `j - 1` flags into "in an AOD trap at `j - 1` or `j`" |
| Replay.ReplayDrops | src/dpqa.rs:113-118 | transfers issued after the moves leave exactly the stage-`j` flags |
| Replay.CorrectedTransition | src/dpqa.rs:112-156 | when every mover is in an AOD trap before the transition, the corrected trap instructions take the exact stage `j - 1` placements to the exact stage `j` placements |
| Replay.ReplayInits | src/dpqa.rs:102-111 | the `Init`s take any state of the right size to the stage-0 placements, which are exact |
| Replay.ReplayBlock | src/dpqa.rs:158-166 | a gate batch does not move any qubit |
| Replay.ReplayCorrectedBlock | src/dpqa.rs:158-166 | the corrected gate batch does not move any qubit |
| Replay.ReplayFirstBlock | src/dpqa.rs:101-111 | stage 0's block takes any state of the right size to the stage-0 placements |
| Replay.ReplayLaterBlock | src/dpqa.rs:112-167 | a later stage's block takes the previous stage's conveyed placements to its own, when its movers are conveyed as held |
| Replay.ReplayStages | src/dpqa.rs:101-167 | when every earlier mover is conveyed as held, replaying the first `n` blocks yields the stage-`n - 1` conveyed placements |
| Replay.AllStages | src/dpqa.rs:101-167 | the blocks of all stages, joined, are the synthesised list |
| Replay.ReplayReachesLastStage | src/dpqa.rs:93-168 | when every mover is conveyed as held by AOD traps, replaying the whole list yields the last stage's sites, with each AOD flag set iff the qubit stayed in AOD traps throughout |
| Replay.AodThroughWithoutPickups | src/dpqa.rs:113-118 | without SLM-to-AOD transfers, the conveyed AOD flag equals the actual one |
| Replay.CorrectedReplayStages | src/dpqa.rs:101-167 | when every earlier mover is held, replaying the first `n` corrected blocks yields the exact stage-`n - 1` placements |
| Replay.CorrectedReplayReachesLastStage | src/dpqa.rs:93-168 | when every mover is held, replaying the corrected list yields the exact last-stage placements |
| Replay.CorrectedAllStages | src/dpqa.rs:101-167 | the corrected blocks of all stages, joined, are the corrected list |
| Replay.PickupNotConveyed | src/dpqa.rs:113-118 | an SLM-to-AOD transfer is not reflected in the source's list, whose replay leaves the qubit in an SLM trap; the corrected list puts it in an AOD trap |
| Replay.PickupStates | src/dpqa.rs:113-118 | the pickup example keeps its lanes and moves nothing; stage 1 as the source conveys it has the AOD flag clear, while the qubit is actually in an AOD trap |
| Replay.ValidTransitionsHeld | src/variables.rs:148-166 | every transition of a satisfying assignment keeps its lanes and moves only qubits in AOD traps |
| Replay.ValidReplay | src/dpqa.rs:93-168 | for every satisfying assignment, the corrected list replays to the exact last-stage placements |
| Replay.ConveyedReplay | src/dpqa.rs:93-168 | for a satisfying assignment whose movers are conveyed as held, the source's list replays to the last stage's conveyed placements |
| Replay.DropAndMoveValid | src/variables.rs:398-414 | one qubit dropped into an SLM trap while its AOD column moves it from `x = 0` to `x = 1` satisfies every rule |
| Replay.DropAndMoveShifts | src/dpqa.rs:120-155 | its transition has one column move of qubit 0 from 0 to 1 and no row move |
| Replay.DropAndMoveFirstBlock | src/dpqa.rs:101-111 | its first block is the `Init` in the AOD trap |
| Replay.DropAndMoveSecondBlock | src/dpqa.rs:112-155 | its second block is the transfer to the SLM trap, then the column move |
| Replay.TwoStages | src/dpqa.rs:101-167 | a two-stage list is the two blocks joined |
| Replay.DropAndMoveList | src/dpqa.rs:101-167 | the source's list for it is `Init` in the AOD trap, `MoveToSLM(0)`, then the column move |
| Replay.DropAndMoveRun | src/dpqa.rs:113-137 | replaying that list leaves the qubit at `x = 0` in an SLM trap |
| Replay.DropAndMoveTarget | src/dpqa.rs:113-137 | the assignment puts the qubit at `x = 1` in an SLM trap at stage 1 |
| Replay.DropThenMoveStrands | src/dpqa.rs:113-155 | a satisfying assignment whose source list strands the qubit at `x = 0`, while the corrected list brings it to `x = 1` |
| Dpqa.NewAod | src/dpqa.rs:64-72 | the given site and AOD grid sizes, no extra stages |
| Dpqa.New | src/dpqa.rs:52-60 | an AOD grid the size of the site grid, no extra stages |
| Dpqa.SetExtraStages | src/dpqa.rs:175-177 | only the extra stage count changes, and it becomes the given value |
| Dpqa.StageCount | src/dpqa.rs:80 | the solver gets at least the extra stages, and more exactly when the circuit has gates |
| Dpqa.ProblemOf | src/dpqa.rs:80-91 | the problem carries the circuit's gates and the stage count, and any assignment of the right size is shaped for it |
| Dpqa.Solve | src/dpqa.rs:93-170 | the result is `Succeeded` exactly on a satisfiable solver answer and `Failed` otherwise |
| Dpqa.AppendedCircuitStages | src/dpqa.rs:80 | for a circuit built by appends, the solver gets one stage per gate plus the extra stages |
| Dpqa.SolveReplays | src/dpqa.rs:93-168 | a satisfying assignment gives `Succeeded`, and when its movers are conveyed as held by AOD traps its instructions replay to the last stage's conveyed placements |
| Dpqa.InitsInGrid | src/dpqa.rs:102-111 | every `Init` of a satisfying assignment names a qubit and a site in the grid |
| Dpqa.AxisMovesInGrid | src/dpqa.rs:120-155 | every move of a satisfying assignment goes between grid coordinates and names existing qubits |
| Dpqa.MovementInGrid | src/dpqa.rs:101-156 | every trap instruction of a stage stays in the grid |
| Dpqa.BlockInGrid | src/dpqa.rs:101-166 | every instruction of a stage's block stays in the grid |
| Dpqa.SolveStaysInGrid | src/dpqa.rs:93-168 | every instruction of a successful result names existing qubits and grid coordinates |
| Dpqa.OneGateCircuit | src/dpqa.rs:249-250 | appending CZ(0, 1) to a new circuit gives one gate, one stage and two qubits |
| Dpqa.OneGateBlock | src/dpqa.rs:247-254 | the `one_gate` stage holds two `Init`s and then the gate batch |
| Dpqa.OneGateSynthesis | src/dpqa.rs:247-254 | the `one_gate` instruction list is those three instructions |
| Dpqa.OneGateSatisfiable | src/dpqa.rs:247-254 | the `one_gate` problem on `DPQA::new(2, 1)` has a satisfying assignment |
| Dpqa.OneGateProblem | src/dpqa.rs:247-254 | `DPQA::new(2, 1)` on the `one_gate` circuit yields a 2 x 1 grid, two qubits, one stage and the gate CZ(0, 1) |
| Dpqa.OneGateSucceeds | src/dpqa.rs:247-254 | for that assignment `solve` succeeds with the `Init`s of qubits 0 (SLM) and 1 (AOD) at site (0, 0) followed by the gate |

## Left out

- The Z3 machinery is not modelled. This covers creating the context,
  solver and variables, the search, reading the model back (`eval` and its
  panics), and the optimisation objectives `minimize_transfers` and
  `prefer_slm`. The solver's answer is a parameter of `Dpqa.Solve`. A
  satisfiable answer is assumed to carry one value per variable
  (`Dpqa.WellShaped`). Feasibility claims of the larger tests, and the
  failing 2 x 2 test, depend on the search and are not stated.
- The ordering pairs `t_order` (`get_gate_ordering`) are an input of the
  constraint problem. `get_n_two_qubit_gates` and `get_gate` are read as
  the gate count and indexing. None of them is defined in src/circuit.rs,
  and src/dpqa.rs builds a `Solver` where `set_constraints` takes an
  `Optimize`. Neither is part of this model.
- Hash-map and hash-set iteration order is not modelled. Move groups are
  emitted in order of their first qubit, and contracts speak only of
  membership. Stages are sets of gate indices, and "stages changed" compares
  them as sets.
- Machine integers are not modelled: `u64` and `usize` are unbounded
  naturals. Overflow of `q + 1` in `append` and of the solver's values is
  not modelled.
- The index panics in `renumber_qubits` and `recalculate_stages` (a gate
  qubit at or above `n_qubits`) cannot happen after `append`. For
  `Circuits.RenumberQubits` this is the `Circuits.Valid` precondition;
  `Circuits.RecalculateStages` needs none.
- `MoveAODCol` and `MoveAODRow` are one constructor, `MoveAod`, with an axis
  field.
- The variant `MoveToAOD` of src/instruction.rs is never produced by
  `solve` (`Synthesis.SynthesizeNeverPicksUp`); only the corrected list
  uses it. That file and src/result.rs
  otherwise duplicate the enums of src/dpqa.rs and are not part of this
  model.
- All `Display` impls and examples/1_circuits.rs are not modelled; they
  only render text.
- Replay.ReplayReachesLastStage: the round trip of the source's list is
  proved only when every moved qubit is conveyed as held by AOD traps
  (`Replay.ConveyedMoves`), because the list transfers before it moves
  and never picks a qubit up (`Replay.DropThenMoveStrands`,
  `Replay.PickupNotConveyed`). Even then it recovers the AOD flags only
  as "in AOD traps throughout".
- Replay.ConveyedReplay: the same condition, for satisfying assignments.
  `Replay.ValidReplay` is the unconditional round trip, for the corrected
  list.
- Dpqa.SolveReplays: states the replay of `solve`'s list only under that
  condition, for the same reason.
- `Circuits.RecalculateStages` and `Staging` take the commutation rule as a
  parameter. The source's behaviour is the as-written rule
  (`Gates.CommutesWith`), and the examples use it.
- The code is followed where it is looser than the hardware description.
  The rules do not force a gate's two qubits into different trap kinds: two
  AOD qubits in different AOD columns may share a site
  (`Constraints.GateMayUseTwoAodTraps`).
- `minimize_transfers` skips its objective when there is exactly one gate,
  not one stage. It is an optimisation objective and is not modelled.

## Findings

| source | as written | input that shows it | evidently intended | confidence | as-written member | corrected member |
|---|---|---|---|---|---|---|
| src/gates.rs:44-48 | for a CX and a CZ that share a qubit, `commutes_with` compares only the CX target with the CZ target | CX(0, 1) and CZ(1, 2) are reported to commute, yet CX(0, 1) and CZ(2, 1) (the same operation) are not; X on qubit 1 meets Z on qubit 1, so they do not commute | a CZ is symmetric in its qubits, so the CX target should be compared with both CZ qubits | high; not executed | Gates.CommutesWithDependsOnCzOrientation, Circuits.RestageRulesDiverge | Gates.Commutes |
| src/dpqa.rs:158-166 | the gate cursor only moves forward, and a stage stops reporting at the first gate whose time differs from the stage | times `[1, 0]` over two stages: stage 0 reports nothing because gate 0 has time 1, stage 1 reports gate 0 and stops at gate 1, so gate 1 is never reported | every gate appears in the batch of the stage equal to its time | medium; not executed | Synthesis.UnsortedTimesDropGate | Synthesis.CorrectedSynthesize, Synthesis.SortedReportsAgree |
| src/dpqa.rs:113-155 | a transition emits the `MoveToSLM` transfers before the AOD moves, and still lists a just-released qubit in the move | one qubit in an AOD trap at site (0, 0) at stage 0 and in an SLM trap at site (1, 0) at stage 1, on a 1 x 2 grid with a 1 x 1 AOD grid: this satisfies every rule, yet the list `Init`, `MoveToSLM(0)`, column move 0 -> 1 leaves the released qubit at `x = 0` | move the AOD lanes first and release qubits into SLM traps afterwards | medium; not executed | Replay.DropThenMoveStrands | Synthesis.CorrectedMovement, Replay.ValidReplay |
