# Verification model of the IMADS core

IMADS is a deterministic, multi-fidelity direct-search optimiser. This project models the decision
core of its Rust crate `imads-core` in Dafny and proves what the crate promises about it:
reproducible batches under any thread interleaving, caches that never change a truth, policies that
change only together with their revision, audits that follow a fixed path, a step loop that ends
without a budget, a near-optimal incumbent, and a mesh that keeps every point it has produced.

## Structure

| file | models |
|---|---|
| `Types.dfy` | the values that flow through the system: fidelities, estimates, results, cache keys |
| `Arithmetic.dfy`, `Sorting.dfy` | facts about integers, reals and stable sorting that the proofs share |
| `Ladder.dfy` | the staircase of fidelities and the paired checkpoints of an audit |
| `Mesh.dfy` | the anisotropic integer mesh: refinement, quantisation, poll points |
| `Halton.dfy`, `Coordinate.dfy` | the low-discrepancy sequence and the coordinate proposals of the search |
| `Estimation.dfy` | one-pass sample statistics and the estimates of one evaluation |
| `Margin.dfy` | cut and pruning rules |
| `Acceptance.dfy` | the epsilon-dominance filter behind the progressive barrier |
| `Calibration.dfy`, `Learning.dfy`, `Calibrator.dfy` | the audit ledger, the learned bias bounds, the calibrator object |
| `Dids.dfy` | the assignment of cut levels |
| `Executor.dfy` | one work item against the two caches, and the sequential executor |
| `Pool.dfy` | the worker pool as a step system |
| `Lifecycle.dfy`, `StepLaws.dfy` | one fidelity step of a candidate as the engine takes it, and the laws every step obeys |
| `Witness.dfy` | concrete steps on which replaying a stored decision and evaluating afresh part |
| `Store.dfy`, `EngineLog.dfy`, `Tracks.dfy`, `Audits.dfy`, `Engine.dfy` | the candidate store, the ghost record of a run, the history of each candidate in it, the audits pending for it, and the run itself |

`dafny verify dfyconfig.toml` checks everything.

## How the source is represented

- Objects that the source updates in place (calibrator, assignment policy, acceptance, mesh geometry,
  caches, Welford accumulators, the engine's run state) are classes with the same fields; their
  methods follow the source's statements and are proved against specification functions. The
  properties are then proved about those functions, or are invariants that the methods keep.
- The engine's locals (`cands`, `index`, `policy_rev`, `assignment`, `x_best`, ...) are the fields of
  `Engine.EngineRun`. Its ghost fields record what happened: `log` has one entry per processed
  outcome, `ops` the operations on the acceptance state, `policies` the policy of every dispatched
  revision, `tracks` the history of every candidate, `polls` the number of polls, `heard` the events
  the calibrator has booked, `start` the decision cache the run began with, `strayed` whether a poll
  point was stored whose step did not fit the mesh. They exist to state properties and influence nothing.
- Floating-point numbers are exact reals, machine integers are mathematical integers; where the source
  saturates at 64 bits (`saturating_add`, float-to-integer casts) the model saturates too.
- Evaluator, cheap gate and audit decision are arbitrary functions of their arguments. `exp`, `ln` and
  `sqrt` are arbitrary functions with the sign and monotonicity facts that the proofs name.
- The environment revision is the pair of environment and base steps, hence injective in both.
- What the scheduler picks and what the search proposes is arbitrary.
- An evaluator reports at least one objective, and does not panic.

## Results in short

- *Pool.* Whatever the interleaving and the number of workers, a finished batch gives every item the
  answer the sequential executor gives it, in submission order, and leaves the same caches, also when
  items share keys. No task is lost or duplicated, every slot is written once, no run is longer than
  `8 n + 2 w + 1` steps (two more per spurious wake-up), and a run that cannot go on has finished.
- *Caches.* At the last level the materialised result is a function of evaluator, point and
  environment. Below it, replaying a decision stored in the run and evaluating the item afresh lead to
  the same verdict if and only if the stored decision is not a partial result that the incumbent and
  the audit flag of the moment make hopeless (`StepLaws.ReplayAgreesIff`): such a replay goes on where
  a fresh step stops (`Witness.ReplayCanMissStop` is an input).
- *Audits.* Between batches an audit is pending with the calibrator exactly for the candidates that are
  under audit and have not ended as a truth; it names their cut, and the estimates kept for it have the
  evaluator's values. Every counter of the ledger is the number of events that count for it, in total and
  per level, and what the assignment takes for evidence are these numbers: a constraint of whose audits at
  a level, if there were enough, more than 1.15 times the target rate turned out feasible may not cut there.
- *Stops.* A step of a run stops its candidate if and only if it is freshly evaluated, no cut is due, the
  pruning gate is open, and even the least objective the estimate allows for does not undercut the best
  objective of that moment less the slack.
- *Iterations.* Every iteration of a run ends by what it did: mesh and barrier move exactly in those that
  polled and found no new best point.
- *Policies.* Two decisions made under one revision were made under identical thresholds and
  assignments. On distinct rungs every cut that the run did not find in its starting cache is
  justified by the policy in force. A cut that an earlier run left there can be stale, because the
  revision starts again at zero (`Witness.StaleCutIsReplayed`): all cuts of a run are justified if and
  only if those it found at the start and replayed are the ones that its own policies make
  (`Engine.EngineRun.AllCutsJustifiedIff`), hence always when the cache starts empty.
- *Candidates.* In every run the decisions about one candidate are at strictly ascending levels, so it
  is executed at most once per rung; a finished candidate never changes; the step loop ends without a
  budget. With pruning off for audits, an audited candidate has been taken exactly along the paired
  checkpoints of its cut and then the last rung, and it ends as a truth after the whole path or as an
  invalid evaluation.
- *Output.* With a zero barrier, the best point exists exactly when a violation-free truth has been
  processed, is feasible, carries the evaluator's own objectives, and is within the objective slack of
  all such truths, although acceptance keeps only the last accepted point and truncates its filter.
- *Mesh.* Which initial multipliers keep all points on all later meshes is decided exactly
  (`Mesh.NestedIff`); `mesh_mul_min * refine_div^k` does, 5 with divisor 2 does not. Under such a
  configuration every stored point is on the mesh throughout a run, unless a poll point was stored
  whose step was saturated to a 64-bit limit that is not a multiple of the mesh size: exactly then the
  poll point is off the mesh. Poll directions positively span the space exactly when no coordinate of
  the centre sits at a 64-bit limit.

## Model

| member | source | states |
|---|---|---|
| Ladder.BuildLadder | imads-core/src/policies/ladder.rs:23-60 | the loop that alternates between the two axes produces the closed-form staircase: the rung at every position, and the length |
| Ladder.LadderEnds | imads-core/src/policies/ladder.rs:23-60 | the staircase runs from the loosest tolerance with the smallest sample to the tightest with the largest |
| Ladder.OneAxisPerStep | imads-core/src/policies/ladder.rs:39-57 | for any levels, neighbouring rungs differ in one axis at most: its level is replaced by the next of its sorted list, towards tighter tolerance or more samples, strictly when no level is repeated |
| Ladder.StaircaseDistinct | imads-core/src/policies/ladder.rs:23-60 | with distinct levels every step refines strictly and no rung repeats |
| Ladder.AxesTakeTurns | imads-core/src/policies/ladder.rs:39-57 | while both axes have levels left, samples and tolerance take turns, samples first; then the longer axis goes on alone |
| Ladder.PairedSpec | imads-core/src/core/engine.rs:336-354 | the paired checkpoints of a cut are exactly the later rungs with equal sample and tighter tolerance, ascending |
| Ladder.PairedIsNextBlock | imads-core/src/core/engine.rs:336-354 | on a strictly refining ladder they are the contiguous block right behind the cut |
| Ladder.FirstAboveSpec | imads-core/src/core/engine.rs:362-378 | the audit target search finds the smallest later checkpoint, or none when all are behind |
| Mesh.AnisotropicMeshGeometry.Refine | imads-core/src/types.rs:231-240 | every multiplier is divided, floored and kept above the minimum; finished ones stay |
| Mesh.AnisotropicMeshGeometry.QuantizeRealToAnisoMesh | imads-core/src/types.rs:280-292 | the loop rounds every coordinate to the nearest multiple of its mesh size |
| Mesh.QuantizedOnMeshWithinHalfCell | imads-core/src/types.rs:280-292 | a quantised coordinate is on the mesh, and within half a cell unless the cell index saturates |
| Mesh.QuantizeIsIdentityOnMesh | imads-core/src/types.rs:269-292 | converting a mesh point to reals and quantising it returns it (round trip) |
| Mesh.NestedIff | imads-core/src/types.rs:231-240 | every later mesh size divides every earlier one for ever, if and only if each division down to the minimum is exact |
| Mesh.NestingCanFail | imads-core/src/types.rs:231-240 | 5 is a mesh point of size 5 and no longer one after the first refinement by 2: such a start loses points |
| Mesh.PowerStartIsNested | imads-core/src/types.rs:231-240 | a start of `mul_min * div^k` keeps all meshes nested |
| Mesh.BuiltGeometryNestedIff | imads-core/src/core/engine.rs:606-627 | the geometry built from a configuration keeps all meshes nested, if and only if its start multiplier divides down exactly (or there is no dimension) |
| Mesh.PowerGeometryIsNested | imads-core/src/core/engine.rs:606-627 | a configured start of minimum times a power of the divisor does, in every dimension |
| Mesh.RefineKeepsMesh | imads-core/src/types.rs:231-240 | refining a nested geometry keeps every mesh point on the mesh |
| Mesh.RefinedIsFloor | imads-core/src/types.rs:231-240 | a refined size is the quotient rounded down, not below the minimum; a size at or below the minimum stays |
| Mesh.HalvesGoAway | imads-core/src/types.rs:280-292 | of two equally near multiples quantisation picks the one farther from zero |
| Mesh.GeneratePointsAniso | imads-core/src/core/poll.rs:41-59 | the loop emits the centre moved up and down each axis, in order, saturating |
| Mesh.PollPair | imads-core/src/core/poll.rs:41-59 | the two poll points of an axis lie one step on either side of the centre along that axis and nowhere else, unless saturated |
| Mesh.PollOnMeshIff | imads-core/src/core/poll.rs:41-59 | a poll point of a mesh point is on the mesh, if and only if its step is not saturated or the 64-bit limit it reaches is a multiple of the mesh size |
| Mesh.SaturationCanLeaveMesh | imads-core/src/core/poll.rs:41-59 | a step up from just below the largest 64-bit number leaves a mesh of size two |
| Mesh.PollPositivelySpansIff | imads-core/src/core/poll.rs:41-59 | every nonzero vector has a poll direction with positive inner product, if and only if no centre coordinate is at a 64-bit limit |
| Halton.Halton | imads-core/src/policies/stratified_search.rs:15-25 | the loop computes the radical inverse of the index |
| Halton.Stratified | imads-core/src/policies/stratified_search.rs:15-25 | among any b^k consecutive indices each of the b^k equal intervals receives exactly one value |
| Halton.FirstIndicesAreGrid | imads-core/src/policies/stratified_search.rs:15-25 | the first b^k indices map one to one onto the multiples of b^-k below one: each multiple is hit by exactly one index, the one with its digits reversed, and no other value occurs |
| Coordinate.PartialShuffle | imads-core/src/policies/stratified_search.rs:100-105 | the in-place swaps of the partial Fisher-Yates shuffle equal their specification |
| Coordinate.ShuffleKeepsDistinct | imads-core/src/policies/stratified_search.rs:100-105 | the shuffle picks pairwise different elements |
| Coordinate.ShuffleReachesAll | imads-core/src/policies/stratified_search.rs:100-105 | every ordered choice of distinct elements is the outcome of some draws |
| Coordinate.ProposeCoordinate | imads-core/src/policies/stratified_search.rs:90-113 | exactly the chosen dimensions move, each once, by one to four steps in a drawn direction |
| Coordinate.MoveRange | imads-core/src/policies/stratified_search.rs:106-113 | a move is one to four steps up or down, and all of these occur |
| Estimation.Welford.Push | imads-core/src/core/executor.rs:555-561 | the running mean and squared deviation stay those of all samples pushed |
| Estimation.Welford.RefinesTwoPass | imads-core/src/core/executor.rs:548-569 | the one-pass mean is sum over count, and the accumulator is the (non-negative) sum of squared deviations from it |
| Estimation.StdErrNonNegative | imads-core/src/core/executor.rs:562-569 | standard errors are never negative |
| Estimation.ComputeEstimates | imads-core/src/core/executor.rs:540-633 | the sampling loop yields mean plus bias and standard error of every column, or nothing when a value is not finite |
| Estimation.ObjectiveMeans | imads-core/src/core/executor.rs:540-633 | an objective estimate less its bias, times n, is the sum of the evaluator's n samples, and its squared standard error times n (n - 1) their squared deviation |
| Estimation.ConstraintMeans | imads-core/src/core/executor.rs:540-633 | the same of a constraint; one missing from a sample counts as zero |
| Margin.EarlyInfeasibleSpec | imads-core/src/policies/margin.rs:84-95 | the named constraint is the first that satisfies the margin inequality; none is named exactly when none does |
| Margin.ExceedsIff | imads-core/src/policies/margin.rs:84-95 | the margin inequality: the estimate exceeds the slack by more than 1.645 standard errors and the learned bound times the tolerance |
| Margin.BoundOfFidelity | imads-core/src/policies/margin.rs:14-30 | the learned bound of the fidelity goes before the global one |
| Margin.CutsAreConservative | imads-core/src/policies/margin.rs:84-95 | under non-negative thresholds a cut never names a satisfied estimate, and any value within the error allowance violates the constraint |
| Margin.BoundsBracket | imads-core/src/policies/margin.rs:97-106 | the objective bounds bracket the estimate |
| Margin.ObjectiveAllowances | imads-core/src/policies/margin.rs:97-106 | 1.282 standard errors below, 1.645 above, and the learned bound on both sides |
| Margin.PruningGateCountsSizes | imads-core/src/core/engine.rs:443-485 | pruning is allowed exactly when enough distinct sample sizes, levels and no protected audit say so |
| Acceptance.DefaultAcceptance.FilterInsert | imads-core/src/core/acceptance.rs:90-108 | a point is let in exactly when nothing stored dominates it; what it dominates leaves, and the filter is truncated to the cap |
| Acceptance.DominanceMeans | imads-core/src/core/acceptance.rs:77-88 | dominance with slacks: objective and violation play the same part, each with its own slack, and no two points dominate each other |
| Acceptance.TruncationKeepsBest | imads-core/src/core/acceptance.rs:99-108 | truncation keeps the points of least violation, then of least objective |
| Acceptance.DefaultAcceptance.DecideTruth | imads-core/src/core/acceptance.rs:186-215 | barrier test, incumbent bookkeeping and filter insertion as one transition |
| Acceptance.FeasibleOnRecord | imads-core/src/core/acceptance.rs:186-215 | over every run the feasible objective on record is the least of the violation-free results that passed the barrier |
| Acceptance.DefaultAcceptance.OnIterationEnd | imads-core/src/core/acceptance.rs:217-221 | the barrier tightens exactly after a failed poll |
| Acceptance.BarrierMonotone | imads-core/src/core/acceptance.rs:53-69 | over every run the barrier never rises and stays above its floor |
| Acceptance.BarrierAfterFailures | imads-core/src/core/acceptance.rs:53-69 | over every run the barrier is its start times the shrink factor to the number of failed polls, not below its floor |
| Acceptance.FilterStaysNonDominated | imads-core/src/core/acceptance.rs:77-108 | for any slacks, in every run no stored point dominates another, and the cap holds |
| Acceptance.FilterIsParetoFront | imads-core/src/core/acceptance.rs:77-108 | with zero slacks and no truncation the filter is exactly the non-dominated multiset of all results that passed the barrier |
| Acceptance.LastAcceptedNearOptimal | imads-core/src/core/acceptance.rs:186-215 | with h0 = h_min = 0 the last accepted objective exists exactly when a violation-free result was seen, and is within eps_f of the best of them |
| Acceptance.OnlyZeroBarrierKeepsViolationsOut | imads-core/src/core/acceptance.rs:186-215 | no run ever accepts a violating point if and only if h0 and h_min are not positive; otherwise a first result at the barrier is accepted |
| Calibration.AuditAccounting | imads-core/src/policies/calibrator.rs:669-708 | for every event sequence and constraint, cuts = audits + pending audits, and the per-level counters add up to the totals |
| Calibration.LedgerCounts | imads-core/src/policies/calibrator.rs:1018-1100 | over every event sequence cuts, audits, false alarms and confirmations of a constraint, in total and per level, grow by the number of events that open an audit of it, close one, close one feasibly, and close one in violation of it |
| Calibration.EventDecidesPending | imads-core/src/policies/calibrator.rs:669-708 | with one event per candidate, that event alone decides which audit is pending for it and with which estimates |
| Calibration.AuditOutcomesDisjoint | imads-core/src/policies/calibrator.rs:1018-1100 | with honest feasibility flags, false alarms and confirmations never exceed the audits |
| Calibration.AppendKeepsLevelOrder | imads-core/src/policies/calibrator.rs:654-667 | paired samples stay one per level in strictly ascending order, and the new one is stored |
| Learning.EmaWithinBounds | imads-core/src/policies/calibrator.rs:642-652 | a smoothed quantile stays between zero and any bound on its samples |
| Learning.EmaMovesShare | imads-core/src/policies/calibrator.rs:642-652 | with enough samples a bound moves the share eta of the way to their quantile |
| Learning.NoticeableMoves | imads-core/src/policies/calibrator.rs:642-652 | a bound changes only to its smoothed quantile, and only by more than 1e-15 |
| Learning.DropsCover | imads-core/src/policies/calibrator.rs:727-776 | a registered drop is the least bound that reaches from the loose estimate down to the tight one |
| Learning.WindowKeepsLatest | imads-core/src/policies/calibrator.rs:613-622 | a window keeps its latest samples up to its capacity |
| Learning.BoundsLearnFromOwnStreams | imads-core/src/policies/calibrator.rs:831-956 | the bounds of a fidelity and of an interval learn from their own streams |
| Learning.QuantileIsOrderStatistic | imads-core/src/policies/calibrator.rs:631-640 | the quantile of a non-empty window is its sample of the requested rank: at most that many lie below it, more than that many do not exceed it |
| Learning.RankIsNearest | imads-core/src/policies/calibrator.rs:631-640 | the rank of the quantile is the one nearest to its share |
| Learning.ComparedKeepsWindows | imads-core/src/policies/calibrator.rs:727-776 | registering a comparison keeps all windows within capacity, non-negative and below the largest sample |
| Calibrator.DeltaMovesTowardsTarget | imads-core/src/policies/calibrator.rs:582-611 | the slack stays within its limits, grows exactly when enough audits show a rate (false alarms + 1) / (audits + 2) above the target and shrinks exactly when they show one below a third of it, if there is room and the step is not negligible |
| Calibrator.DeltaKCalibrator.NoteAuditCheckpoint | imads-core/src/policies/calibrator.rs:669-708 | a first checkpoint opens an audit and counts the cut, later ones update it |
| Calibrator.DeltaKCalibrator.RegisterIntervalSample | imads-core/src/policies/calibrator.rs:727-776 | a looser and a tighter checkpoint are compared per objective, constraint, fidelity and interval: the windows are exactly the taught ones, and the largest sample is the larger of the old one and those of the comparison |
| Calibrator.PairTeaches | imads-core/src/policies/calibrator.rs:727-776 | a pair of checkpoints teaches the drop per unit of tolerance to the global streams, those of the loose fidelity and those of the interval, and no others |
| Calibrator.CutToTruthTeaches | imads-core/src/policies/calibrator.rs:778-810 | an audit without checkpoints teaches the drop from the cut to the truth to the global streams and those of the fidelity of the cut |
| Calibrator.DeltaKCalibrator.TakeEvent | imads-core/src/policies/calibrator.rs:1021-1100 | one event moves the ledger as booked, teaches the windows exactly the comparisons of the audit it closes, and makes the largest sample the larger of the old one and theirs |
| Calibrator.DeltaKCalibrator.UpdateDelta | imads-core/src/policies/calibrator.rs:582-611 | every slack takes its next value; reporting no change means no slack moved |
| Calibrator.DeltaKCalibrator.UpdateGlobalK | imads-core/src/policies/calibrator.rs:812-829 | global bounds take their next values within range; no change reported means none made |
| Calibrator.DeltaKCalibrator.UpdatePhiBucketK | imads-core/src/policies/calibrator.rs:898-956 | the bounds of every known fidelity are rebuilt in order and within range; no change reported means none made |
| Calibrator.DeltaKCalibrator.UpdateIntervalK | imads-core/src/policies/calibrator.rs:831-896 | the bounds of every known interval are rebuilt in order and within range; a change is reported exactly when some bound moves |
| Calibrator.DeltaKCalibrator.Update | imads-core/src/policies/calibrator.rs:1018-1123 | any events keep ledger, windows, bounds and slacks in order; windows and largest sample are exactly those the events teach, every bound and slack takes its next value, the revision moves by at most one, and when it does not the published thresholds are unchanged |
| Calibrator.DeltaKCalibrator.PolicyNonNegative | imads-core/src/policies/calibrator.rs:582-652 | with a non-negative slack limit nothing published is ever negative |
| Dids.WeightedQuantile | imads-core/src/policies/dids.rs:79-98 | the accumulator loop over sorted levels equals its specification |
| Dids.QuantileSpec | imads-core/src/policies/dids.rs:79-98 | the quantile is a recorded level whose cumulative weight reaches the target (within 1e-12) while the levels strictly below do not |
| Dids.QuantileOfPermutation | imads-core/src/policies/dids.rs:79-98 | the quantile depends on the weighted levels only as a multiset |
| Dids.BaseLevelOfHistory | imads-core/src/policies/dids.rs:116-160 | for every history the base level is one on thin evidence and otherwise the lowest level that the recency-weighted cuts bring to the quantile, with a lowest level of one asking for more evidence |
| Dids.CutPositionsAre | imads-core/src/policies/dids.rs:124-133 | the records that enter a constraint's list are exactly the cuts that name it, in the order of the history |
| Dids.CutLevelsAre | imads-core/src/policies/dids.rs:116-150 | exactly the cuts of a constraint enter its list, oldest first, each with its level and the weight of the number of records since |
| Dids.WeightHalves | imads-core/src/policies/dids.rs:60-70 | a record that is a half-life older weighs half as much |
| Dids.EqualWeightsCount | imads-core/src/policies/dids.rs:60-78 | cuts of equal weight count one each in the effective sample size |
| Dids.EffectiveSampleSizeBound | imads-core/src/policies/dids.rs:60-78 | the effective sample size never exceeds the number of cuts |
| Dids.WilsonSpec | imads-core/src/policies/dids.rs:100-115 | both ends of the interval solve the score equation n (p - r)^2 = 1.96^2 r (1 - r), lie in the unit interval and enclose the observed proportion p |
| Dids.DefaultDids.ComputeAssignment | imads-core/src/policies/dids.rs:116-271 | the three passes compute every constraint's level, between 1 and the ladder length |
| Dids.AlarmForbidsCut | imads-core/src/policies/dids.rs:180-240 | when the audits of a level raise an alarm, the constraint may not cut at that level or below |
| Dids.BadRateForbidsCut | imads-core/src/policies/dids.rs:165-205 | with enough audits, an observed false rate above 1.15 times the target, or a rate of confirmations below 0.55, keeps the constraint from cutting at that level or below |
| Dids.FalseAlarmsForbidCut | imads-core/src/policies/dids.rs:165-205 | the same from the events: counted truths that closed audits of the constraint at the level, and those of them that were feasible |
| Dids.RelaxedOnlyOnGoodRates | imads-core/src/policies/dids.rs:207-240 | a level is relaxed, by one, only where the false rates below and overall are below 0.60 and 0.75 of the target and most audits were confirmed |
| Dids.BumpsAreDoublings | imads-core/src/policies/dids.rs:245-264 | a slack beyond 1.25 baselines raises the level by the number of doublings of the baseline it takes to reach it |
| Dids.NoEvidenceNoRaise | imads-core/src/policies/dids.rs:116-271 | with thin evidence, no audits and no grown slack, the level is the first |
| Dids.DefaultDids.Record | imads-core/src/policies/dids.rs:283-304 | the history keeps the most recent records, tagged by outcome |
| Dids.TagNamesCut | imads-core/src/policies/dids.rs:284-292 | the tag of a record is that of a cut of a constraint exactly for an early cut that names it |
| Dids.HistoryKeepsLatest | imads-core/src/policies/dids.rs:300-303 | the kept history is the newest part of the whole, as long as its cap allows, and ends with the new record |
| Dids.DefaultDids.UpdateAssignment | imads-core/src/policies/dids.rs:306-337 | the assignment is recomputed, and a change is reported exactly when it differs |
| Dids.SmallestPositive | imads-core/src/policies/dids.rs:306-337 | the baseline candidate is the smallest positive slack, if there is one |
| Executor.ComputedEstimatesOk | imads-core/src/core/executor.rs:571-633 | computed estimates have one standard error per value, none negative, and carry their fidelity |
| Executor.ExecuteOne | imads-core/src/core/executor.rs:433-538 | an item gets the stored decision or what its evaluation yields; the hit flags say which; the caches gain exactly its contribution and stay coherent |
| Executor.GainIsInvisible | imads-core/src/core/executor.rs:444-527 | entries that other items of the batch add never change an item's answer |
| Executor.InlineRunBatch | imads-core/src/core/executor.rs:134-139 | one right answer per item in order, and the order-independent final caches |
| Pool.StepKeepsPlaces | imads-core/src/core/executor.rs:364-431 | no step loses or duplicates a task among queue, rings, workers and counted ones |
| Pool.WritesOnce | imads-core/src/core/executor.rs:418-422 | a worker about to write finds its slot empty |
| Pool.NextKeepsInv | imads-core/src/core/executor.rs:260-299 | every step of a worker, of the wake-up and every spurious wake-up keeps conservation, write-once slots, right answers, exact caches and idle sleepers |
| Pool.ProgressDecreases | imads-core/src/core/executor.rs:364-431 | every step of a worker and the wake-up use up work |
| Pool.SomeWorkerEnabled | imads-core/src/core/executor.rs:364-431 | after the wake-up some worker can move until all tasks are counted |
| Pool.RunsAreShort | imads-core/src/core/executor.rs:244-301 | no run exceeds 8 n + 2 w + 1 steps, plus two for every spurious wake-up of a worker |
| Pool.StuckMeansDone | imads-core/src/core/executor.rs:364-431 | a run with no step left has counted every task |
| Pool.BarrierIsSafe | imads-core/src/core/executor.rs:283-299 | once the counter reaches n every slot is filled, no write or task is pending, and the caches are final |
| Pool.PoolRefinesInline | imads-core/src/core/executor.rs:244-301 | a finished batch of any interleaving equals the sequential executor's answers in submission order and leaves the same caches |
| Lifecycle.ViolationSpec | imads-core/src/core/engine.rs:1469-1470 | the violation is never negative, zero exactly for feasible values, and otherwise the largest constraint value |
| Lifecycle.TransitionMeans | imads-core/src/core/engine.rs:1502-1544 | only status and next level move; the candidate stays ready exactly when its result lets it go on, strictly higher below the last level, skipping no checkpoint of its audit and no level without one; every other result ends it in the status of its own kind |
| Lifecycle.MaterializeCached | imads-core/src/core/engine.rs:1093-1225 | the cached path moves candidate and job by the same transition as a fresh step with that verdict, and stores nothing |
| Lifecycle.MaterializePartial | imads-core/src/core/engine.rs:1304-1463 | cut, audit, stop or continue as the verdict says (`StepLaws.StopsIff` and `StepLaws.AuditStarts` say when), with the job and the candidate each implies |
| Lifecycle.MaterializeJobResult | imads-core/src/core/engine.rs:1071-1500 | the whole step: verdict, result, candidate, job and what is stored under which key |
| StepLaws.VerdictCases | imads-core/src/core/engine.rs:1094-1465 | a step ends as invalid, cheaply rejected or final exactly when evaluator, gate and level say so, whatever caches and policies hold |
| StepLaws.ResultIsSound | imads-core/src/core/engine.rs:1094-1499 | every result, replayed or fresh, carries what its key evaluates to |
| StepLaws.StopsIff | imads-core/src/core/engine.rs:1304-1425 | a step stops its candidate, if and only if it is freshly evaluated, passes the gate, no cut is due, the pruning gate is open by its counted sizes, and the estimate less 1.282 standard errors and the learned bound is not below the incumbent less the slack |
| StepLaws.TruthIsTransparent | imads-core/src/core/engine.rs:1186-1499 | at the last level kind, objectives, constraints, flag and violation are a function of evaluator, point and environment |
| StepLaws.SameTruthFromAnyCaches | imads-core/src/core/engine.rs:1465-1499 | two steps on any caches of any runs agree on the truth of a point |
| StepLaws.TruthsAreHonest | imads-core/src/core/engine.rs:1465-1477 | a truth has no negative violation, zero exactly when feasible, and an honest flag |
| StepLaws.BatchKeepsDecisions | imads-core/src/core/executor.rs:484-527 | executing a batch keeps the tag discipline of the decision cache |
| StepLaws.StepKeepsDecisions | imads-core/src/core/engine.rs:1228-1499 | so does everything a step stores: truth keys hold truths or invalid evaluations, partial keys partial results, cuts or invalid evaluations |
| StepLaws.StepAdvances | imads-core/src/core/engine.rs:1071-1544 | every processed outcome finishes the candidate or leaves it ready at a strictly higher level of the ladder, with its bookkeeping in order |
| StepLaws.HistoryAscends | imads-core/src/core/engine.rs:733-957 | the visits in the history of a candidate, which the run keeps for each of its candidates (`Tracks`), are at strictly ascending levels, at most one per rung |
| StepLaws.AuditStarts | imads-core/src/core/engine.rs:1305-1362 | an audit starts exactly at an allowed cut that the audit policy selects, with the origin of that cut and the first level of its path |
| StepLaws.AuditedStep | imads-core/src/core/engine.rs:1098-1173 | with pruning off for audits the flag and origin stay, and the candidate can end only as a truth at the last level or as invalid |
| StepLaws.AuditLeavesTrail | imads-core/src/core/engine.rs:336-378 | with pruning off for audits, such a history since the cut is exactly the first levels of the path of the cut: the paired checkpoints in order, then the last level |
| StepLaws.JobReportsAudit | imads-core/src/core/engine.rs:1428-1499 | events are flagged exactly while the audit goes on, name its cut, and every checkpoint reports the values of its own rung |
| StepLaws.CutsAreJustified | imads-core/src/core/engine.rs:1307-1388 | a cut, fresh or replayed, satisfies the margin inequality first at the named constraint, at a level the current assignment allows |
| StepLaws.JustifiedIffMade | imads-core/src/core/engine.rs:1307-1388 | on distinct rungs a cut is justified (first at the named constraint, at an allowed level) if and only if the policy decides it on its estimates |
| StepLaws.ReplaysAreSound | imads-core/src/core/executor.rs:444-462 | cuts and partial results read under the current revision are what the current policy decides, unless they were in the cache at the start |
| StepLaws.StepKeepsPolicies | imads-core/src/core/engine.rs:1307-1423 | every cut and partial result stored by the run stays what the policy of its revision decides on its estimates |
| StepLaws.ReplayAgreesIff | imads-core/src/core/engine.rs:1094-1423 | replaying a stored decision and evaluating the item afresh agree, if and only if the decision is not a partial result that incumbent and audit flag make hopeless now |
| Witness.ReplayCanMissStop | imads-core/src/core/engine.rs:1402-1423 | a two-rung input: a partial result stored without an incumbent is replayed under one, and goes on where a fresh evaluation stops |
| Witness.StaleCutIsReplayed | imads-core/src/core/engine.rs:1125-1185 | an input on which a cut stored by an earlier run ends a candidate under a policy of the same revision that makes no cut |
| Store.DispatchKeepsWork | imads-core/src/core/engine.rs:788-816 | dispatching keeps index and positions a bijection and the work items those of the candidates in flight |
| Store.SortKeepsWork | imads-core/src/core/engine.rs:835-838 | sorting outcomes by candidate keeps one outcome per candidate in flight |
| Store.CompletionKeepsWork | imads-core/src/core/engine.rs:848-900 | completing one outcome leaves the rest in flight and strictly less remaining work |
| EngineLog.BestIsNearOptimal | imads-core/src/core/engine.rs:877-890 | the incumbent of a log of decisions is a violation-free truth of it within the slack of all of them |
| EngineLog.BestAfterTruth | imads-core/src/core/engine.rs:877-891 | a truth updates acceptance state, incumbent and record together, whether accepted or not |
| EngineLog.BarrierOfEnds | imads-core/src/core/acceptance.rs:217-221 | only iteration ends move the barrier |
| EngineLog.SameRevisionSamePolicy | imads-core/src/core/engine.rs:902-914 | decisions with equal revision have equal thresholds and assignment |
| Tracks.LandKeepsTracks | imads-core/src/core/engine.rs:848-900 | processing an outcome prolongs the history of its candidate by exactly this visit and state, in agreement with the log, and changes no other history |
| Tracks.LevelsOfRunAscend | imads-core/src/core/engine.rs:733-957 | the log decides a candidate at strictly ascending levels, at most once per rung |
| Tracks.AuditOfRunFollowsPath | imads-core/src/core/engine.rs:336-378 | with pruning off for audits, the log takes an audited candidate from the level of its cut exactly along the path of the cut |
| Audits.StepReports | imads-core/src/core/engine.rs:893-900 | the event of a step is flagged exactly while the audit goes on, names the candidate's cut, and carries a sample exactly at paired checkpoints, with the evaluator's values |
| Audits.BatchKeepsAudits | imads-core/src/policies/calibrator.rs:1018-1100 | booking the events of a batch, in any order, keeps the pending audits those of the candidates under audit |
| Engine.EngineRun.constructor | imads-core/src/core/engine.rs:566-660 | policies are reset to the configuration with nothing learned, counted or recorded, ladder, barrier and a mesh with the configured multipliers, minimum and divisor are built, and everything is in order on any caches earlier runs left |
| Engine.EngineRun.Ingest | imads-core/src/core/engine.rs:688-729 | every proposal is known afterwards; new ones are stored at their nearest mesh point; nothing stored changes |
| Engine.EngineRun.InjectPoll | imads-core/src/core/engine.rs:738-774 | every poll point of the best point is known afterwards; the run has strayed from the mesh exactly if a new one did not fit it; nothing stored changes |
| Engine.PollIdsAreDistinct | imads-core/src/core/engine.rs:745-749 | poll ids of different iterations or directions never collide below 2^32 directions, and never with ids below 2^63 |
| Engine.EngineRun.Dispatch | imads-core/src/core/engine.rs:788-819 | exactly the picked ready candidates go in flight, each with its own work item; every other candidate is unchanged |
| Engine.EngineRun.ExecuteBatch | imads-core/src/core/engine.rs:821-838 | the outcomes are those of exactly the work, sorted by candidate and sound; what they replay is what the current policy decides or was in the cache at the start |
| Engine.EngineRun.Settle | imads-core/src/core/engine.rs:855-868 | the step of one candidate in the store: candidate, job and decision cache move as the laws of steps say |
| Engine.EngineRun.ProcessOutcome | imads-core/src/core/engine.rs:848-900 | one outcome is consumed: its candidate alone makes its step, the event reports that step (flag, cut and sample), log and history gain its record, the incumbent changes exactly when it is accepted, and every invariant stays |
| Engine.EngineRun.Judge | imads-core/src/core/engine.rs:877-891 | truths only reach acceptance; an accepted one becomes incumbent with its point and objectives, anything else leaves the incumbent alone |
| Engine.EngineRun.BatchBoundary | imads-core/src/core/engine.rs:902-914 | policies learn from the sorted events; an equal revision afterwards means an equal policy, and the assignment is the one for the evidence then at hand on this ladder |
| Engine.EngineRun.CloseBatch | imads-core/src/core/engine.rs:902-914 | after the boundary the pending audits are again exactly those of the candidates |
| Engine.EngineRun.RunBatch | imads-core/src/core/engine.rs:819-914 | exactly the work items are decided, once each, under the policy of the dispatch; nothing stays in flight, finished candidates stay as they were, and remaining work drops |
| Engine.EngineRun.Advance | imads-core/src/core/engine.rs:782-914 | a batch decides exactly the picked ready candidates, and finished ones stay as they were |
| Engine.EngineRun.Steps | imads-core/src/core/engine.rs:731-957 | the inner loop ends without a step limit, polls at most once and only around the best point it started from, that is when nothing improved, respects the limit if there is one, leaves finished candidates as they were, and reports improvement exactly when the incumbent changed |
| Engine.EngineRun.EndIteration | imads-core/src/core/engine.rs:959-965 | barrier and mesh change exactly after a failed poll, by the flags given |
| Engine.EngineRun.Iterate | imads-core/src/core/engine.rs:663-966 | an iteration ends by what it did: polled exactly if a poll was added, improved exactly if there is a new best point, and mesh and barrier move exactly in the first case without the second |
| Engine.EngineRun.Run | imads-core/src/core/engine.rs:663-966 | over any proposals and picks every invariant below holds; every iteration has one end, by what it did; the barrier never rises, log and operations only grow, finished candidates never change |
| Engine.EngineRun.RevisionsIdentifyPolicies | imads-core/src/core/engine.rs:902-914 | policy-revision soundness at every point of every run |
| Engine.EngineRun.EveryCutIsJustified | imads-core/src/core/engine.rs:1125-1185 | in a run on distinct rungs every cut that was not in the starting cache names the first constraint beyond the margin of its batch at an allowed level, and under non-negative slack limits a justified cut never names a satisfied estimate |
| Engine.EngineRun.AllCutsJustifiedIff | imads-core/src/core/engine.rs:1125-1185 | all cuts of a run are justified, if and only if the cuts it found at the start and replayed are those that its policies of their revisions make |
| Engine.EngineRun.EveryStopIsJustified | imads-core/src/core/engine.rs:1390-1425 | every decision of a run read the best objectives of its moment, and stopped its candidate exactly when `StepLaws.StopsIff` says |
| Engine.EngineRun.EveryAuditIsSelected | imads-core/src/core/engine.rs:1305-1362 | an audit of a run starts exactly at an allowed cut that the run's audit policy selects |
| Engine.EngineRun.PendingAuditsAreThoseOfCandidates | imads-core/src/core/engine.rs:893-914 | between batches an audit is pending exactly for candidates under audit that have not ended as a truth, names their cut, and keeps true estimates |
| Engine.EngineRun.FalseAlarmsRaiseLevel | imads-core/src/policies/dids.rs:165-205 | at every point of a run the assignment in force keeps a constraint from cutting at or below a level whose audits turned out feasible too often |
| Engine.EngineRun.EveryTruthIsTransparent | imads-core/src/core/engine.rs:1186-1224 | every last-level decision of a run is what the evaluator says |
| Engine.RunsAgreeOnTruths | imads-core/src/core/engine.rs:1465-1499 | any two runs on any caches agree on every point both took to the same last rung |
| Engine.EngineRun.BestPointIsNearOptimal | imads-core/src/core/engine.rs:877-890 | the output of a run with a zero barrier: existence, feasibility, the evaluator's own objectives, and near-optimality |
| Engine.EngineRun.CandidateStepsAscend | imads-core/src/core/engine.rs:733-957 | in every run the decisions about one candidate are at strictly ascending levels, hence at most as many as rungs |
| Engine.EngineRun.AuditsFollowTheirPaths | imads-core/src/core/engine.rs:336-378 | in every run with pruning off for audits, an audited candidate has followed its path: it waits at the next level of it, or ended as invalid, or as a truth after all of it |
| Engine.EngineRun.StepsAreBounded | imads-core/src/core/engine.rs:733-957 | the steps of a run never exceed candidates times rungs; between batches ready candidates are on the ladder and all others are finished |
| Engine.PowerConfigIsNested | imads-core/src/core/engine.rs:606-627 | `mesh_mul_init = mesh_mul_min * refine_div^k` configures a nested mesh |
| Engine.EngineRun.StoredPointsAreOnMesh | imads-core/src/core/engine.rs:688-775 | for a nested configuration, unless a poll point was stored whose step did not fit, all candidates and the best point are on the current mesh, and snapping them again changes nothing |
| Engine.EngineRun.FilterAndBarrier | imads-core/src/core/acceptance.rs:77-108 | the filter of the run is non-dominated and, with zero slacks and no truncation, the Pareto front of those truths of the run that passed the barrier |

## Left out

- Floating-point rounding, NaN ordering and overflow: numbers are exact; finiteness of an evaluator's outputs and of converted points is an explicit part of the model.
- Products of mesh multipliers and poll steps that overflow 64 bits are mathematical; only the saturating operations of the source saturate.
- The concrete hashes (FNV-1a, SplitMix64), hence collisions of the environment revision and the distribution of audits and draws.
- The engine thread's own wake-up in `run_batch`: a worker notifies without holding the mutex that the waiter checks under, so only progress of the workers to `done == n` is claimed, not the return of the call. Pool shutdown and the panic boundary are not modelled.
- Independence of whole runs from the worker count: the default scheduler sizes batches by it, so only batches are compared.
- Scores, priorities and fairness of the scheduler, the directional proposals and the choice between proposal modes: picks and proposals are arbitrary.
- Statistics counters, chunk auto-tuning, spin limits and cancellation hooks: they influence no result.
- Default ladder levels and validation of the configuration: one-branch facts; the run starts from resolved, non-empty levels.
- `DeltaCalibrator` and `NoopCalibrator` (restrictions of `DeltaKCalibrator`), the isotropic `MeshGeometry`, and the multi-objective wrappers of the evaluator.
- Claims about the best point when the barrier admits violations: acceptance then records the last accepted point, which may be infeasible (`Acceptance.OnlyZeroBarrierKeepsViolationsOut` gives the exact condition).
- Decision-cache transparency below the last level without a condition, which is false of the code: a stored partial result stands both for a stop and for going on, and a replay always goes on (`StepLaws.ReplayAgreesIff` gives the exact condition, `Witness.ReplayCanMissStop` an input).
- Revision counters are unbounded: the wrap-around of the 64-bit revision is not modelled.
- Lifecycle.MaterializeJobResult: candidates are values that the store replaces, not objects updated through references; aliasing between candidates is therefore not captured (the source has none, they sit in one vector).
- Engine.EngineRun.ExecuteBatch: the run calls the sequential executor; that the worker pool could stand in for it is what `Pool.PoolRefinesInline` states, not a second run.
- Engine.EngineRun.Run: proposals have the dimension of the base steps, as the source's own assertions demand of a usable configuration.
