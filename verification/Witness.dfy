/** Concrete steps on which the decision cache is not transparent: a stored partial result goes on where
    evaluating the item afresh stops, and a cut that an earlier run stored is replayed where the policy of
    the same revision makes none. */
module Witness {
  import opened Types
  import opened Arithmetic
  import opened Mesh
  import opened Estimation
  import opened Ladder
  import opened Margin
  import opened Executor
  import opened Lifecycle
  import opened StepLaws

  const LOOSE := Phi(2, 1)
  const TIGHT := Phi(1, 1)
  const LADDER := [LOOSE, TIGHT]
  const ENV := Env(0, 0, 0, 0)
  const REV := EnvRev(ENV, [])

  /** One objective and one constraint, always one. */
  const CONSTANT := Evaluator(
    1, 1,
    (x: seq<real>, phi: Phi, env: Env, k: nat) => ([Finite(1.0)], [Finite(1.0)]),
    (x: seq<real>, tau: nat, env: Env) => ([], []),
    (x: seq<real>, env: Env) => true)

  const ESTIMATES := Estimates([1.0], [0.0], [1.0], [0.0], LOOSE, 2.0, 1)

  /** Both may cut from the first rung on; the first has slack for the constraint, the second has none. */
  const POLICY := Policy(Thresholds([2.0], [], 0.0, [], 0.0), [1])
  const STRICT := Policy(Thresholds([0.0], [], 0.0, [], 0.0), [1])

  /** The first rung is evaluated; pruning is allowed from the first level on. */
  function Context(sqrt: real -> real, best: Option<Objectives>): StepContext {
    StepContext(World(CONSTANT, sqrt, (y: real) => true), REV, LADDER, POLICY, 0, best,
                PruneConfig(1, 1, false, true), (x: XMesh, phi: Phi, rev: EnvRev) => false)
  }

  const ITEM := WorkItem(0, [], 0, LOOSE, REV, 0, 0)

  /** The only candidate, in flight. */
  function InFlightCandidate(): Candidate {
    Dispatched(NewCandidate(0, [], 0, 0), 0, 0)
  }

  const EVALUATED := WorkOutcome(ITEM, None, Some(ESTIMATES), 1.0, false, false, true)

  lemma ColumnOfOnes()
    ensures ObjectiveColumn(CONSTANT, [], LOOSE, ENV, 0, 1) == [1.0]
    ensures ConstraintColumn(CONSTANT, [], LOOSE, ENV, 0, 1) == [1.0]
    ensures FHatSpec(CONSTANT, [], LOOSE, ENV, 0) == 1.0 && CHatSpec(CONSTANT, [], LOOSE, ENV, 0) == 1.0
  {
    assert ObjectiveColumn(CONSTANT, [], LOOSE, ENV, 0, 0) == [];
    assert ObjectiveSample(CONSTANT, [], LOOSE, ENV, 0, 0) == Finite(1.0);
    assert ConstraintColumn(CONSTANT, [], LOOSE, ENV, 0, 0) == [];
    assert ConstraintSample(CONSTANT, [], LOOSE, ENV, 0, 0) == Finite(1.0);
    assert Sum([1.0]) == Sum([]) + 1.0;
  }

  lemma EvaluatesToOne(sqrt: real -> real)
    requires IsSqrt(sqrt)
    ensures var w := Context(sqrt, None).world;
      WorldOk(w) && CheapOk(w, [], REV) && Compute(w, EvalCacheKey([], LOOSE, REV)) == Some(ESTIMATES)
  {
    var w := Context(sqrt, None).world;
    assert MeshToReal([], []) == [];
    assert ToReal(w, [], []) == Some([]);
    ColumnOfOnes();
    assert RowFinite(CONSTANT, [], LOOSE, ENV, 0);
    assert FiniteEvaluation(CONSTANT, [], LOOSE, ENV);
    var e := Estimated(CONSTANT, sqrt, [], LOOSE, ENV).value;
    assert e.fHat == [1.0];
    assert e.fSe == [0.0];
    assert e.cHat == [1.0];
    assert e.cSe == [0.0];
  }

  lemma PruningOnFirstRung()
    ensures ObjectivePruningAllowed(0, LADDER, false, PruneConfig(1, 1, false, true))
  {
    PruningGateCountsSizes(0, LADDER, false, PruneConfig(1, 1, false, true));
    assert LADDER[0].smc in SizesUpTo(LADDER, 1);
    assert forall s :: s in Sizes(LADDER) ==> s in SizesUpTo(LADDER, 1);
  }

  /** The same item under the same policy: evaluated without an incumbent its partial result is stored and
      the candidate goes on; with an incumbent of one half, replaying that result still goes on, but
      evaluating the item afresh stops. */
  lemma ReplayCanMissStop(sqrt: real -> real)
    returns (ctx: StepContext, c: Candidate, replay: WorkOutcome, anew: WorkOutcome)
    requires IsSqrt(sqrt)
    ensures StepPre(ctx, c, replay) && StepPre(ctx, c, anew) && replay.item == anew.item && Distinct(ctx.ladder)
    ensures anew.cachedDecision.None?
    ensures var before := ctx.(bestF := None);
      StepPre(before, c, anew) && replay.cachedDecision == Some(StepResult(before, c, anew))
    ensures ReplaySound(ctx.ladder, ctx.policy, replay)
    ensures StepVerdict(ctx, c, replay) == Continued && StepVerdict(ctx, c, anew) == Stopped
  {
    ctx, c, anew := Context(sqrt, Some([0.5])), InFlightCandidate(), EVALUATED;
    var stored := Partial(ESTIMATES, EvalMeta(LOOSE, REV, 0, 1.0));
    replay := WorkOutcome(ITEM, Some(stored), None, 0.0, true, false, false);
    EvaluatesToOne(sqrt);
    PruningOnFirstRung();
    assert AllowedCut(POLICY, 2, 0, ESTIMATES) == None;
    assert LADDER[0] == LOOSE;
    assert PolicyMade(LADDER, POLICY, LOOSE, stored);
  }

  /** A cut stored under the strict policy is found by a later run under the same revision, which stands for
      another policy there: the cut is replayed and ends the candidate, although the policy of the batch
      makes no cut. The cache it is read from is in order. */
  lemma StaleCutIsReplayed(sqrt: real -> real)
    returns (ctx: StepContext, c: Candidate, start: DecisionMap, replay: WorkOutcome)
    requires IsSqrt(sqrt)
    ensures WorldOk(ctx.world) && DecisionsOk(ctx.world, start) && Distinct(ctx.ladder)
    ensures OutcomeOk(ctx.world, start, replay.item, |ctx.ladder|, replay) && Inherited(start, |ctx.ladder|, replay)
    ensures StepPre(ctx, c, replay)
    ensures var r := StepResult(ctx, c, replay);
      && r.EarlyInfeasible? && StepCandidate(ctx, c, replay).status.DoneEarlyInfeasible?
      && r.meta.policyRev == ctx.policyRev && JustifiedCut(STRICT, |ctx.ladder|, replay.item.phiIdx, r)
      && !JustifiedCut(ctx.policy, |ctx.ladder|, replay.item.phiIdx, r)
  {
    ctx, c := Context(sqrt, None), InFlightCandidate();
    var stale := EarlyInfeasible(0, ESTIMATES, EvalMeta(LOOSE, REV, 0, 1.0));
    start := map[DKey(ITEM, 2) := stale];
    replay := WorkOutcome(ITEM, Some(stale), None, 0.0, true, false, false);
    EvaluatesToOne(sqrt);
    assert LADDER[0] == LOOSE;
    assert Exceeds(ESTIMATES, STRICT.th, 0) && !Exceeds(ESTIMATES, POLICY.th, 0);
  }
}
