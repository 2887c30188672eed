/** What holds of every step of every candidate, whatever the caches and the policies say. */
module StepLaws {
  import opened Types
  import opened Sorting
  import opened Ladder
  import opened Margin
  import opened Executor
  import opened Calibration
  import opened Lifecycle

  // ---------------------------------------------------------------- what the decision cache may hold

  /** The result a truth key stands for. */
  ghost predicate IsTruthOf(w: World, k: EvalCacheKey, r: JobResult)
    requires w.ev.numObjectives >= 1
  {
    && r.Truth? && CheapOk(w, k.x, k.envRev) && r.meta.phi == k.phi
    && Compute(w, k).Some? && r == TruthOf(Compute(w, k).value, r.meta)
  }

  /** A partial result with the estimates its key evaluates to. */
  ghost predicate IsPartialOf(w: World, k: EvalCacheKey, r: JobResult)
    requires w.ev.numObjectives >= 1
  {
    && (r.Partial? || r.EarlyInfeasible?) && CheapOk(w, k.x, k.envRev) && r.meta.phi == k.phi
    && Compute(w, k) == Some(r.estimates)
  }

  ghost predicate IsInvalidOf(w: World, k: EvalCacheKey, r: JobResult)
    requires w.ev.numObjectives >= 1
  {
    r.RejectedInvalidEval? && Compute(w, k).None?
  }

  /** A truth key stores a truth or an invalid evaluation, a partial key a partial, a cut or an invalid
      evaluation; and each is what evaluating the key gives. Cheap keys are never looked up. */
  ghost predicate EntryOk(w: World, k: DecisionCacheKey, r: JobResult)
    requires w.ev.numObjectives >= 1
  {
    match k.tag
    case CheapTag => true
    case TruthTag => IsTruthOf(w, EKeyOf(k), r) || IsInvalidOf(w, EKeyOf(k), r)
    case PartialTag => IsPartialOf(w, EKeyOf(k), r) || IsInvalidOf(w, EKeyOf(k), r)
  }

  ghost predicate DecisionsOk(w: World, dc: DecisionMap)
    requires w.ev.numObjectives >= 1
  {
    forall k :: k in dc ==> EntryOk(w, k, dc[k])
  }

  /** What executing a batch on caches in order guarantees of each outcome. */
  ghost predicate OutcomeSound(w: World, ladderLen: nat, o: WorkOutcome)
    requires w.ev.numObjectives >= 1
  {
    match o.cachedDecision
    case Some(r) => EntryOk(w, DKey(o.item, ladderLen), r)
    case None => o.estimates.Some? && Compute(w, EKey(o.item)) == o.estimates
  }

  lemma OutcomesAreSound(w: World, dc: DecisionMap, wi: WorkItem, ladderLen: nat, o: WorkOutcome)
    requires w.ev.numObjectives >= 1 && DecisionsOk(w, dc)
    requires OutcomeOk(w, dc, wi, ladderLen, o)
    ensures OutcomeSound(w, ladderLen, o)
  {
    hide Compute, CheapOk, InvalidResult;
    if Compute(w, EKey(wi)).None? {
      InvalidEntryOk(w, wi, ladderLen);
    }
  }

  /** Executing a batch keeps the decision cache in order. */
  lemma BatchKeepsDecisions(w: World, dc: DecisionMap, items: seq<WorkItem>, ladderLen: nat)
    requires w.ev.numObjectives >= 1 && DecisionsOk(w, dc)
    ensures DecisionsOk(w, DecisionAfterBatch(w, dc, items, ladderLen))
  {
    hide Compute, CheapOk, EntryOk, DKey, EKey;
    var gain := DecisionGain(w, dc, items, ladderLen, UpTo(|items|));
    forall k | k in gain
      ensures EntryOk(w, k, gain[k])
    {
      var i :| i in UpTo(|items|) && i < |items| && DKey(items[i], ladderLen) == k && Compute(w, EKey(items[i])).None?;
      GainedKeyIsInvalid(w, dc, items, ladderLen, UpTo(|items|), i);
      InvalidEntryOk(w, items[i], ladderLen);
    }
  }

  lemma InvalidEntryOk(w: World, wi: WorkItem, ladderLen: nat)
    requires w.ev.numObjectives >= 1 && Compute(w, EKey(wi)).None?
    ensures EntryOk(w, DKey(wi, ladderLen), InvalidFor(w, wi))
  {
    hide Compute;
  }

  // ---------------------------------------------------------------- candidates

  /** The levels an audited candidate still has to visit: the paired checkpoints, then the last level. */
  function AuditPath(ladder: seq<Phi>, cut: nat): (r: seq<nat>)
    requires ladder != []
  {
    WithLast(CollectPairedPhiIndices(ladder, cut), |ladder| - 1)
  }

  function WithLast(paired: seq<nat>, last: nat): seq<nat> {
    if last in paired then paired else paired + [last]
  }

  ghost predicate OriginOk(ladder: seq<Phi>, o: AuditOrigin) {
    && o.phiIdxAtCut + 1 < |ladder| && o.phiAtCut == ladder[o.phiIdxAtCut]
    && o.pairedPhiIndices == CollectPairedPhiIndices(ladder, o.phiIdxAtCut)
  }

  predicate Live(s: CandidateStatus) {
    s.Ready? || s.InFlight?
  }

  ghost predicate CandidateOk(w: World, rev: EnvRev, ladder: seq<Phi>, c: Candidate) {
    && (c.cheapChecked ==> c.cheapOk == CheapOk(w, c.x, rev))
    && (!c.cheapChecked ==> !c.cheapOk)
    && (c.auditRequired <==> c.auditOrigin.Some?)
    && (c.auditRequired ==> OriginOk(ladder, c.auditOrigin.value) && CheapOk(w, c.x, rev))
    && (Live(c.status) ==> c.nextPhiIdx < |ladder|)
    && (c.status.InFlight? ==> c.status.phiIdx == c.nextPhiIdx)
    && (c.auditRequired && Live(c.status) ==>
          c.auditOrigin.value.phiIdxAtCut < c.nextPhiIdx
          && c.nextPhiIdx in AuditPath(ladder, c.auditOrigin.value.phiIdxAtCut))
  }

  /** The candidate on its way to the executor. */
  function Dispatched(c: Candidate, policyRev: nat, incumbentId: nat): Candidate {
    c.(status := InFlight(c.nextPhiIdx), submittedPolicyRev := policyRev, submittedIncumbentId := incumbentId)
  }

  /** The outcome of the item that was dispatched for the candidate, executed in good order. */
  ghost predicate ItemFor(ctx: StepContext, c: Candidate, out: WorkOutcome) {
    && WorldOk(ctx.world) && out.item.phiIdx < |ctx.ladder|
    && c.status == InFlight(out.item.phiIdx)
    && out.item.x == c.x && out.item.phi == ctx.ladder[out.item.phiIdx]
    && out.item.envRev == ctx.rev && out.item.policyRev == ctx.policyRev
    && OutcomeSound(ctx.world, |ctx.ladder|, out)
  }

  ghost predicate StepPre(ctx: StepContext, c: Candidate, out: WorkOutcome) {
    ItemFor(ctx, c, out) && CandidateOk(ctx.world, ctx.rev, ctx.ladder, c)
  }

  lemma StepMaterializable(ctx: StepContext, c: Candidate, out: WorkOutcome)
    requires StepPre(ctx, c, out)
    ensures Materializable(ctx, c, out)
  {
    hide Compute, CheapOk;
  }

  ghost function StepVerdict(ctx: StepContext, c: Candidate, out: WorkOutcome): Verdict
    requires StepPre(ctx, c, out)
  {
    StepMaterializable(ctx, c, out);
    VerdictOf(ctx, c, out)
  }

  ghost function StepResult(ctx: StepContext, c: Candidate, out: WorkOutcome): JobResult
    requires StepPre(ctx, c, out)
  {
    StepMaterializable(ctx, c, out);
    ResultOf(ctx, out, VerdictOf(ctx, c, out))
  }

  ghost function StepCandidate(ctx: StepContext, c: Candidate, out: WorkOutcome): Candidate
    requires StepPre(ctx, c, out)
  {
    CandidateAfter(ctx, c, out, StepVerdict(ctx, c, out), StepResult(ctx, c, out))
  }

  // ---------------------------------------------------------------- verdicts

  lemma ComputeConverts(w: World, k: EvalCacheKey)
    requires w.ev.numObjectives >= 1 && Compute(w, k).Some?
    ensures ToReal(w, k.x, k.envRev.baseSteps).Some?
  {
  }

  /** Rejections do not depend on caches or policies: a step ends as invalid exactly when the point
      cannot be evaluated at its level, and as cheaply rejected exactly when it can but fails the
      gate. A step is final exactly at the last level, otherwise. */
  lemma VerdictCases(ctx: StepContext, c: Candidate, out: WorkOutcome)
    requires StepPre(ctx, c, out)
    ensures var v, e := StepVerdict(ctx, c, out), Compute(ctx.world, EKey(out.item));
      && (v == Unevaluable <==> e.None?)
      && (v == CheaplyRejected <==> e.Some? && !CheapOk(ctx.world, c.x, ctx.rev))
      && (v == Final <==> e.Some? && CheapOk(ctx.world, c.x, ctx.rev) && out.item.phiIdx + 1 == |ctx.ladder|)
  {
    hide Compute, CheapOk, EarlyInfeasibleIn, Hopeless, CutLevel, FreshVerdict;
    if Compute(ctx.world, EKey(out.item)).Some? {
      ComputeConverts(ctx.world, EKey(out.item));
    }
  }

  /** Whatever the caches hold, a result carries what its key evaluates to. */
  lemma ResultIsSound(ctx: StepContext, c: Candidate, out: WorkOutcome)
    requires StepPre(ctx, c, out)
    ensures var r, k := StepResult(ctx, c, out), EKey(out.item);
      && (r.RejectedInvalidEval? <==> StepVerdict(ctx, c, out) == Unevaluable)
      && (r.RejectedCheap? <==> StepVerdict(ctx, c, out) == CheaplyRejected)
      && (r.EarlyInfeasible? <==> StepVerdict(ctx, c, out).Cut?)
      && (r.Truth? <==> StepVerdict(ctx, c, out) == Final)
      && (r.Truth? ==> IsTruthOf(ctx.world, k, r))
      && (r.Partial? || r.EarlyInfeasible? ==> IsPartialOf(ctx.world, k, r))
  {
    hide Compute, CheapOk, EarlyInfeasibleIn, Hopeless, CutLevel, AllSatisfied, Violation;
    VerdictCases(ctx, c, out);
  }

  /** Constraint `j` is the first one beyond its margin. */
  ghost predicate FirstBeyond(est: Estimates, th: Thresholds, j: nat) {
    Exceeds(est, th, j) && forall i :: 0 <= i < j ==> !Exceeds(est, th, i)
  }

  /** The level is below the one from which the first constraint beyond its margin may cut, if there is one. */
  ghost predicate NoCutDue(pol: Policy, ladderLen: nat, p: nat, est: Estimates) {
    forall j: nat :: FirstBeyond(est, pol.th, j) ==> p + 1 < GetOr(pol.assignment, j, ladderLen)
  }

  /** A candidate with these estimates need not go on: the policy makes no cut, the gate is open (enough distinct
      sample sizes and levels, no protected audit), there is an incumbent, and even the estimate less 1.282
      standard errors and the learned bound times the tolerance does not fall below its objective less the
      slack. */
  ghost predicate StopDue(ctx: StepContext, audited: bool, p: nat, est: Estimates) {
    && p + 1 < |ctx.ladder|
    && NoCutDue(ctx.policy, |ctx.ladder|, p, est)
    && GateOpen(p, ctx.ladder, audited, ctx.prune)
    && ctx.bestF.Some? && LeastObjective(est, ctx.policy.th) >= ctx.bestF.value[0] - ctx.policy.th.epsF
  }

  ghost predicate GateOpen(p: nat, ladder: seq<Phi>, audited: bool, prune: PruneConfig) {
    && p < |ladder| && !(audited && prune.disableForAudit) && p + 1 >= prune.minLevel
    && |SizesUpTo(ladder, ladder[p].smc)| >= MinInt(MaxInt(prune.minSmcRank, 1), |Sizes(ladder)|)
    && (prune.requireBackHalf ==> p + 1 >= MaxInt(|ladder| / 2 + 1, 2))
  }

  /** The least primary objective the estimate allows for. */
  function LeastObjective(est: Estimates, th: Thresholds): real {
    est.fHat[0] - 1.282 * (if est.fSe == [] then 0.0 else est.fSe[0]) - KFFor(th, est.phi) * est.tauScale
  }

  lemma StoppedMeansDue(ctx: StepContext, audited: bool, p: nat, est: Estimates)
    requires p < |ctx.ladder|
    ensures FreshVerdict(ctx, audited, p, est) == Stopped <==> StopDue(ctx, audited, p, est)
  {
    hide AllowedCut, NoCutDue, ObjectiveBounds, ObjectivePruningAllowed, GateOpen, LeastObjective;
    NoCutIff(ctx.policy, |ctx.ladder|, p, est);
    GateOpenIff(p, ctx.ladder, audited, ctx.prune);
    LeastIsLowerBound(est, ctx.policy.th);
  }

  lemma GateOpenIff(p: nat, ladder: seq<Phi>, audited: bool, prune: PruneConfig)
    requires p < |ladder|
    ensures ObjectivePruningAllowed(p, ladder, audited, prune) <==> GateOpen(p, ladder, audited, prune)
  {
    hide ObjectivePruningAllowed, SizesUpTo, Sizes;
    PruningGateCountsSizes(p, ladder, audited, prune);
  }

  lemma LeastIsLowerBound(est: Estimates, th: Thresholds)
    ensures LeastObjective(est, th) == ObjectiveBounds(est, th).0
  {
    hide KFFor, ObjectiveBounds;
    ObjectiveAllowances(est, th);
  }

  lemma NoCutIff(pol: Policy, ladderLen: nat, p: nat, est: Estimates)
    ensures AllowedCut(pol, ladderLen, p, est).None? <==> NoCutDue(pol, ladderLen, p, est)
  {
    hide EarlyInfeasibleIn, Exceeds;
    EarlyInfeasibleSpec(est, pol.th);
    var first := EarlyInfeasibleIn(est, pol.th);
    if first.Some? {
      assert FirstBeyond(est, pol.th, first.value);
      forall j: nat | FirstBeyond(est, pol.th, j)
        ensures j == first.value
      {
      }
    }
  }

  /** A step stops its candidate, if and only if it is freshly evaluated, passes the gate, and need not go on. */
  lemma StopsIff(ctx: StepContext, c: Candidate, out: WorkOutcome)
    requires StepPre(ctx, c, out)
    ensures StepCandidate(ctx, c, out).status == DoneStoppedPartial(out.item.phiIdx) <==>
      var e := Compute(ctx.world, EKey(out.item));
      && out.cachedDecision.None? && e.Some? && CheapOk(ctx.world, c.x, ctx.rev)
      && StopDue(ctx, c.auditRequired, out.item.phiIdx, e.value)
  {
    hide Compute, CheapOk, FreshVerdict, StopDue, CollectPairedPhiIndices, NextAuditTargetIdx, TruthOf, Audited,
      CutLevel;
    VerdictCases(ctx, c, out);
    var v := StepVerdict(ctx, c, out);
    if out.cachedDecision.None? && v != Unevaluable && v != CheaplyRejected {
      StoppedMeansDue(ctx, c.auditRequired, out.item.phiIdx, Compute(ctx.world, EKey(out.item)).value);
    }
  }

  /** What a result says, without the bookkeeping of when and how it was obtained. */
  datatype Essence =
    | SaysInvalid
    | SaysCheap
    | SaysPartial(partial: Estimates)
    | SaysCut(j: nat, atCut: Estimates)
    | SaysTruth(f: Objectives, c: seq<real>, feasible: bool, v: real)

  function EssenceOf(r: JobResult): Essence {
    match r
    case RejectedCheap(_) => SaysCheap
    case RejectedInvalidEval(_) => SaysInvalid
    case EarlyInfeasible(j, e, _) => SaysCut(j, e)
    case Partial(e, _) => SaysPartial(e)
    case Truth(f, c, feasible, v, _) => SaysTruth(f, c, feasible, v)
  }

  /** The truth about a point, from the evaluator alone. */
  ghost function TruthAbout(w: World, x: XMesh, phi: Phi, rev: EnvRev): Essence
    requires w.ev.numObjectives >= 1
  {
    match Compute(w, EvalCacheKey(x, phi, rev))
    case None => SaysInvalid
    case Some(e) =>
      if CheapOk(w, x, rev) then SaysTruth(e.fHat, e.cHat, AllSatisfied(e.cHat), Violation(e.cHat)) else SaysCheap
  }

  /** Truth-level cache transparency: at the last level the materialised result is a function of the
      evaluator, the point and the environment, whatever caches, policies and incumbents the step met. */
  lemma TruthIsTransparent(ctx: StepContext, c: Candidate, out: WorkOutcome)
    requires StepPre(ctx, c, out) && out.item.phiIdx + 1 == |ctx.ladder|
    ensures EssenceOf(StepResult(ctx, c, out)) == TruthAbout(ctx.world, c.x, ctx.ladder[|ctx.ladder| - 1], ctx.rev)
  {
    hide Compute, CheapOk, AllSatisfied, Violation, StepVerdict, StepResult, StepPre, ItemFor, CandidateOk,
      OutcomeSound;
    VerdictCases(ctx, c, out);
    ResultIsSound(ctx, c, out);
    ItemKey(ctx, c, out);
  }

  lemma ItemKey(ctx: StepContext, c: Candidate, out: WorkOutcome)
    requires StepPre(ctx, c, out)
    ensures EKey(out.item) == EvalCacheKey(c.x, ctx.ladder[out.item.phiIdx], ctx.rev)
  {
  }

  /** The same point gets the same truth on cold caches and on any caches any number of earlier runs
      left behind, also when one run replays it and the other evaluates it. */
  lemma SameTruthFromAnyCaches(ctx1: StepContext, c1: Candidate, out1: WorkOutcome,
                               ctx2: StepContext, c2: Candidate, out2: WorkOutcome)
    requires StepPre(ctx1, c1, out1) && out1.item.phiIdx + 1 == |ctx1.ladder|
    requires StepPre(ctx2, c2, out2) && out2.item.phiIdx + 1 == |ctx2.ladder|
    requires ctx1.world == ctx2.world && ctx1.rev == ctx2.rev && c1.x == c2.x
    requires ctx1.ladder[|ctx1.ladder| - 1] == ctx2.ladder[|ctx2.ladder| - 1]
    ensures EssenceOf(StepResult(ctx1, c1, out1)) == EssenceOf(StepResult(ctx2, c2, out2))
  {
    hide TruthAbout, EssenceOf, StepResult, CandidateOk, OutcomeSound;
    TruthIsTransparent(ctx1, c1, out1);
    TruthIsTransparent(ctx2, c2, out2);
  }

  /** Truth results are honest: never a negative violation, zero exactly when every constraint holds,
      and the flag says so. */
  lemma TruthsAreHonest(w: World, k: EvalCacheKey, r: JobResult)
    requires w.ev.numObjectives >= 1 && IsTruthOf(w, k, r)
    ensures HonestFlag(r) && r.v >= 0.0 && (r.v == 0.0 <==> r.feasible)
  {
    hide Compute, CheapOk, Violation;
    ViolationSpec(r.c);
  }

  /** What a step stores is in order, so the cache stays in order over any number of runs. */
  lemma StepKeepsDecisions(ctx: StepContext, c: Candidate, out: WorkOutcome, dc: DecisionMap)
    requires StepPre(ctx, c, out) && DecisionsOk(ctx.world, dc)
    ensures DecisionsOk(ctx.world, Stored(ctx, c, out, StepVerdict(ctx, c, out), StepResult(ctx, c, out), dc))
  {
    hide Compute, CheapOk, StepVerdict, StepResult, CandidateOk, OutcomeSound, IsTruthOf, IsPartialOf, IsInvalidOf;
    VerdictCases(ctx, c, out);
    ResultIsSound(ctx, c, out);
    ItemKey(ctx, c, out);
  }

  // ---------------------------------------------------------------- audit paths

  lemma AuditPathSpec(ladder: seq<Phi>, cut: nat)
    requires cut + 1 < |ladder|
    ensures var r := AuditPath(ladder, cut);
      && r != [] && Ascending(r) && r[|r| - 1] == |ladder| - 1
      && forall k :: k in r ==> cut < k < |ladder|
  {
    hide CollectPairedPhiIndices;
    PairedSpec(ladder, cut);
    WithLastSpec(CollectPairedPhiIndices(ladder, cut), |ladder| - 1);
  }

  lemma WithLastSpec(paired: seq<nat>, last: nat)
    requires Ascending(paired) && forall k :: k in paired ==> k <= last
    ensures var r := WithLast(paired, last);
      && r != [] && Ascending(r) && r[|r| - 1] == last
      && forall k :: k in r <==> k in paired || k == last
  {
    if last in paired {
      var i :| 0 <= i < |paired| && paired[i] == last;
      assert paired[|paired| - 1] in paired;
    } else {
      forall i | 0 <= i < |paired|
        ensures paired[i] < last
      {
        assert paired[i] in paired;
      }
    }
  }

  /** The next target of an audit is the next level on its path. */
  lemma NextTargetOnPath(ladder: seq<Phi>, o: AuditOrigin, current: nat)
    requires OriginOk(ladder, o) && o.phiIdxAtCut <= current < |ladder| - 1
    ensures var t, path := NextAuditTargetIdx(Some(o), current, |ladder|), AuditPath(ladder, o.phiIdxAtCut);
      current < t < |ladder| && t in path && forall k :: k in path && current < k ==> t <= k
  {
    hide CollectPairedPhiIndices;
    var path := AuditPath(ladder, o.phiIdxAtCut);
    AuditPathSpec(ladder, o.phiIdxAtCut);
    PairedSpec(ladder, o.phiIdxAtCut);
    FirstAboveSpec(o.pairedPhiIndices, current);
    assert path[|path| - 1] == |ladder| - 1;
    assert |ladder| - 1 in path;
    forall k | k in path && current < k
      ensures NextAuditTargetIdx(Some(o), current, |ladder|) <= k
    {
    }
  }

  /** Behind position `k` of a path comes position `k + 1`. */
  lemma NextOnPath(path: seq<nat>, k: nat, t: nat)
    requires Ascending(path) && k + 1 < |path|
    requires t in path && path[k] < t && forall m :: m in path && path[k] < m ==> t <= m
    ensures t == path[k + 1]
  {
    var i :| 0 <= i < |path| && path[i] == t;
    assert path[k + 1] in path;
    assert forall j :: 0 <= j <= k ==> path[j] <= path[k];
  }

  // ---------------------------------------------------------------- lifecycle

  predicate Finished(s: CandidateStatus) {
    !Live(s)
  }

  lemma OriginOfCut(ctx: StepContext, c: Candidate, out: WorkOutcome)
    requires StepPre(ctx, c, out) && StepVerdict(ctx, c, out).Cut?
    ensures var d := Noticed(ctx, c, out, StepVerdict(ctx, c, out));
      var a := Audited(ctx, d, out, StepVerdict(ctx, c, out).j);
      && out.item.phiIdx + 1 < |ctx.ladder|
      && CheapOk(ctx.world, c.x, ctx.rev)
      && (a.auditRequired ==> a.auditOrigin.Some? && OriginOk(ctx.ladder, a.auditOrigin.value)
                              && a.auditOrigin.value.phiIdxAtCut <= out.item.phiIdx)
      && (!a.auditRequired ==> a.auditOrigin.None?)
      && (c.auditRequired ==> a.auditOrigin == c.auditOrigin && a.auditRequired)
      && a.x == c.x && a.id == c.id && a.cheapChecked == d.cheapChecked && a.cheapOk == d.cheapOk
  {
    hide Compute, CheapOk, CollectPairedPhiIndices, AuditPath, EarlyInfeasibleIn, CutLevel, Hopeless;
    VerdictCases(ctx, c, out);
    ResultIsSound(ctx, c, out);
  }

  lemma UnconvertibleFailsGate(w: World, x: XMesh, rev: EnvRev)
    ensures ToReal(w, x, rev.baseSteps).None? ==> !CheapOk(w, x, rev)
  {
  }

  /** Progress: every processed outcome finishes the candidate or leaves it ready at a strictly higher
      level of the ladder; and the candidate stays in order. */
  lemma StepAdvances(ctx: StepContext, c: Candidate, out: WorkOutcome)
    requires StepPre(ctx, c, out)
    ensures var after := StepCandidate(ctx, c, out);
      && after.id == c.id && after.x == c.x
      && (c.auditRequired ==> after.auditRequired && after.auditOrigin == c.auditOrigin)
      && (after.status.Ready? ==> out.item.phiIdx < after.nextPhiIdx < |ctx.ladder|)
      && (!after.status.Ready? ==> Finished(after.status))
      && CandidateOk(ctx.world, ctx.rev, ctx.ladder, after)
  {
    hide Compute, CheapOk, CollectPairedPhiIndices, AuditPath, EarlyInfeasibleIn, CutLevel, Hopeless, Audited,
      NextAuditTargetIdx, FreshVerdict, KeptEstimates, TruthOf, IsTruthOf, IsPartialOf, OutcomeSound;
    VerdictCases(ctx, c, out);
    ResultIsSound(ctx, c, out);
    UnconvertibleFailsGate(ctx.world, c.x, ctx.rev);
    if StepVerdict(ctx, c, out).Cut? {
      OriginOfCut(ctx, c, out);
      var a := Audited(ctx, Noticed(ctx, c, out, StepVerdict(ctx, c, out)), out, StepVerdict(ctx, c, out).j);
      if a.auditRequired {
        NextTargetOnPath(ctx.ladder, a.auditOrigin.value, out.item.phiIdx);
      }
    } else if StepVerdict(ctx, c, out) == Continued && c.auditRequired {
      NextTargetOnPath(ctx.ladder, c.auditOrigin.value, out.item.phiIdx);
    }
  }

  /** When pruning is off for audits, an audited candidate keeps its flag and origin; below the last
      level it goes on to the next level of its path unless the point cannot be evaluated; at the last
      level it ends as a truth or as an invalid evaluation. */
  lemma AuditedStep(ctx: StepContext, c: Candidate, out: WorkOutcome)
    requires StepPre(ctx, c, out) && c.auditRequired && ctx.prune.disableForAudit
    ensures var after, p := StepCandidate(ctx, c, out), out.item.phiIdx;
      && after.auditRequired && after.auditOrigin == c.auditOrigin
      && (after.status.Ready? ==> p + 1 < |ctx.ladder|
                                  && after.nextPhiIdx == NextAuditTargetIdx(c.auditOrigin, p, |ctx.ladder|))
      && (after.status.Ready? || after.status.DoneTruth? || after.status.DoneRejectedInvalidEval?)
      && (after.status.DoneTruth? <==> StepResult(ctx, c, out).Truth?)
      && (after.status.DoneRejectedInvalidEval? <==> StepResult(ctx, c, out).RejectedInvalidEval?)
      && (after.status.DoneTruth? ==> p + 1 == |ctx.ladder|)
      && (after.status.DoneRejectedInvalidEval? <==> Compute(ctx.world, EKey(out.item)).None?)
  {
    hide Compute, CheapOk, CollectPairedPhiIndices, AuditPath, EarlyInfeasibleIn, CutLevel,
      NextAuditTargetIdx, KeptEstimates, TruthOf, IsTruthOf, IsPartialOf;
    VerdictCases(ctx, c, out);
    ResultIsSound(ctx, c, out);
  }

  /** What the calibrator hears: an event is flagged as audited exactly while the candidate stays in its
      audit, it names the cut under audit, and every paired checkpoint on the way reports the values of
      its own rung. */
  lemma JobReportsAudit(ctx: StepContext, c: Candidate, out: WorkOutcome)
    requires StepPre(ctx, c, out)
    ensures var after, r, p := StepCandidate(ctx, c, out), StepResult(ctx, c, out), out.item.phiIdx;
      var job := JobOf(after, out, StepVerdict(ctx, c, out), r);
      && job.result == r
      && (job.audited <==> after.auditRequired && after.status.Ready?)
      && (job.audited ==> job.auditOf == AuditOfOrigin(after.auditOrigin) && job.auditOf.Some?)
      && (job.pairedSample.Some? <==> IsPairedCheckpoint(after.auditOrigin, p)
                                      && (after.status.Ready? || after.status.DoneTruth?))
      && (job.pairedSample.Some? ==>
            var sample, e := job.pairedSample.value, Compute(ctx.world, EKey(out.item));
            && sample.pairedPhi == ctx.ladder[p] && sample.pairedPhiIdx == p && e.Some?
            && sample.estimates.fHat == e.value.fHat && sample.estimates.cHat == e.value.cHat)
  {
    hide Compute, CheapOk, CollectPairedPhiIndices, AuditPath, EarlyInfeasibleIn, CutLevel, Hopeless,
      NextAuditTargetIdx, FreshVerdict, AllSatisfied, Violation, Audited, Noticed;
    VerdictCases(ctx, c, out);
    ResultIsSound(ctx, c, out);
    StepAdvances(ctx, c, out);
    if StepVerdict(ctx, c, out).Cut? {
      OriginOfCut(ctx, c, out);
      NoCheckpointAtCut(ctx, c, out);
    } else {
      NoticedKeepsOrigin(ctx, c, out, StepVerdict(ctx, c, out));
    }
  }

  lemma NoticedKeepsOrigin(ctx: StepContext, c: Candidate, out: WorkOutcome, verdict: Verdict)
    ensures var d := Noticed(ctx, c, out, verdict); d.auditRequired == c.auditRequired && d.auditOrigin == c.auditOrigin
  {
    hide CheapOk;
  }

  /** A candidate that ends at a cut is not under audit. */
  lemma NoCheckpointAtCut(ctx: StepContext, c: Candidate, out: WorkOutcome)
    requires StepPre(ctx, c, out) && StepVerdict(ctx, c, out).Cut?
    ensures !StepCandidate(ctx, c, out).auditRequired ==> StepCandidate(ctx, c, out).auditOrigin.None?
  {
    hide Compute, CheapOk, CollectPairedPhiIndices, AuditPath, EarlyInfeasibleIn, CutLevel, Hopeless,
      NextAuditTargetIdx, FreshVerdict, AllSatisfied, Violation;
    ResultIsSound(ctx, c, out);
  }

  // ---------------------------------------------------------------- the history of one candidate

  datatype Visit = Visit(ctx: StepContext, out: WorkOutcome)

  /** One dispatch and its completion. */
  ghost predicate Takes(v: Visit, c: Candidate, after: Candidate) {
    var d := Dispatched(c, v.out.item.policyRev, v.out.item.incumbentId);
    && c.status == Ready && ItemFor(v.ctx, d, v.out) && Materializable(v.ctx, d, v.out)
    && var verdict := VerdictOf(v.ctx, d, v.out);
    after == CandidateAfter(v.ctx, d, v.out, verdict, ResultOf(v.ctx, v.out, verdict))
  }

  /** The successive states of a candidate of one run; thresholds, incumbents and caches may change
      between its visits. */
  ghost predicate History(w: World, rev: EnvRev, ladder: seq<Phi>, prune: PruneConfig,
                          states: seq<Candidate>, visits: seq<Visit>)
  {
    && |states| == |visits| + 1
    && CandidateOk(w, rev, ladder, states[0])
    && (forall i :: 0 <= i < |visits| ==>
          var ctx := visits[i].ctx; ctx.world == w && ctx.rev == rev && ctx.ladder == ladder && ctx.prune == prune)
    && (forall i :: 0 <= i < |visits| ==> Takes(visits[i], states[i], states[i + 1]))
  }

  lemma TakesIsStep(v: Visit, c: Candidate, after: Candidate)
    requires CandidateOk(v.ctx.world, v.ctx.rev, v.ctx.ladder, c) && Takes(v, c, after)
    ensures var d := Dispatched(c, v.out.item.policyRev, v.out.item.incumbentId);
      && StepPre(v.ctx, d, v.out) && after == StepCandidate(v.ctx, d, v.out) && v.out.item.phiIdx == c.nextPhiIdx
  {
    hide CheapOk, Compute, AuditPath, OriginOk, CandidateAfter, OutcomeSound, VerdictOf, ResultOf;
  }

  lemma TakesAdvances(v: Visit, c: Candidate, after: Candidate)
    requires CandidateOk(v.ctx.world, v.ctx.rev, v.ctx.ladder, c) && Takes(v, c, after)
    ensures CandidateOk(v.ctx.world, v.ctx.rev, v.ctx.ladder, after)
    ensures c.nextPhiIdx == v.out.item.phiIdx < |v.ctx.ladder|
    ensures after.status.Ready? ==> c.nextPhiIdx < after.nextPhiIdx
  {
    hide CandidateOk, StepCandidate, StepPre, Takes;
    TakesIsStep(v, c, after);
    StepAdvances(v.ctx, Dispatched(c, v.out.item.policyRev, v.out.item.incumbentId), v.out);
    TakesOnLadder(v, c, after);
  }

  lemma TakesOnLadder(v: Visit, c: Candidate, after: Candidate)
    requires Takes(v, c, after)
    ensures v.out.item.phiIdx < |v.ctx.ladder|
  {
    hide Materializable, VerdictOf, ResultOf, CandidateAfter, OutcomeSound;
  }

  lemma {:induction false} HistoryInOrder(w: World, rev: EnvRev, ladder: seq<Phi>, prune: PruneConfig,
                                          states: seq<Candidate>, visits: seq<Visit>, n: nat)
    requires History(w, rev, ladder, prune, states, visits) && n <= |visits|
    ensures CandidateOk(w, rev, ladder, states[n])
  {
    hide CandidateOk, Takes;
    if n > 0 {
      HistoryInOrder(w, rev, ladder, prune, states, visits, n - 1);
      assert Takes(visits[n - 1], states[n - 1], states[n - 1 + 1]);
      TakesAdvances(visits[n - 1], states[n - 1], states[n]);
    }
  }

  /** Within a run a candidate visits strictly ascending levels, so it is executed at most once per
      level of the ladder. */
  lemma {:induction false} LevelsAscend(w: World, rev: EnvRev, ladder: seq<Phi>, prune: PruneConfig,
                                        states: seq<Candidate>, visits: seq<Visit>, n: nat)
    requires History(w, rev, ladder, prune, states, visits) && n < |visits|
    ensures n <= visits[n].out.item.phiIdx < |ladder|
    ensures n > 0 ==> visits[n - 1].out.item.phiIdx < visits[n].out.item.phiIdx
  {
    hide CandidateOk, Takes;
    HistoryInOrder(w, rev, ladder, prune, states, visits, n);
    TakesAdvances(visits[n], states[n], states[n + 1]);
    if n > 0 {
      LevelsAscend(w, rev, ladder, prune, states, visits, n - 1);
      HistoryInOrder(w, rev, ladder, prune, states, visits, n - 1);
      assert Takes(visits[n - 1], states[n - 1], states[n - 1 + 1]);
      TakesAdvances(visits[n - 1], states[n - 1], states[n]);
      TakenWhenReady(visits[n], states[n], states[n + 1]);
    }
  }

  lemma TakenWhenReady(v: Visit, c: Candidate, after: Candidate)
    requires Takes(v, c, after)
    ensures c.status == Ready
  {
    hide Materializable, VerdictOf, ResultOf, CandidateAfter, OutcomeSound;
  }

  lemma AtMostOneVisitPerLevel(w: World, rev: EnvRev, ladder: seq<Phi>, prune: PruneConfig,
                               states: seq<Candidate>, visits: seq<Visit>)
    requires History(w, rev, ladder, prune, states, visits)
    ensures |visits| <= |ladder|
  {
    hide CandidateOk, Takes;
    if visits != [] {
      LevelsAscend(w, rev, ladder, prune, states, visits, |visits| - 1);
    }
  }

  /** The candidate is ready at the first level of the path of its own cut. */
  ghost predicate JustAudited(ladder: seq<Phi>, c: Candidate) {
    && ladder != [] && c.status == Ready && c.auditRequired && c.auditOrigin.Some?
    && c.nextPhiIdx == AuditPath(ladder, c.auditOrigin.value.phiIdxAtCut)[0]
  }

  /** The candidate has made `k` visits of the path of `o`. */
  ghost predicate OnPath(ladder: seq<Phi>, o: AuditOrigin, c: Candidate, k: nat)
    requires ladder != []
  {
    var path := AuditPath(ladder, o.phiIdxAtCut);
    && c.auditRequired && c.auditOrigin == Some(o) && k <= |path|
    && (c.status == Ready ==> k < |path| && c.nextPhiIdx == path[k])
    && (c.status == Ready || c.status == DoneRejectedInvalidEval || (c.status == DoneTruth && k == |path|))
  }

  lemma StartsOnPath(w: World, rev: EnvRev, ladder: seq<Phi>, c: Candidate)
    requires JustAudited(ladder, c) && CandidateOk(w, rev, ladder, c)
    ensures OnPath(ladder, c.auditOrigin.value, c, 0)
  {
    hide AuditPath, CheapOk;
    AuditPathSpec(ladder, c.auditOrigin.value.phiIdxAtCut);
  }

  lemma AuditedOriginOk(w: World, rev: EnvRev, ladder: seq<Phi>, c: Candidate)
    requires CandidateOk(w, rev, ladder, c) && c.auditRequired
    ensures c.auditOrigin.Some? && OriginOk(ladder, c.auditOrigin.value)
    ensures Live(c.status) ==> c.auditOrigin.value.phiIdxAtCut < c.nextPhiIdx
  {
    hide CheapOk;
  }

  /** One visit of an audited candidate at position `k` of its path. */
  lemma AuditedVisit(v: Visit, c: Candidate, after: Candidate, o: AuditOrigin, k: nat)
    requires CandidateOk(v.ctx.world, v.ctx.rev, v.ctx.ladder, c) && Takes(v, c, after)
    requires v.ctx.prune.disableForAudit && v.ctx.ladder != [] && OnPath(v.ctx.ladder, o, c, k)
    ensures OnPath(v.ctx.ladder, o, after, k + 1)
    ensures k < |AuditPath(v.ctx.ladder, o.phiIdxAtCut)|
    ensures v.out.item.phiIdx == AuditPath(v.ctx.ladder, o.phiIdxAtCut)[k]
  {
    hide CandidateOk, Takes, StepPre, StepCandidate, StepResult, AuditPath, NextAuditTargetIdx;
    var d := Dispatched(c, v.out.item.policyRev, v.out.item.incumbentId);
    var path := AuditPath(v.ctx.ladder, o.phiIdxAtCut);
    TakenWhenReady(v, c, after);
    TakesIsStep(v, c, after);
    AuditedStep(v.ctx, d, v.out);
    AuditedOriginOk(v.ctx.world, v.ctx.rev, v.ctx.ladder, c);
    AuditPathSpec(v.ctx.ladder, o.phiIdxAtCut);
    if k + 1 < |path| {
      assert path[k] < path[|path| - 1];
      NextTargetOnPath(v.ctx.ladder, o, path[k]);
      NextOnPath(path, k, NextAuditTargetIdx(c.auditOrigin, path[k], |v.ctx.ladder|));
    }
  }

  /** A cut that is audited leaves the candidate just audited. */
  lemma AuditStarts(ctx: StepContext, c: Candidate, out: WorkOutcome)
    requires StepPre(ctx, c, out) && !c.auditRequired
    ensures StepCandidate(ctx, c, out).auditRequired <==>
      && StepResult(ctx, c, out).EarlyInfeasible?
      && out.item.phiIdx + 1 >= CutLevel(ctx, StepResult(ctx, c, out).violatedJ)
      && ctx.shouldAudit(c.x, out.item.phi, ctx.rev)
    ensures StepCandidate(ctx, c, out).auditRequired ==>
      && JustAudited(ctx.ladder, StepCandidate(ctx, c, out))
      && StepCandidate(ctx, c, out).auditOrigin
         == Some(AuditOrigin(StepResult(ctx, c, out).violatedJ, ctx.ladder[out.item.phiIdx], out.item.phiIdx,
                             CollectPairedPhiIndices(ctx.ladder, out.item.phiIdx)))
  {
    hide Compute, CheapOk, CollectPairedPhiIndices, AuditPath, EarlyInfeasibleIn, CutLevel, Hopeless,
      NextAuditTargetIdx, TruthOf, IsTruthOf, FreshVerdict;
    VerdictCases(ctx, c, out);
    ResultIsSound(ctx, c, out);
    if StepCandidate(ctx, c, out).auditRequired {
      OriginOfCut(ctx, c, out);
      var o := StepCandidate(ctx, c, out).auditOrigin.value;
      AuditPathSpec(ctx.ladder, o.phiIdxAtCut);
      NextTargetOnPath(ctx.ladder, o, out.item.phiIdx);
      FirstOnPath(AuditPath(ctx.ladder, o.phiIdxAtCut), out.item.phiIdx,
                  NextAuditTargetIdx(Some(o), out.item.phiIdx, |ctx.ladder|));
    }
  }

  lemma FirstOnPath(path: seq<nat>, cut: nat, t: nat)
    requires Ascending(path) && path != [] && forall m :: m in path ==> cut < m
    requires t in path && forall m :: m in path && cut < m ==> t <= m
    ensures t == path[0]
  {
    assert path[0] in path;
  }

  // ---------------------------------------------------------------- histories as level sequences

  function LevelsOf(visits: seq<Visit>): (r: seq<nat>)
    ensures |r| == |visits| && forall i :: 0 <= i < |r| ==> r[i] == visits[i].out.item.phiIdx
  {
    seq(|visits|, i requires 0 <= i < |visits| => visits[i].out.item.phiIdx)
  }

  /** The levels of a whole history ascend strictly, so there are at most as many as rungs. */
  lemma HistoryAscends(w: World, rev: EnvRev, ladder: seq<Phi>, prune: PruneConfig,
                       states: seq<Candidate>, visits: seq<Visit>)
    requires History(w, rev, ladder, prune, states, visits)
    ensures Ascending(LevelsOf(visits)) && |visits| <= |ladder|
  {
    hide CandidateOk, Takes;
    AtMostOneVisitPerLevel(w, rev, ladder, prune, states, visits);
    var l := LevelsOf(visits);
    forall i, j | 0 <= i < j < |l|
      ensures l[i] < l[j]
    {
      LevelsAscendBetween(w, rev, ladder, prune, states, visits, i, j);
    }
  }

  lemma {:induction false} LevelsAscendBetween(w: World, rev: EnvRev, ladder: seq<Phi>, prune: PruneConfig,
                                               states: seq<Candidate>, visits: seq<Visit>, i: nat, j: nat)
    requires History(w, rev, ladder, prune, states, visits) && i < j < |visits|
    ensures visits[i].out.item.phiIdx < visits[j].out.item.phiIdx
    decreases j
  {
    hide CandidateOk, Takes;
    LevelsAscend(w, rev, ladder, prune, states, visits, j);
    if i < j - 1 {
      LevelsAscendBetween(w, rev, ladder, prune, states, visits, i, j - 1);
    }
  }

  /** The candidate is under audit since the visit `k` places before the last of `levels`: that visit was at
      the level of its cut, and the `k` visits since are the first `k` levels of the path of the cut. */
  ghost predicate AuditTrail(ladder: seq<Phi>, c: Candidate, levels: seq<nat>, k: nat) {
    && ladder != [] && c.auditOrigin.Some? && k < |levels|
    && var o := c.auditOrigin.value;
    && OnPath(ladder, o, c, k)
    && levels[|levels| - k - 1] == o.phiIdxAtCut
    && levels[|levels| - k..] == AuditPath(ladder, o.phiIdxAtCut)[..k]
  }

  lemma TrailStarts(v: Visit, c: Candidate, after: Candidate, levels: seq<nat>)
    requires CandidateOk(v.ctx.world, v.ctx.rev, v.ctx.ladder, c) && Takes(v, c, after)
    requires !c.auditRequired && after.auditRequired
    ensures AuditTrail(v.ctx.ladder, after, levels + [v.out.item.phiIdx], 0)
  {
    hide CandidateOk, Takes, StepPre, StepCandidate, StepResult, AuditPath, OnPath, CutLevel, CollectPairedPhiIndices;
    var d := Dispatched(c, v.out.item.policyRev, v.out.item.incumbentId);
    TakesIsStep(v, c, after);
    AuditStarts(v.ctx, d, v.out);
    TakesAdvances(v, c, after);
    StartsOnPath(v.ctx.world, v.ctx.rev, v.ctx.ladder, after);
    assert (levels + [v.out.item.phiIdx])[|levels| + 1..] == [];
  }

  lemma TrailGoesOn(v: Visit, c: Candidate, after: Candidate, levels: seq<nat>, k: nat)
    requires CandidateOk(v.ctx.world, v.ctx.rev, v.ctx.ladder, c) && Takes(v, c, after)
    requires v.ctx.prune.disableForAudit && AuditTrail(v.ctx.ladder, c, levels, k)
    ensures AuditTrail(v.ctx.ladder, after, levels + [v.out.item.phiIdx], k + 1)
  {
    hide CandidateOk, Takes, AuditPath;
    var o := c.auditOrigin.value;
    var path, more := AuditPath(v.ctx.ladder, o.phiIdxAtCut), levels + [v.out.item.phiIdx];
    AuditedVisit(v, c, after, o, k);
    assert more[|more| - (k + 1)..] == levels[|levels| - k..] + [path[k]];
    assert path[..k + 1] == path[..k] + [path[k]];
  }

  /** With pruning off for audits, every history leaves the trail of its audit. */
  lemma {:induction false} AuditLeavesTrail(w: World, rev: EnvRev, ladder: seq<Phi>, prune: PruneConfig,
                                            states: seq<Candidate>, visits: seq<Visit>, n: nat) returns (k: nat)
    requires History(w, rev, ladder, prune, states, visits) && n <= |visits|
    requires prune.disableForAudit && !states[0].auditRequired
    ensures states[n].auditRequired ==> AuditTrail(ladder, states[n], LevelsOf(visits[..n]), k)
  {
    hide CandidateOk, Takes, AuditTrail;
    k := 0;
    if n > 0 {
      var before := AuditLeavesTrail(w, rev, ladder, prune, states, visits, n - 1);
      HistoryInOrder(w, rev, ladder, prune, states, visits, n - 1);
      var v, levels := visits[n - 1], LevelsOf(visits[..n - 1]);
      assert Takes(visits[n - 1], states[n - 1], states[n - 1 + 1]);
      assert LevelsOf(visits[..n]) == levels + [v.out.item.phiIdx];
      if states[n - 1].auditRequired {
        k := before + 1;
        TrailGoesOn(v, states[n - 1], states[n], levels, before);
      } else if states[n].auditRequired {
        TrailStarts(v, states[n - 1], states[n], levels);
      }
    }
  }

  // ---------------------------------------------------------------- decisions and the policies behind them

  /** `r`, if it is a cut or a partial result, is what policy `pol` decides on its estimates at a rung with
      fidelity `phi`: that cut, or no cut. */
  ghost predicate PolicyMade(ladder: seq<Phi>, pol: Policy, phi: Phi, r: JobResult) {
    r.EarlyInfeasible? || r.Partial? ==>
      exists p :: 0 <= p < |ladder| && ladder[p] == phi
        && AllowedCut(pol, |ladder|, p, r.estimates) == if r.EarlyInfeasible? then Some(r.violatedJ) else None
  }

  /** `k` already stood for `r` in the decision cache that the run started from. */
  predicate FoundIn(start: DecisionMap, k: DecisionCacheKey, r: JobResult) {
    k in start && start[k] == r
  }

  /** Every stored cut and partial result was there at the start or was decided by the policy that its
      revision stood for. */
  ghost predicate MadeByPolicies(ladder: seq<Phi>, policies: map<nat, Policy>, start: DecisionMap, dc: DecisionMap) {
    forall k :: k in dc && (dc[k].EarlyInfeasible? || dc[k].Partial?) ==>
      FoundIn(start, k, dc[k])
      || (k.policyRev in policies && PolicyMade(ladder, policies[k.policyRev], k.phi, dc[k]))
  }

  /** The replayed decision of an outcome is one the current policy makes. */
  ghost predicate ReplaySound(ladder: seq<Phi>, pol: Policy, o: WorkOutcome) {
    o.cachedDecision.Some? ==> PolicyMade(ladder, pol, o.item.phi, o.cachedDecision.value)
  }

  /** The replayed decision of an outcome was there at the start. */
  predicate Inherited(start: DecisionMap, ladderLen: nat, o: WorkOutcome) {
    o.cachedDecision.Some? && FoundIn(start, DKey(o.item, ladderLen), o.cachedDecision.value)
  }

  /** Decisions read under the revision of the batch are the current policy's or were there at the start. */
  lemma ReplaysAreSound(w: World, ladder: seq<Phi>, policies: map<nat, Policy>, start: DecisionMap, dc: DecisionMap,
                        wi: WorkItem, o: WorkOutcome)
    requires w.ev.numObjectives >= 1 && MadeByPolicies(ladder, policies, start, dc)
    requires OutcomeOk(w, dc, wi, |ladder|, o) && wi.policyRev in policies
    ensures Inherited(start, |ladder|, o) || ReplaySound(ladder, policies[wi.policyRev], o)
  {
    hide Compute, PolicyMade;
    if o.cachedDecision.Some? && !o.cachedDecision.value.EarlyInfeasible? && !o.cachedDecision.value.Partial? {
      OtherResultsDecideNothing(ladder, policies[wi.policyRev], o.item.phi, o.cachedDecision.value);
    }
  }

  lemma OtherResultsDecideNothing(ladder: seq<Phi>, pol: Policy, phi: Phi, r: JobResult)
    requires !r.EarlyInfeasible? && !r.Partial?
    ensures PolicyMade(ladder, pol, phi, r)
  {
  }

  lemma BatchKeepsPolicies(w: World, ladder: seq<Phi>, policies: map<nat, Policy>, start: DecisionMap, dc: DecisionMap,
                           items: seq<WorkItem>, ladderLen: nat)
    requires w.ev.numObjectives >= 1 && MadeByPolicies(ladder, policies, start, dc)
    ensures MadeByPolicies(ladder, policies, start, DecisionAfterBatch(w, dc, items, ladderLen))
  {
    hide Compute, PolicyMade, DKey, EKey;
    var gain := DecisionGain(w, dc, items, ladderLen, UpTo(|items|));
    forall k | k in gain
      ensures !gain[k].EarlyInfeasible? && !gain[k].Partial?
    {
      var i :| i in UpTo(|items|) && i < |items| && DKey(items[i], ladderLen) == k && Compute(w, EKey(items[i])).None?;
      GainedKeyIsInvalid(w, dc, items, ladderLen, UpTo(|items|), i);
    }
  }

  /** On distinct rungs the level at which a replayed decision was made is that of the item. */
  lemma ReplayedAtItsLevel(ladder: seq<Phi>, pol: Policy, p: nat, r: JobResult)
    requires Distinct(ladder) && p < |ladder| && PolicyMade(ladder, pol, ladder[p], r)
    requires r.EarlyInfeasible? || r.Partial?
    ensures AllowedCut(pol, |ladder|, p, r.estimates) == if r.EarlyInfeasible? then Some(r.violatedJ) else None
  {
    hide AllowedCut;
    var q :| 0 <= q < |ladder| && ladder[q] == ladder[p]
             && AllowedCut(pol, |ladder|, q, r.estimates) == if r.EarlyInfeasible? then Some(r.violatedJ) else None;
    assert q == p;
  }

  /** The cut names the first constraint that satisfies the margin inequality, at a level where the
      assignment allows it. */
  ghost predicate JustifiedCut(pol: Policy, ladderLen: nat, phiIdx: nat, r: JobResult) {
    && r.EarlyInfeasible? && Exceeds(r.estimates, pol.th, r.violatedJ)
    && (forall j :: 0 <= j < r.violatedJ ==> !Exceeds(r.estimates, pol.th, j))
    && phiIdx + 1 >= GetOr(pol.assignment, r.violatedJ, ladderLen)
  }

  /** On distinct rungs the justified cuts are those that the policy makes. */
  lemma JustifiedIffMade(ladder: seq<Phi>, pol: Policy, p: nat, r: JobResult)
    requires Distinct(ladder) && p < |ladder| && r.EarlyInfeasible?
    ensures JustifiedCut(pol, |ladder|, p, r) <==> PolicyMade(ladder, pol, ladder[p], r)
  {
    hide Exceeds, EarlyInfeasibleIn;
    EarlyInfeasibleSpec(r.estimates, pol.th);
    if PolicyMade(ladder, pol, ladder[p], r) {
      ReplayedAtItsLevel(ladder, pol, p, r);
    }
  }

  lemma ReplayedCut(ctx: StepContext, c: Candidate, out: WorkOutcome)
    requires StepPre(ctx, c, out) && out.cachedDecision.Some?
    ensures StepResult(ctx, c, out).EarlyInfeasible? ==> StepResult(ctx, c, out) == out.cachedDecision.value
  {
    hide Compute, CheapOk, CandidateOk, IsTruthOf, IsPartialOf;
  }

  /** Replayed or fresh, a cut is justified under the policy of the batch. */
  lemma CutsAreJustified(ctx: StepContext, c: Candidate, out: WorkOutcome)
    requires StepPre(ctx, c, out) && Distinct(ctx.ladder)
    requires ReplaySound(ctx.ladder, ctx.policy, out)
    ensures var r := StepResult(ctx, c, out);
      r.EarlyInfeasible? ==> JustifiedCut(ctx.policy, |ctx.ladder|, out.item.phiIdx, r)
  {
    hide Compute, CheapOk, EarlyInfeasibleIn, Hopeless, Exceeds, TruthOf, OutcomeSound, CandidateOk, PolicyMade;
    var r := StepResult(ctx, c, out);
    VerdictCases(ctx, c, out);
    ResultIsSound(ctx, c, out);
    if r.EarlyInfeasible? {
      EarlyInfeasibleSpec(r.estimates, ctx.policy.th);
      if out.cachedDecision.Some? {
        ReplayedAtItsLevel(ctx.ladder, ctx.policy, out.item.phiIdx, r);
      }
    }
  }

  /** What a step stores is decided by its policy. */
  lemma StepKeepsPolicies(ctx: StepContext, c: Candidate, out: WorkOutcome, policies: map<nat, Policy>,
                          start: DecisionMap, dc: DecisionMap)
    requires StepPre(ctx, c, out) && MadeByPolicies(ctx.ladder, policies, start, dc)
    requires ctx.policyRev in policies && policies[ctx.policyRev] == ctx.policy
    ensures var stored := Stored(ctx, c, out, StepVerdict(ctx, c, out), StepResult(ctx, c, out), dc);
      MadeByPolicies(ctx.ladder, policies, start, stored)
  {
    hide Compute, CheapOk, Hopeless, TruthOf, OutcomeSound, CandidateOk, AllowedCut;
    var r := StepResult(ctx, c, out);
    VerdictCases(ctx, c, out);
    ResultIsSound(ctx, c, out);
    assert out.cachedDecision.None? ==> PolicyMade(ctx.ladder, ctx.policy, out.item.phi, r);
  }

  // ---------------------------------------------------------------- replaying instead of evaluating

  /** Decision-cache transparency, exactly: on a cache of the run's own decisions, replaying a stored
      decision and evaluating the item afresh lead to the same verdict, if and only if the stored decision
      is not a partial result that the incumbent of the moment makes hopeless. */
  lemma ReplayAgreesIff(ctx: StepContext, c: Candidate, replay: WorkOutcome, anew: WorkOutcome)
    requires StepPre(ctx, c, replay) && StepPre(ctx, c, anew) && replay.item == anew.item
    requires replay.cachedDecision.Some? && anew.cachedDecision.None?
    requires Distinct(ctx.ladder) && ReplaySound(ctx.ladder, ctx.policy, replay)
    ensures var r := replay.cachedDecision.value;
      StepVerdict(ctx, c, replay) == StepVerdict(ctx, c, anew)
      <==> !(r.Partial? && Hopeless(ctx, c.auditRequired, replay.item.phiIdx, r.estimates))
  {
    hide Compute, CheapOk, Hopeless, AllowedCut, TruthOf, CandidateOk, PolicyMade, IsTruthOf;
    var r := replay.cachedDecision.value;
    VerdictCases(ctx, c, replay);
    VerdictCases(ctx, c, anew);
    ResultIsSound(ctx, c, replay);
    if r.EarlyInfeasible? || r.Partial? {
      ReplayedAtItsLevel(ctx.ladder, ctx.policy, replay.item.phiIdx, r);
    }
  }
}
