/** One fidelity step of one candidate: what the engine concludes from an executed work item, how the
    candidate moves, and what is stored for later. */
module Lifecycle {
  import opened Types
  import opened Sorting
  import opened Ladder
  import opened Margin
  import opened Executor
  import opened Calibration

  datatype AuditOrigin = AuditOrigin(violatedJ: nat, phiAtCut: Phi, phiIdxAtCut: nat, pairedPhiIndices: seq<nat>)

  datatype CandidateStatus =
    | Ready
    | InFlight(phiIdx: nat)
    | DoneRejectedCheap
    | DoneRejectedInvalidEval
    | DoneEarlyInfeasible(violatedJ: nat, atPhiIdx: nat)
    | DoneStoppedPartial(atPhiIdx: nat)
    | DoneTruth

  datatype Candidate = Candidate(
    id: nat,
    x: XMesh,
    nextPhiIdx: nat,
    lastEstimatesPhiIdx: Option<nat>,
    lastEstimates: Option<Estimates>,
    auditRequired: bool,
    auditOrigin: Option<AuditOrigin>,
    auditCutEstimates: Option<Estimates>,
    cheapChecked: bool,
    cheapOk: bool,
    submittedPolicyRev: nat,
    submittedIncumbentId: nat,
    status: CandidateStatus)

  /** The state in which proposals and poll points enter the store. */
  function NewCandidate(id: nat, x: XMesh, policyRev: nat, incumbentId: nat): Candidate {
    Candidate(id, x, 0, None, None, false, None, None, false, false, policyRev, incumbentId, Ready)
  }

  /** What decides cuts: the thresholds and the level from which each constraint may cut. */
  datatype Policy = Policy(th: Thresholds, assignment: seq<nat>)

  /** What a step reads besides the candidate and its outcome. */
  datatype StepContext = StepContext(
    world: World,
    rev: EnvRev,
    ladder: seq<Phi>,
    policy: Policy,
    policyRev: nat,
    bestF: Option<Objectives>,
    prune: PruneConfig,
    shouldAudit: (XMesh, Phi, EnvRev) -> bool)

  datatype MaterializedJob = MaterializedJob(
    result: JobResult, audited: bool, auditOf: Option<AuditOf>, pairedSample: Option<PairedAuditSample>)

  // ---------------------------------------------------------------- audits

  /** The indices of an origin ascend, so the source's binary search is membership. */
  predicate IsPairedCheckpoint(origin: Option<AuditOrigin>, phiIdx: nat) {
    origin.Some? && phiIdx in origin.value.pairedPhiIndices
  }

  function NextAuditTargetIdx(origin: Option<AuditOrigin>, current: nat, ladderLen: nat): nat {
    if ladderLen == 0 then 0
    else
      match if origin.Some? then FirstAbove(origin.value.pairedPhiIndices, current) else None
      case Some(idx) => idx
      case None => ladderLen - 1
  }

  function AuditOfOrigin(origin: Option<AuditOrigin>): Option<AuditOf> {
    match origin
    case Some(o) => Some(AuditOf(o.violatedJ, o.phiAtCut, o.phiIdxAtCut))
    case None => None
  }

  function PairedSampleOf(origin: Option<AuditOrigin>, phiIdx: nat, phi: Phi,
                          est: Estimates): Option<PairedAuditSample> {
    if IsPairedCheckpoint(origin, phiIdx) then Some(PairedAuditSample(phi, phiIdx, est)) else None
  }

  function CachedTruthEstimates(phi: Phi, f: Objectives, c: seq<real>): Estimates {
    Estimates(f, Fill(|f|, 0.0), c, Fill(|c|, 0.0), phi, phi.tau as real, |f|)
  }

  // ---------------------------------------------------------------- truth

  predicate AllSatisfied(c: seq<real>) {
    forall j :: 0 <= j < |c| ==> c[j] <= 0.0
  }

  /** The largest constraint violation. */
  function Violation(c: seq<real>): real {
    if c == [] then 0.0 else Max(Violation(c[..|c| - 1]), Max(c[|c| - 1], 0.0))
  }

  /** The violation is zero exactly for feasible points; otherwise it is the largest constraint value. */
  lemma {:induction false} ViolationSpec(c: seq<real>)
    ensures Violation(c) >= 0.0
    ensures Violation(c) == 0.0 <==> AllSatisfied(c)
    ensures forall j :: 0 <= j < |c| ==> c[j] <= Violation(c)
    ensures Violation(c) > 0.0 ==> Violation(c) in c
  {
    if c != [] {
      var d := c[..|c| - 1];
      assert c == d + [c[|c| - 1]];
      ViolationSpec(d);
      assert AllSatisfied(c) <==> AllSatisfied(d) && c[|c| - 1] <= 0.0;
    }
  }

  function TruthOf(e: Estimates, meta: EvalMeta): JobResult {
    Truth(e.fHat, e.cHat, AllSatisfied(e.cHat), Violation(e.cHat), meta)
  }

  // ---------------------------------------------------------------- the step, as a verdict and its consequences

  datatype Verdict = Unevaluable | CheaplyRejected | Cut(j: nat) | Stopped | Continued | Final

  predicate CheapPasses(ctx: StepContext, c: Candidate) {
    if c.cheapChecked then c.cheapOk else CheapOk(ctx.world, c.x, ctx.rev)
  }

  /** The item is on the ladder, and the estimates of an undecided outcome exist once the cheap gate
      has passed: the source unwraps them. */
  predicate Materializable(ctx: StepContext, c: Candidate, out: WorkOutcome) {
    && out.item.phiIdx < |ctx.ladder|
    && (out.cachedDecision.None? && CheapPasses(ctx, c) ==> out.estimates.Some?)
  }

  predicate Hopeless(ctx: StepContext, audited: bool, phiIdx: nat, est: Estimates) {
    && ctx.bestF.Some?
    && ObjectivePruningAllowed(phiIdx, ctx.ladder, audited, ctx.prune)
    && ObjectiveBounds(est, ctx.policy.th).0 >= ctx.bestF.value[0] - ctx.policy.th.epsF
  }

  /** The first level at which constraint `j` may cut, counted from one. */
  function CutLevel(ctx: StepContext, j: nat): nat {
    GetOr(ctx.policy.assignment, j, |ctx.ladder|)
  }

  /** The cut that a policy makes on estimates at a level, if any. */
  function AllowedCut(pol: Policy, ladderLen: nat, phiIdx: nat, est: Estimates): Option<nat> {
    match EarlyInfeasibleIn(est, pol.th)
    case Some(j) => if phiIdx + 1 >= GetOr(pol.assignment, j, ladderLen) then Some(j) else None
    case None => None
  }

  function FreshVerdict(ctx: StepContext, audited: bool, phiIdx: nat, est: Estimates): (v: Verdict)
    ensures v == Final <==> phiIdx + 1 == |ctx.ladder|
    ensures v != Unevaluable && v != CheaplyRejected
  {
    if phiIdx + 1 == |ctx.ladder| then Final
    else
      match AllowedCut(ctx.policy, |ctx.ladder|, phiIdx, est)
      case Some(j) => Cut(j)
      case None => if Hopeless(ctx, audited, phiIdx, est) then Stopped else Continued
  }

  function CachedVerdict(r: JobResult): Verdict {
    match r
    case RejectedCheap(_) => CheaplyRejected
    case RejectedInvalidEval(_) => Unevaluable
    case EarlyInfeasible(j, _, _) => Cut(j)
    case Partial(_, _) => Continued
    case Truth(_, _, _, _, _) => Final
  }

  function VerdictOf(ctx: StepContext, c: Candidate, out: WorkOutcome): Verdict
    requires Materializable(ctx, c, out)
  {
    if out.cachedDecision.Some? then CachedVerdict(out.cachedDecision.value)
    else if !c.cheapChecked && ToReal(ctx.world, c.x, ctx.rev.baseSteps).None? then Unevaluable
    else if !CheapPasses(ctx, c) then CheaplyRejected
    else FreshVerdict(ctx, c.auditRequired, out.item.phiIdx, out.estimates.value)
  }

  /** The estimates a step leaves on the candidate for scoring; a replayed truth leaves none. */
  function KeptEstimates(out: WorkOutcome): Option<Estimates> {
    match out.cachedDecision
    case None => out.estimates
    case Some(EarlyInfeasible(_, est, _)) => Some(est)
    case Some(Partial(est, _)) => Some(est)
    case Some(_) => None
  }

  function ResultOf(ctx: StepContext, out: WorkOutcome, verdict: Verdict): JobResult
    requires out.cachedDecision.None? && verdict != Unevaluable && verdict != CheaplyRejected ==> out.estimates.Some?
  {
    if out.cachedDecision.Some? then out.cachedDecision.value
    else
      var meta := EvalMeta(out.item.phi, out.item.envRev, ctx.policyRev, out.runtimeCost);
      match verdict
      case Unevaluable => RejectedInvalidEval(meta.(runtimeCost := 0.0))
      case CheaplyRejected => RejectedCheap(meta.(runtimeCost := 0.0))
      case Cut(j) => EarlyInfeasible(j, out.estimates.value, meta)
      case Stopped => Partial(out.estimates.value, meta)
      case Continued => Partial(out.estimates.value, meta)
      case Final => TruthOf(out.estimates.value, meta)
  }

  /** The candidate after its cheap check and with the estimates of the step. */
  function Noticed(ctx: StepContext, c: Candidate, out: WorkOutcome, verdict: Verdict): Candidate {
    var checked :=
      if out.cachedDecision.Some? || c.cheapChecked then c
      else if verdict == Unevaluable then c.(cheapChecked := true)
      else c.(cheapChecked := true, cheapOk := CheapOk(ctx.world, c.x, ctx.rev));
    if verdict == Unevaluable || verdict == CheaplyRejected || KeptEstimates(out).None? then checked
    else checked.(lastEstimates := KeptEstimates(out), lastEstimatesPhiIdx := Some(out.item.phiIdx))
  }

  /** A cut at a level the assignment allows may be turned into an audit. */
  predicate StartsAudit(ctx: StepContext, c: Candidate, out: WorkOutcome, j: nat) {
    && !c.auditRequired
    && out.item.phiIdx + 1 >= CutLevel(ctx, j)
    && ctx.shouldAudit(c.x, out.item.phi, out.item.envRev)
  }

  function CutPhi(out: WorkOutcome): Phi {
    if out.cachedDecision.Some? then out.cachedDecision.value.meta.phi else out.item.phi
  }

  function Audited(ctx: StepContext, c: Candidate, out: WorkOutcome, j: nat): Candidate {
    if StartsAudit(ctx, c, out, j) then
      c.(auditRequired := true,
         auditCutEstimates := KeptEstimates(out),
         auditOrigin := Some(AuditOrigin(j, CutPhi(out), out.item.phiIdx,
                                         CollectPairedPhiIndices(ctx.ladder, out.item.phiIdx))))
    else c
  }

  function ReadyAt(c: Candidate, phiIdx: nat): Candidate {
    c.(nextPhiIdx := phiIdx, status := Ready)
  }

  /** Where a result takes a candidate, whether it was just reached or replayed from the cache. */
  function Transitioned(c: Candidate, phiIdx: nat, result: JobResult, ladderLen: nat): Candidate {
    match result
    case RejectedCheap(_) => c.(status := DoneRejectedCheap)
    case RejectedInvalidEval(_) => c.(status := DoneRejectedInvalidEval)
    case EarlyInfeasible(j, _, _) =>
      if c.auditRequired then ReadyAt(c, NextAuditTargetIdx(c.auditOrigin, phiIdx, ladderLen))
      else c.(status := DoneEarlyInfeasible(j, phiIdx))
    case Partial(_, _) =>
      if phiIdx + 1 >= ladderLen then c.(status := DoneTruth)
      else ReadyAt(c, if c.auditRequired then NextAuditTargetIdx(c.auditOrigin, phiIdx, ladderLen) else phiIdx + 1)
    case Truth(_, _, _, _, _) => c.(status := DoneTruth)
  }

  function CandidateAfter(ctx: StepContext, c: Candidate, out: WorkOutcome, verdict: Verdict,
                          result: JobResult): Candidate {
    var d := Noticed(ctx, c, out, verdict);
    if verdict == Stopped then d.(status := DoneStoppedPartial(out.item.phiIdx))
    else
      var a := if verdict.Cut? then Audited(ctx, d, out, verdict.j) else d;
      Transitioned(a, out.item.phiIdx, result, |ctx.ladder|)
  }

  function JobOf(after: Candidate, out: WorkOutcome, verdict: Verdict, result: JobResult): MaterializedJob {
    var p := out.item.phiIdx;
    match verdict
    case Cut(_) =>
      if after.auditRequired && KeptEstimates(out).Some? then
        MaterializedJob(result, true, AuditOfOrigin(after.auditOrigin),
                        PairedSampleOf(after.auditOrigin, p, CutPhi(out), KeptEstimates(out).value))
      else MaterializedJob(result, false, None, None)
    case Continued =>
      MaterializedJob(result, after.auditRequired, AuditOfOrigin(after.auditOrigin),
                      if KeptEstimates(out).Some? then
                        PairedSampleOf(after.auditOrigin, p, CutPhi(out), KeptEstimates(out).value)
                      else None)
    case Final =>
      MaterializedJob(result, false, None,
                      if result.Truth? then
                        PairedSampleOf(after.auditOrigin, p, CutPhi(out),
                                       if out.estimates.Some? && out.cachedDecision.None? then out.estimates.value
                                       else CachedTruthEstimates(result.meta.phi, result.f, result.c))
                      else None)
    case _ => MaterializedJob(result, false, None, None)
  }

  /** What a fresh verdict stores for later; a replayed one stores nothing. */
  function Stored(ctx: StepContext, c: Candidate, out: WorkOutcome, verdict: Verdict, result: JobResult,
                  dc: DecisionMap): DecisionMap {
    if out.cachedDecision.Some? then dc
    else
      var tag :=
        if verdict == Unevaluable || verdict == CheaplyRejected then CheapTag
        else TagFor(out.item.phiIdx, |ctx.ladder|);
      dc[DecisionCacheKey(c.x, out.item.phi, out.item.envRev, ctx.policyRev, tag) := result]
  }

  /** The step as a whole. */
  ghost predicate StepOk(ctx: StepContext, c: Candidate, out: WorkOutcome, dc: DecisionMap,
                         after: Candidate, job: MaterializedJob, dcAfter: DecisionMap)
    requires Materializable(ctx, c, out)
  {
    var verdict := VerdictOf(ctx, c, out);
    var result := ResultOf(ctx, out, verdict);
    && after == CandidateAfter(ctx, c, out, verdict, result)
    && job == JobOf(after, out, verdict, result)
    && dcAfter == Stored(ctx, c, out, verdict, result, dc)
  }

  // ---------------------------------------------------------------- the step, as the engine takes it

  /** The result lets the candidate go on: a cut under audit, or a partial result below the last level. */
  predicate Resumes(cand: Candidate, phiIdx: nat, result: JobResult, ladderLen: nat) {
    (result.EarlyInfeasible? && cand.auditRequired) || (result.Partial? && phiIdx + 1 < ladderLen)
  }

  /** The checkpoints of the audit, if there is one, ascend and lie on the ladder. */
  ghost predicate OrderedOrigin(origin: Option<AuditOrigin>, ladderLen: nat) {
    origin.Some? ==>
      Ascending(origin.value.pairedPhiIndices) && forall k :: k in origin.value.pairedPhiIndices ==> k < ladderLen
  }

  /** Where a transition leads. Nothing but status and next level moves. The candidate stays ready exactly
      when its result lets it go on, and then it moves strictly up the ladder exactly when it is not
      already at the last level; an audited one skips none of its checkpoints, another one no level. */
  lemma TransitionMeans(cand: Candidate, phiIdx: nat, result: JobResult, ladderLen: nat)
    requires phiIdx < ladderLen && OrderedOrigin(cand.auditOrigin, ladderLen)
    ensures var c := Transitioned(cand, phiIdx, result, ladderLen);
      && c == cand.(status := c.status, nextPhiIdx := c.nextPhiIdx)
      && (c.status == Ready <==> Resumes(cand, phiIdx, result, ladderLen))
      && (c.status != Ready ==> c.nextPhiIdx == cand.nextPhiIdx && !c.status.InFlight?)
      && (c.status == Ready ==> c.nextPhiIdx < ladderLen && (phiIdx < c.nextPhiIdx <==> phiIdx + 1 < ladderLen))
      && (c.status == Ready && cand.auditRequired && cand.auditOrigin.Some? ==>
            forall k :: k in cand.auditOrigin.value.pairedPhiIndices && phiIdx < k ==> c.nextPhiIdx <= k)
      && (c.status == Ready && !cand.auditRequired ==> c.nextPhiIdx == phiIdx + 1)
      && (c.status.DoneEarlyInfeasible? <==> result.EarlyInfeasible? && !cand.auditRequired)
      && (c.status.DoneTruth? <==> result.Truth? || (result.Partial? && phiIdx + 1 == ladderLen))
      && (c.status.DoneRejectedCheap? <==> result.RejectedCheap?)
      && (c.status.DoneRejectedInvalidEval? <==> result.RejectedInvalidEval?)
  {
    if cand.auditOrigin.Some? {
      FirstAboveSpec(cand.auditOrigin.value.pairedPhiIndices, phiIdx);
    }
  }

  method ApplyStateTransitionFromResult(cand: Candidate, phiIdx: nat, result: JobResult, ladderLen: nat)
    returns (c: Candidate)
    ensures c == Transitioned(cand, phiIdx, result, ladderLen)
    ensures phiIdx < ladderLen && OrderedOrigin(cand.auditOrigin, ladderLen) ==>
      && c == cand.(status := c.status, nextPhiIdx := c.nextPhiIdx)
      && (c.status == Ready <==> Resumes(cand, phiIdx, result, ladderLen))
      && (c.status == Ready ==> c.nextPhiIdx < ladderLen && (phiIdx < c.nextPhiIdx <==> phiIdx + 1 < ladderLen))
  {
    if phiIdx < ladderLen && OrderedOrigin(cand.auditOrigin, ladderLen) {
      TransitionMeans(cand, phiIdx, result, ladderLen);
    }
    c := cand;
    match result {
      case RejectedCheap(_) =>
        c := c.(status := DoneRejectedCheap);
      case RejectedInvalidEval(_) =>
        c := c.(status := DoneRejectedInvalidEval);
      case EarlyInfeasible(j, _, _) =>
        if c.auditRequired {
          c := c.(nextPhiIdx := NextAuditTargetIdx(c.auditOrigin, phiIdx, ladderLen));
          c := c.(status := Ready);
        } else {
          c := c.(status := DoneEarlyInfeasible(j, phiIdx));
        }
      case Partial(_, _) =>
        if phiIdx + 1 >= ladderLen {
          c := c.(status := DoneTruth);
        } else if c.auditRequired {
          c := c.(nextPhiIdx := NextAuditTargetIdx(c.auditOrigin, phiIdx, ladderLen));
          c := c.(status := Ready);
        } else {
          c := c.(nextPhiIdx := phiIdx + 1);
          c := c.(status := Ready);
        }
      case Truth(_, _, _, _, _) =>
        c := c.(status := DoneTruth);
    }
  }

  /** A decision-cache hit: the stored result is used, and the candidate moves coherently with it. */
  method MaterializeCached(ctx: StepContext, cand: Candidate, out: WorkOutcome)
    returns (c: Candidate, job: MaterializedJob)
    requires out.cachedDecision.Some? && Materializable(ctx, cand, out)
    ensures forall dc :: StepOk(ctx, cand, out, dc, c, job, dc)
  {
    hide CollectPairedPhiIndices, NextAuditTargetIdx, CheapOk, EarlyInfeasibleIn, ObjectivePruningAllowed,
      ObjectiveBounds,
      Fill;
    c := cand;
    var p := out.item.phiIdx;
    var cached := out.cachedDecision.value;
    match cached {
      case Partial(est, meta) =>
        c := c.(lastEstimates := Some(est), lastEstimatesPhiIdx := Some(p));
        var audited := c.auditRequired;
        var auditOf := AuditOfOrigin(c.auditOrigin);
        var sample := PairedSampleOf(c.auditOrigin, p, meta.phi, est);
        c := ApplyStateTransitionFromResult(c, p, cached, |ctx.ladder|);
        job := MaterializedJob(cached, audited, auditOf, sample);
      case EarlyInfeasible(j, est, meta) =>
        c := c.(lastEstimates := Some(est), lastEstimatesPhiIdx := Some(p));
        if !c.auditRequired && p + 1 >= CutLevel(ctx, j) {
          if ctx.shouldAudit(c.x, out.item.phi, out.item.envRev) {
            c := c.(auditRequired := true, auditCutEstimates := Some(est),
                    auditOrigin := Some(AuditOrigin(j, meta.phi, p, CollectPairedPhiIndices(ctx.ladder, p))));
          }
        }
        if c.auditRequired {
          var auditOf := AuditOfOrigin(c.auditOrigin);
          c := c.(nextPhiIdx := NextAuditTargetIdx(c.auditOrigin, p, |ctx.ladder|));
          c := c.(status := Ready);
          job := MaterializedJob(cached, true, auditOf, PairedSampleOf(c.auditOrigin, p, meta.phi, est));
        } else {
          c := c.(status := DoneEarlyInfeasible(j, p));
          job := MaterializedJob(cached, false, None, None);
        }
      case Truth(f, cs, _, _, meta) =>
        c := c.(status := DoneTruth);
        var sample := PairedSampleOf(c.auditOrigin, p, meta.phi, CachedTruthEstimates(meta.phi, f, cs));
        job := MaterializedJob(cached, false, None, sample);
      case RejectedCheap(_) =>
        c := c.(status := DoneRejectedCheap);
        job := MaterializedJob(cached, false, None, None);
      case RejectedInvalidEval(_) =>
        c := c.(status := DoneRejectedInvalidEval);
        job := MaterializedJob(cached, false, None, None);
    }
  }

  /** The sticky cheap gate; a point that cannot be converted is decided here. */
  method CheckCheap(ctx: StepContext, cand: Candidate) returns (c: Candidate, convertible: bool)
    ensures convertible <==> cand.cheapChecked || ToReal(ctx.world, cand.x, ctx.rev.baseSteps).Some?
    ensures c == if cand.cheapChecked then cand
                 else if convertible then cand.(cheapChecked := true, cheapOk := CheapOk(ctx.world, cand.x, ctx.rev))
                 else cand.(cheapChecked := true)
  {
    c := cand;
    convertible := true;
    if !c.cheapChecked {
      c := c.(cheapChecked := true);
      match ToReal(ctx.world, c.x, ctx.rev.baseSteps) {
        case Some(xr) => c := c.(cheapOk := ctx.world.ev.cheapConstraints(xr, ctx.rev.env));
        case None => convertible := false;
      }
    }
  }

  /** An undecided outcome below the last level: cut, audit, stop or go on. */
  method MaterializePartial(ctx: StepContext, cand: Candidate, out: WorkOutcome, est: Estimates, meta: EvalMeta)
    returns (c: Candidate, job: MaterializedJob)
    requires out.cachedDecision.None? && out.estimates == Some(est) && out.item.phiIdx + 1 < |ctx.ladder|
    requires meta == EvalMeta(out.item.phi, out.item.envRev, ctx.policyRev, out.runtimeCost)
    requires cand.lastEstimates == Some(est)
    ensures var verdict := FreshVerdict(ctx, cand.auditRequired, out.item.phiIdx, est);
      var result := ResultOf(ctx, out, verdict);
      && c == (if verdict == Stopped then cand.(status := DoneStoppedPartial(out.item.phiIdx))
               else Transitioned(if verdict.Cut? then Audited(ctx, cand, out, verdict.j) else cand,
                                 out.item.phiIdx, result, |ctx.ladder|))
      && job == JobOf(c, out, verdict, result)
  {
    hide CollectPairedPhiIndices, NextAuditTargetIdx, EarlyInfeasibleIn, ObjectivePruningAllowed, ObjectiveBounds;
    c := cand;
    var p, len := out.item.phiIdx, |ctx.ladder|;
    var violated := EarlyInfeasibleIn(est, ctx.policy.th);
    if violated.Some? {
      var j := violated.value;
      var aj := CutLevel(ctx, j);
      if p + 1 >= aj {
        if !c.auditRequired {
          if ctx.shouldAudit(c.x, out.item.phi, out.item.envRev) {
            c := c.(auditRequired := true, auditCutEstimates := Some(est),
                    auditOrigin := Some(AuditOrigin(j, out.item.phi, p, CollectPairedPhiIndices(ctx.ladder, p))));
          }
        }
        var jr := EarlyInfeasible(j, est, meta);
        if c.auditRequired {
          var auditOf := AuditOfOrigin(c.auditOrigin);
          c := c.(nextPhiIdx := NextAuditTargetIdx(c.auditOrigin, p, len));
          c := c.(status := Ready);
          job := MaterializedJob(jr, true, auditOf, PairedSampleOf(c.auditOrigin, p, out.item.phi, est));
          return;
        }
        c := c.(status := DoneEarlyInfeasible(j, p));
        job := MaterializedJob(jr, false, None, None);
        return;
      }
    }
    if ctx.bestF.Some? && ObjectivePruningAllowed(p, ctx.ladder, c.auditRequired, ctx.prune) {
      var (lcb, _) := ObjectiveBounds(est, ctx.policy.th);
      if lcb >= ctx.bestF.value[0] - ctx.policy.th.epsF {
        c := c.(status := DoneStoppedPartial(p));
        job := MaterializedJob(Partial(est, meta), false, None, None);
        return;
      }
    }
    c := c.(nextPhiIdx := if c.auditRequired then NextAuditTargetIdx(c.auditOrigin, p, len) else p + 1);
    c := c.(status := Ready);
    job := MaterializedJob(Partial(est, meta), c.auditRequired, AuditOfOrigin(c.auditOrigin),
                           PairedSampleOf(c.auditOrigin, p, out.item.phi, est));
  }

  /** Turns an executed work item into a result, moves the candidate and fills the decision cache. */
  method MaterializeJobResult(ctx: StepContext, cand: Candidate, out: WorkOutcome, dc: MemoryDecisionCache)
    returns (c: Candidate, job: MaterializedJob)
    requires Materializable(ctx, cand, out)
    modifies dc
    ensures StepOk(ctx, cand, out, old(dc.inner), c, job, dc.inner)
  {
    hide Audited, FreshVerdict, CutLevel, CollectPairedPhiIndices, NextAuditTargetIdx, ObjectivePruningAllowed,
      EarlyInfeasibleIn;
    if out.cachedDecision.Some? {
      c, job := MaterializeCached(ctx, cand, out);
      assert StepOk(ctx, cand, out, old(dc.inner), c, job, old(dc.inner));
      return;
    }
    var item := out.item;
    var convertible;
    c, convertible := CheckCheap(ctx, cand);
    if !convertible {
      c := c.(status := DoneRejectedInvalidEval);
      var jr := RejectedInvalidEval(EvalMeta(item.phi, item.envRev, ctx.policyRev, 0.0));
      dc.Put(DecisionCacheKey(cand.x, item.phi, item.envRev, ctx.policyRev, CheapTag), jr);
      job := MaterializedJob(jr, false, None, None);
      return;
    }
    if !c.cheapOk {
      c := c.(status := DoneRejectedCheap);
      var jr := RejectedCheap(EvalMeta(item.phi, item.envRev, ctx.policyRev, 0.0));
      dc.Put(DecisionCacheKey(cand.x, item.phi, item.envRev, ctx.policyRev, CheapTag), jr);
      job := MaterializedJob(jr, false, None, None);
      return;
    }
    var est := out.estimates.value;
    c := c.(lastEstimates := Some(est), lastEstimatesPhiIdx := Some(item.phiIdx));
    var meta := EvalMeta(item.phi, item.envRev, ctx.policyRev, out.runtimeCost);
    var key := DecisionCacheKey(c.x, item.phi, item.envRev, ctx.policyRev, TagFor(item.phiIdx, |ctx.ladder|));
    if item.phiIdx + 1 != |ctx.ladder| {
      c, job := MaterializePartial(ctx, c, out, est, meta);
      dc.Put(key, job.result);
    } else {
      c := c.(status := DoneTruth);
      var jr := Truth(est.fHat, est.cHat, AllSatisfied(est.cHat), Violation(est.cHat), meta);
      dc.Put(key, jr);
      job := MaterializedJob(jr, false, None, PairedSampleOf(c.auditOrigin, item.phiIdx, item.phi, est));
    }
  }
}
