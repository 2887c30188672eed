/** What a run of the engine records about itself, and the invariants of the record. The engine carries
    the record as ghost state only. */
module EngineLog {
  import opened Types
  import opened Mesh
  import opened Ladder
  import opened Margin
  import opened Acceptance
  import opened Executor
  import opened Lifecycle
  import opened StepLaws
  import opened Store

  /** One processed outcome: what the step read, the candidate before it, the outcome (with the work item,
      which names the candidate, its point, the level and the revision of the batch), the result, and
      whether it was accepted as the new best one. */
  datatype Decision = Decision(ctx: StepContext, cand: Candidate, out: WorkOutcome, result: JobResult, accepted: bool)
  {
    const policy := ctx.policy
    const item := out.item
  }

  function ItemsDecided(log: seq<Decision>): (r: seq<WorkItem>)
    ensures |r| == |log| && forall i :: 0 <= i < |r| ==> r[i] == log[i].item
  {
    seq(|log|, i requires 0 <= i < |log| => log[i].item)
  }

  /** The decision replays one that was there at the start. */
  predicate Replayed(start: DecisionMap, ladderLen: nat, d: Decision) {
    FoundIn(start, DKey(d.item, ladderLen), d.result)
  }

  /** The decision is a step of a candidate. */
  ghost predicate IsStep(w: World, rev: EnvRev, ladder: seq<Phi>, d: Decision) {
    && d.ctx.world == w && d.ctx.rev == rev && d.ctx.ladder == ladder
    && StepPre(d.ctx, d.cand, d.out) && d.out.item.candId == d.cand.id && d.result == StepResult(d.ctx, d.cand, d.out)
  }

  /** What every decision of every run satisfies. `start` is the decision cache that the run started
      from. */
  ghost predicate DecisionOk(w: World, rev: EnvRev, ladder: seq<Phi>, start: DecisionMap, d: Decision)
    requires w.ev.numObjectives >= 1
  {
    && d.item.phiIdx < |ladder| && d.item.phi == ladder[d.item.phiIdx]
    && IsStep(w, rev, ladder, d) && (d.accepted ==> d.result.Truth?)
    && var k := EvalCacheKey(d.item.x, ladder[d.item.phiIdx], rev);
    && (d.result.RejectedInvalidEval? <==> Compute(w, k).None?)
    && (d.result.RejectedCheap? <==> Compute(w, k).Some? && !CheapOk(w, d.item.x, rev))
    && (d.result.Truth? ==> d.item.phiIdx + 1 == |ladder| && IsTruthOf(w, k, d.result))
    && (d.result.Partial? || d.result.EarlyInfeasible? ==> d.item.phiIdx + 1 < |ladder| && IsPartialOf(w, k, d.result))
    && (Distinct(ladder) && d.result.EarlyInfeasible? ==>
          Replayed(start, |ladder|, d) || JustifiedCut(d.policy, |ladder|, d.item.phiIdx, d.result))
  }

  /** A step of the engine makes such a decision. */
  lemma StepDecides(ctx: StepContext, c: Candidate, out: WorkOutcome, start: DecisionMap, accepted: bool)
    requires StepPre(ctx, c, out) && out.item.candId == c.id && (accepted ==> StepResult(ctx, c, out).Truth?)
    requires Inherited(start, |ctx.ladder|, out) || ReplaySound(ctx.ladder, ctx.policy, out)
    ensures DecisionOk(ctx.world, ctx.rev, ctx.ladder, start,
                       Decision(ctx, c, out, StepResult(ctx, c, out), accepted))
  {
    hide Compute, CheapOk, StepResult, StepVerdict, Exceeds, CandidateOk, OutcomeSound, IsTruthOf, IsPartialOf,
      Distinct, ReplaySound, JustifiedCut, FoundIn;
    VerdictCases(ctx, c, out);
    ResultIsSound(ctx, c, out);
    ItemKey(ctx, c, out);
    if Inherited(start, |ctx.ladder|, out) {
      ReplayedCut(ctx, c, out);
    } else if Distinct(ctx.ladder) {
      CutsAreJustified(ctx, c, out);
    }
  }

  /** What the step method promises, in terms of the laws of steps. */
  lemma StepOkMeans(ctx: StepContext, c: Candidate, out: WorkOutcome, dc: DecisionMap,
                    after: Candidate, job: MaterializedJob, dcAfter: DecisionMap)
    requires StepPre(ctx, c, out) && Materializable(ctx, c, out)
    requires StepOk(ctx, c, out, dc, after, job, dcAfter)
    ensures after == StepCandidate(ctx, c, out) && job.result == StepResult(ctx, c, out)
    ensures job == JobOf(after, out, StepVerdict(ctx, c, out), StepResult(ctx, c, out))
    ensures dcAfter == Stored(ctx, c, out, StepVerdict(ctx, c, out), StepResult(ctx, c, out), dc)
  {
    hide StepPre, CandidateAfter, Stored, VerdictOf, ResultOf;
  }

  // ---------------------------------------------------------------- policies and their revisions

  /** The policies dispatched under so far, by revision; none is newer than the current revision, and
      the current one, if dispatched under, is the current policy. */
  ghost predicate RevisionsOk(policies: map<nat, Policy>, policyRev: nat, current: Policy) {
    && (forall r :: r in policies ==> r <= policyRev)
    && (policyRev in policies ==> policies[policyRev] == current)
  }

  ghost predicate LogOk(w: World, rev: EnvRev, ladder: seq<Phi>, start: DecisionMap, policies: map<nat, Policy>,
                        log: seq<Decision>)
    requires w.ev.numObjectives >= 1
  {
    forall i :: 0 <= i < |log| ==>
      && log[i].item.policyRev in policies && policies[log[i].item.policyRev] == log[i].policy
      && DecisionOk(w, rev, ladder, start, log[i])
  }

  /** Policy-revision soundness: decisions made under the same revision were made under identical
      thresholds and an identical assignment. */
  lemma SameRevisionSamePolicy(w: World, rev: EnvRev, ladder: seq<Phi>, start: DecisionMap, policies: map<nat, Policy>,
                               log: seq<Decision>, i: nat, j: nat)
    requires w.ev.numObjectives >= 1 && LogOk(w, rev, ladder, start, policies, log)
    requires i < |log| && j < |log| && log[i].item.policyRev == log[j].item.policyRev
    ensures log[i].policy == log[j].policy
  {
    hide DecisionOk;
  }

  /** The caches are in order, and so are the cuts and partial results the run has added. */
  ghost predicate CachesOk(w: World, ladder: seq<Phi>, start: DecisionMap, policies: map<nat, Policy>, ec: EvalMap,
                           dc: DecisionMap)
    requires w.ev.numObjectives >= 1
  {
    && CoherentEval(w, ec) && DecisionsOk(w, dc)
    && MadeByPolicies(ladder, policies, start, dc)
  }

  /** Recording the current policy under its revision contradicts nothing recorded before. */
  lemma PoliciesGrow(w: World, rev: EnvRev, ladder: seq<Phi>, start: DecisionMap, policies: map<nat, Policy>, r: nat,
                     p: Policy,
                     log: seq<Decision>, ec: EvalMap, dc: DecisionMap)
    requires w.ev.numObjectives >= 1
    requires r in policies ==> policies[r] == p
    requires LogOk(w, rev, ladder, start, policies, log) && CachesOk(w, ladder, start, policies, ec, dc)
    ensures LogOk(w, rev, ladder, start, policies[r := p], log)
    ensures CachesOk(w, ladder, start, policies[r := p], ec, dc)
  {
    hide DecisionOk, CoherentEval, DecisionsOk, PolicyMade;
  }

  lemma LogGrows(w: World, rev: EnvRev, ladder: seq<Phi>, start: DecisionMap, policies: map<nat, Policy>,
                 log: seq<Decision>, d: Decision)
    requires w.ev.numObjectives >= 1 && LogOk(w, rev, ladder, start, policies, log)
    requires d.item.policyRev in policies && policies[d.item.policyRev] == d.policy
    requires DecisionOk(w, rev, ladder, start, d)
    ensures LogOk(w, rev, ladder, start, policies, log + [d])
  {
    hide DecisionOk;
  }

  // ---------------------------------------------------------------- the best point so far

  /** The best point, its objectives, and how many there have been. */
  datatype Best = Best(x: Option<XMesh>, f: Option<Objectives>, count: nat)

  /** The best point after a log: that of the last accepted decision. */
  function BestOf(log: seq<Decision>): Best {
    if log == [] then Best(None, None, 0)
    else
      var before, d := BestOf(log[..|log| - 1]), log[|log| - 1];
      if d.accepted && d.result.Truth? then Best(Some(d.item.x), Some(d.result.f), before.count + 1) else before
  }

  /** Every step read the configuration of the run and the best objectives of its moment. */
  ghost predicate ContextsOk(prune: PruneConfig, shouldAudit: (XMesh, Phi, EnvRev) -> bool, log: seq<Decision>) {
    forall i :: 0 <= i < |log| ==>
      && log[i].ctx.prune == prune && log[i].ctx.shouldAudit == shouldAudit && log[i].ctx.bestF == BestOf(log[..i]).f
  }

  lemma OneMoreContext(prune: PruneConfig, shouldAudit: (XMesh, Phi, EnvRev) -> bool, log: seq<Decision>, d: Decision)
    requires ContextsOk(prune, shouldAudit, log)
    requires d.ctx.prune == prune && d.ctx.shouldAudit == shouldAudit && d.ctx.bestF == BestOf(log).f
    ensures ContextsOk(prune, shouldAudit, log + [d])
    ensures BestOf(log + [d]) == if d.accepted && d.result.Truth? then
                                   Best(Some(d.item.x), Some(d.result.f), BestOf(log).count + 1)
                                 else BestOf(log)
  {
    hide BestOf;
    var more := log + [d];
    assert more[..|log|] == log && more[|log|] == d;
    assert forall i :: 0 <= i < |log| ==> more[..i] == log[..i] && more[i] == log[i];
    LastDecides(more);
  }

  lemma LastDecides(log: seq<Decision>)
    requires log != []
    ensures var before, d := BestOf(log[..|log| - 1]), log[|log| - 1];
      BestOf(log) == if d.accepted && d.result.Truth? then Best(Some(d.item.x), Some(d.result.f), before.count + 1)
                     else before
  {
  }

  /** Which results were accepted. */
  ghost function Acceptances(ops: seq<Op>, cfg: AcceptanceConfig): seq<bool> {
    if ops == [] then []
    else
      var init, op := ops[..|ops| - 1], ops[|ops| - 1];
      if op.Result? then Acceptances(init, cfg) + [Accepts(Run(init, cfg), op.f, op.v, cfg)] else Acceptances(init, cfg)
  }

  /** Which truths of a log were accepted. */
  function AcceptedTruths(log: seq<Decision>): seq<bool> {
    if log == [] then []
    else
      var r, d := AcceptedTruths(log[..|log| - 1]), log[|log| - 1];
      if d.result.Truth? then r + [d.accepted] else r
  }

  function Primary(f: Option<Objectives>): Option<real> {
    match f case None => None case Some(fs) => Some(fs[0])
  }

  /** The objectives of the violation-free truths of a log. */
  ghost function FreeObjectives(log: seq<Decision>): seq<real> {
    if log == [] then []
    else
      var r, d := FreeObjectives(log[..|log| - 1]), log[|log| - 1].result;
      if d.Truth? && d.v == 0.0 then r + [d.f[0]] else r
  }

  /** The truths of a log, as acceptance sees them. */
  ghost function TruthPoints(log: seq<Decision>): seq<FilterPoint> {
    if log == [] then []
    else
      var r, d := TruthPoints(log[..|log| - 1]), log[|log| - 1].result;
      if d.Truth? then r + [FilterPoint(d.f[0], d.v)] else r
  }

  /** The results among the operations. */
  ghost function ResultsOf(ops: seq<Op>): seq<FilterPoint> {
    if ops == [] then []
    else
      var r, op := ResultsOf(ops[..|ops| - 1]), ops[|ops| - 1];
      if op.Result? then r + [FilterPoint(op.f, op.v)] else r
  }

  /** What passed the barrier are results. */
  lemma {:induction false} PassedAreResults(ops: seq<Op>, cfg: AcceptanceConfig)
    ensures forall p :: p in Passed(ops, cfg) ==> p in ResultsOf(ops)
  {
    if ops != [] {
      PassedAreResults(ops[..|ops| - 1], cfg);
    }
  }

  predicate ZeroBarrier(cfg: AcceptanceConfig) {
    cfg.h0 <= 0.0 && cfg.hMin <= 0.0
  }

  /** `x` is the point of a processed truth with objectives `f`, free of violation if nothing else is
      admitted. */
  ghost predicate FromLog(cfg: AcceptanceConfig, log: seq<Decision>, x: XMesh, f: Objectives) {
    exists i :: 0 <= i < |log| && log[i].item.x == x && log[i].result.Truth? && log[i].result.f == f
                && (ZeroBarrier(cfg) ==> log[i].result.v == 0.0)
  }

  /** The acceptance state is the one its operations lead to, these are the truths of the log in
      order, and the best point is the last accepted one. */
  ghost predicate BestOk(cfg: AcceptanceConfig, ops: seq<Op>, log: seq<Decision>, s: AcceptState,
                         xBest: Option<XMesh>, fBest: Option<Objectives>)
  {
    && s == Run(ops, cfg)
    && ResultsOf(ops) == TruthPoints(log) && Acceptances(ops, cfg) == AcceptedTruths(log)
    && ViolationFree(ops) == FreeObjectives(log)
    && (forall i :: 0 <= i < |ops| && ops[i].Result? ==> ops[i].v >= 0.0)
    && LastAccepted(ops, cfg) == Primary(fBest)
    && (xBest.None? <==> fBest.None?)
    && (fBest.Some? ==> FromLog(cfg, log, xBest.value, fBest.value))
  }

  lemma MoreFromLog(cfg: AcceptanceConfig, log: seq<Decision>, d: Decision, x: XMesh, f: Objectives)
    requires FromLog(cfg, log, x, f)
    ensures FromLog(cfg, log + [d], x, f)
  {
    var i :| 0 <= i < |log| && log[i].item.x == x && log[i].result.Truth? && log[i].result.f == f
             && (ZeroBarrier(cfg) ==> log[i].result.v == 0.0);
    assert (log + [d])[i] == log[i];
  }

  lemma OneMoreOp(cfg: AcceptanceConfig, ops: seq<Op>, op: Op)
    ensures Run(ops + [op], cfg) == Apply(Run(ops, cfg), op, cfg)
    ensures ViolationFree(ops + [op])
         == if op.Result? && op.v == 0.0 then ViolationFree(ops) + [op.f] else ViolationFree(ops)
    ensures ResultsOf(ops + [op]) == if op.Result? then ResultsOf(ops) + [FilterPoint(op.f, op.v)] else ResultsOf(ops)
    ensures Acceptances(ops + [op], cfg)
         == if op.Result? then Acceptances(ops, cfg) + [Accepts(Run(ops, cfg), op.f, op.v, cfg)]
            else Acceptances(ops, cfg)
    ensures LastAccepted(ops + [op], cfg)
         == if op.Result? && Accepts(Run(ops, cfg), op.f, op.v, cfg) then Some(op.f) else LastAccepted(ops, cfg)
  {
    assert (ops + [op])[..|ops|] == ops;
  }

  lemma OneMoreDecision(log: seq<Decision>, d: Decision)
    ensures FreeObjectives(log + [d])
         == if d.result.Truth? && d.result.v == 0.0 then FreeObjectives(log) + [d.result.f[0]] else FreeObjectives(log)
    ensures AcceptedTruths(log + [d])
         == if d.result.Truth? then AcceptedTruths(log) + [d.accepted] else AcceptedTruths(log)
    ensures TruthPoints(log + [d])
         == if d.result.Truth? then TruthPoints(log) + [FilterPoint(d.result.f[0], d.result.v)] else TruthPoints(log)
  {
    assert (log + [d])[..|log|] == log;
  }

  /** A result other than a truth leaves the best point alone. */
  lemma BestAfterOther(cfg: AcceptanceConfig, ops: seq<Op>, log: seq<Decision>, s: AcceptState,
                       xBest: Option<XMesh>, fBest: Option<Objectives>, d: Decision)
    requires BestOk(cfg, ops, log, s, xBest, fBest) && !d.result.Truth?
    ensures BestOk(cfg, ops, log + [d], s, xBest, fBest)
  {
    hide FromLog, Run, ViolationFree, LastAccepted, ResultsOf, TruthPoints, Acceptances, AcceptedTruths;
    OneMoreDecision(log, d);
    if fBest.Some? {
      MoreFromLog(cfg, log, d, xBest.value, fBest.value);
    }
  }

  lemma BestAfterTruth(cfg: AcceptanceConfig, ops: seq<Op>, log: seq<Decision>, s: AcceptState,
                       xBest: Option<XMesh>, fBest: Option<Objectives>, d: Decision)
    requires BestOk(cfg, ops, log, s, xBest, fBest) && d.result.Truth? && d.result.v >= 0.0
    requires d.accepted == Accepts(s, d.result.f[0], d.result.v, cfg)
    ensures var r := d.result;
      var accepted := Accepts(s, r.f[0], r.v, cfg);
      BestOk(cfg, ops + [Result(r.f[0], r.v)], log + [d], Decided(s, r.f[0], r.v, cfg),
             if accepted then Some(d.item.x) else xBest, if accepted then Some(r.f) else fBest)
  {
    hide FromLog, Run, ViolationFree, LastAccepted, ResultsOf, TruthPoints, Acceptances, AcceptedTruths, Decided,
      Accepts, FreeObjectives, ZeroBarrier;
    var r := d.result;
    var op := Result(r.f[0], r.v);
    var accepted := Accepts(s, r.f[0], r.v, cfg);
    OneMoreDecision(log, d);
    OneMoreOp(cfg, ops, op);
    if accepted {
      AcceptedFromLog(cfg, ops, log, d);
    } else if fBest.Some? {
      MoreFromLog(cfg, log, d, xBest.value, fBest.value);
    }
    MoreNonNegative(ops, op);
    assert Run(ops + [op], cfg) == Decided(s, r.f[0], r.v, cfg);
  }

  lemma MoreNonNegative(ops: seq<Op>, op: Op)
    requires forall i :: 0 <= i < |ops| && ops[i].Result? ==> ops[i].v >= 0.0
    requires op.Result? ==> op.v >= 0.0
    ensures var more := ops + [op]; forall i :: 0 <= i < |more| && more[i].Result? ==> more[i].v >= 0.0
  {
  }

  lemma AcceptedFromLog(cfg: AcceptanceConfig, ops: seq<Op>, log: seq<Decision>, d: Decision)
    requires d.result.Truth? && d.result.v >= 0.0
    requires forall i :: 0 <= i < |ops| && ops[i].Result? ==> ops[i].v >= 0.0
    requires Accepts(Run(ops, cfg), d.result.f[0], d.result.v, cfg)
    ensures FromLog(cfg, log + [d], d.item.x, d.result.f)
  {
    if ZeroBarrier(cfg) {
      LastAcceptedNearOptimal(ops, cfg);
    }
    assert (log + [d])[|log|] == d;
  }

  /** An iteration end only tightens the barrier. */
  lemma BestAfterEnd(cfg: AcceptanceConfig, ops: seq<Op>, log: seq<Decision>, s: AcceptState,
                     xBest: Option<XMesh>, fBest: Option<Objectives>, polled: bool, improved: bool)
    requires BestOk(cfg, ops, log, s, xBest, fBest)
    ensures BestOk(cfg, ops + [IterationEnd(polled, improved)], log,
                   s.(h := if polled && !improved then Tightened(s.h, cfg) else s.h), xBest, fBest)
  {
    hide FromLog, Run, ViolationFree, LastAccepted, ResultsOf, TruthPoints, Acceptances, AcceptedTruths;
    OneMoreOp(cfg, ops, IterationEnd(polled, improved));
  }

  lemma {:induction false} FreeObjectivesMembers(log: seq<Decision>, g: real)
    ensures g in FreeObjectives(log) <==>
      exists i :: 0 <= i < |log| && log[i].result.Truth? && log[i].result.v == 0.0 && log[i].result.f[0] == g
  {
    if log != [] {
      var n := |log| - 1;
      var rest := log[..n];
      FreeObjectivesMembers(rest, g);
      assert forall i :: 0 <= i < n ==> rest[i] == log[i];
      if exists i :: 0 <= i < |log| && log[i].result.Truth? && log[i].result.v == 0.0 && log[i].result.f[0] == g {
        var i :| 0 <= i < |log| && log[i].result.Truth? && log[i].result.v == 0.0 && log[i].result.f[0] == g;
        if i < n {
          assert rest[i].result.f[0] == g;
        }
      }
      if g in FreeObjectives(rest) {
        var i :| 0 <= i < |rest| && rest[i].result.Truth? && rest[i].result.v == 0.0 && rest[i].result.f[0] == g;
        assert log[i].result.f[0] == g;
      }
    }
  }

  /** Near-optimal output: when the barrier admits no violation, a best point exists exactly when a
      violation-free truth has been processed; it is such a point, and its primary objective is within
      the objective slack of every such truth. */
  lemma BestIsNearOptimal(cfg: AcceptanceConfig, ops: seq<Op>, log: seq<Decision>, s: AcceptState,
                          xBest: Option<XMesh>, fBest: Option<Objectives>)
    requires BestOk(cfg, ops, log, s, xBest, fBest) && ZeroBarrier(cfg)
    ensures fBest.Some? <==> exists i :: 0 <= i < |log| && log[i].result.Truth? && log[i].result.v == 0.0
    ensures fBest.Some? ==>
      && xBest.Some?
      && (exists i :: 0 <= i < |log| && log[i].item.x == xBest.value && log[i].result.Truth?
                      && log[i].result.f == fBest.value && log[i].result.v == 0.0)
      && forall i :: 0 <= i < |log| && log[i].result.Truth? && log[i].result.v == 0.0 ==>
           fBest.value[0] <= log[i].result.f[0] + Max(cfg.epsF, 0.0)
  {
    LastAcceptedNearOptimal(ops, cfg);
    forall i | 0 <= i < |log| && log[i].result.Truth? && log[i].result.v == 0.0
      ensures log[i].result.f[0] in FreeObjectives(log)
    {
      FreeObjectivesMembers(log, log[i].result.f[0]);
    }
    if FreeObjectives(log) != [] {
      FreeObjectivesMembers(log, FreeObjectives(log)[0]);
    }
  }

  // ---------------------------------------------------------------- the mesh

  /** Every candidate and the best point lie on the mesh, and the mesh will keep containing them. */
  ghost predicate OnMeshAll(muls: seq<int>, mulMin: int, div: int, cands: seq<Candidate>, xBest: Option<XMesh>) {
    && AllNested(muls, mulMin, div)
    && (forall i :: 0 <= i < |cands| ==> OnMesh(cands[i].x, muls))
    && (xBest.Some? ==> OnMesh(xBest.value, muls))
  }

  lemma RefineKeepsAll(muls: seq<int>, mulMin: int, div: int, cands: seq<Candidate>, xBest: Option<XMesh>)
    requires OnMeshAll(muls, mulMin, div, cands, xBest)
    ensures OnMeshAll(RefinedAll(muls, mulMin, div), mulMin, div, cands, xBest)
  {
    hide AllNested, OnMesh, RefinedAll;
    RefineKeepsNested(muls, mulMin, div);
    forall i | 0 <= i < |cands|
      ensures OnMesh(cands[i].x, RefinedAll(muls, mulMin, div))
    {
      RefineKeepsMesh(cands[i].x, muls, mulMin, div);
    }
    if xBest.Some? {
      RefineKeepsMesh(xBest.value, muls, mulMin, div);
    }
  }

  /** The iteration ends among the operations. */
  function Ends(ops: seq<Op>): seq<Op> {
    if ops == [] then []
    else if ops[|ops| - 1].IterationEnd? then Ends(ops[..|ops| - 1]) + [ops[|ops| - 1]]
    else Ends(ops[..|ops| - 1])
  }

  lemma OneMoreEnd(ops: seq<Op>, op: Op)
    ensures Ends(ops + [op]) == if op.IterationEnd? then Ends(ops) + [op] else Ends(ops)
  {
    assert (ops + [op])[..|ops|] == ops;
  }

  /** Only iteration ends move the barrier. */
  lemma {:induction false} BarrierOfEnds(ops: seq<Op>, cfg: AcceptanceConfig)
    ensures Run(ops, cfg).h == Run(Ends(ops), cfg).h
  {
    hide Accepts, Admitted, Tightened;
    if ops != [] {
      var init, op := ops[..|ops| - 1], ops[|ops| - 1];
      BarrierOfEnds(init, cfg);
      if op.IterationEnd? {
        assert Ends(ops)[..|Ends(ops)| - 1] == Ends(init);
      }
    }
  }

  /** The mesh after a run: refined once for every iteration that polled without success. */
  function MeshAfter(muls: seq<int>, mulMin: int, div: int, ends: seq<Op>): seq<int> {
    if ends == [] then muls
    else
      var before, op := MeshAfter(muls, mulMin, div, ends[..|ends| - 1]), ends[|ends| - 1];
      if op.IterationEnd? && op.pollAttempted && !op.iterImproved then RefinedAll(before, mulMin, div) else before
  }

  lemma OneMoreRefinement(muls: seq<int>, mulMin: int, div: int, ends: seq<Op>, op: Op)
    ensures MeshAfter(muls, mulMin, div, ends + [op])
         == if op.IterationEnd? && op.pollAttempted && !op.iterImproved
            then RefinedAll(MeshAfter(muls, mulMin, div, ends), mulMin, div)
            else MeshAfter(muls, mulMin, div, ends)
  {
    assert (ends + [op])[..|ends|] == ends;
  }

  // ---------------------------------------------------------------- the budget

  function Capacity(cands: nat, ladderLen: nat): nat {
    cands * ladderLen
  }

  lemma CapacityGrows(n: nat, ladderLen: nat)
    ensures Capacity(n + 1, ladderLen) == Capacity(n, ladderLen) + ladderLen
  {
  }

  /** The steps made and the steps left fit: no candidate is executed more than once per level. */
  ghost predicate WithinBudget(steps: nat, cands: seq<Candidate>, ladderLen: nat) {
    steps + Remaining(cands, ladderLen) <= Capacity(|cands|, ladderLen)
  }
}
