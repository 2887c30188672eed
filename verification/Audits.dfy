/** What the calibrator hears about a run: the audits that are pending between two batches are those of the
    candidates under audit, and every estimate kept for them is what the evaluator says. */
module Audits {
  import opened Types
  import opened Sorting
  import opened Ladder
  import opened Margin
  import opened Calibration
  import opened Executor
  import opened Lifecycle
  import opened StepLaws
  import opened Store

  /** The event that a step reports. */
  ghost function StepEvent(ctx: StepContext, c: Candidate, out: WorkOutcome): CalibEvent
    requires StepPre(ctx, c, out)
  {
    var r := StepResult(ctx, c, out);
    var job := JobOf(StepCandidate(ctx, c, out), out, StepVerdict(ctx, c, out), r);
    CalibEvent(out.item.candId, r, job.audited, job.auditOf, job.pairedSample)
  }

  /** The estimate has the values that the evaluator gives for the point at the fidelity. */
  ghost predicate TrueTo(w: World, rev: EnvRev, x: XMesh, phi: Phi, est: Estimates) {
    && w.ev.numObjectives >= 1
    && var e := Compute(w, EvalCacheKey(x, phi, rev));
       e.Some? && est.fHat == e.value.fHat && est.cHat == e.value.cHat
  }

  /** The sample is of a paired checkpoint of the audit. */
  ghost predicate SampleOk(w: World, rev: EnvRev, ladder: seq<Phi>, x: XMesh, o: AuditOrigin, s: PairedAuditSample) {
    && s.pairedPhiIdx in o.pairedPhiIndices && s.pairedPhiIdx < |ladder| && s.pairedPhi == ladder[s.pairedPhiIdx]
    && TrueTo(w, rev, x, s.pairedPhi, s.estimates)
  }

  /** The pending audit is that of the candidate's cut. */
  ghost predicate AuditOk(w: World, rev: EnvRev, ladder: seq<Phi>, c: Candidate, p: PendingAudit) {
    && c.auditOrigin.Some?
    && var o := c.auditOrigin.value;
    && p.auditOf == AuditOf(o.violatedJ, o.phiAtCut, o.phiIdxAtCut)
    && TrueTo(w, rev, c.x, o.phiAtCut, p.estAtCut)
    && forall s :: s in p.pairedSamples ==> SampleOk(w, rev, ladder, c.x, o, s)
  }

  /** An audit is pending for a candidate, if and only if it is under audit and has not ended as a truth. */
  ghost predicate AuditMatches(w: World, rev: EnvRev, ladder: seq<Phi>, c: Candidate, p: Option<PendingAudit>) {
    && (p.Some? <==> c.auditRequired && c.status != DoneTruth)
    && (p.Some? ==> AuditOk(w, rev, ladder, c, p.value))
  }

  ghost predicate AuditsMatch(w: World, rev: EnvRev, ladder: seq<Phi>, cands: seq<Candidate>, index: Index, l: Ledger) {
    && (forall i :: 0 <= i < |cands| ==> AuditMatches(w, rev, ladder, cands[i], PendingOf(l, cands[i].id)))
    && (forall id :: id in l.pending ==> id in index)
  }

  // ---------------------------------------------------------------- one step

  /** What the event says, in terms of the candidate before and after its step. */
  ghost predicate EventMeans(w: World, rev: EnvRev, ladder: seq<Phi>, c: Candidate, after: Candidate, p: nat,
                             e: CalibEvent)
  {
    && p < |ladder| && e.id == c.id
    && (e.audited <==> after.auditRequired && after.status == Ready)
    && (e.audited ==> e.auditOf == AuditOfOrigin(after.auditOrigin) && after.auditOrigin.Some?
                      && (e.result.EarlyInfeasible? || e.result.Partial?)
                      && e.result.estimates.phi == ladder[p] && TrueTo(w, rev, c.x, ladder[p], e.result.estimates))
    && (e.pairedSample.Some? <==>
          IsPairedCheckpoint(after.auditOrigin, p) && (after.status == Ready || after.status == DoneTruth))
    && (e.pairedSample.Some? ==> SampleOk(w, rev, ladder, c.x, after.auditOrigin.value, e.pairedSample.value)
                                 && e.pairedSample.value.pairedPhiIdx == p)
    && (e.result.Truth? <==> after.status == DoneTruth)
    && (c.auditRequired ==> after.auditRequired && after.auditOrigin == c.auditOrigin)
    && (after.auditRequired && !c.auditRequired ==>
          after.status == Ready && after.auditOrigin.Some? && after.auditOrigin.value.phiAtCut == ladder[p])
  }

  lemma StepReports(ctx: StepContext, c: Candidate, out: WorkOutcome)
    requires StepPre(ctx, c, out) && out.item.candId == c.id
    ensures EventMeans(ctx.world, ctx.rev, ctx.ladder, c, StepCandidate(ctx, c, out), out.item.phiIdx,
                       StepEvent(ctx, c, out))
  {
    hide Compute, CheapOk, StepCandidate, StepResult, StepVerdict, JobOf, CollectPairedPhiIndices, AuditPath, CutLevel,
      CandidateOk, OutcomeSound, IsTruthOf, JustAudited;
    JobReportsAudit(ctx, c, out);
    ResultIsSound(ctx, c, out);
    StepAdvances(ctx, c, out);
    TruthEndsStep(ctx, c, out);
    ItemKey(ctx, c, out);
    if !c.auditRequired {
      AuditStarts(ctx, c, out);
      NewlyReady(ctx, c, out);
    }
    if Compute(ctx.world, EKey(out.item)).Some? {
      ComputedEstimatesOk(ctx.world, EKey(out.item));
    }
    AuditedCarryEstimates(ctx, c, out);
  }

  lemma NewlyReady(ctx: StepContext, c: Candidate, out: WorkOutcome)
    requires StepPre(ctx, c, out)
    ensures JustAudited(ctx.ladder, StepCandidate(ctx, c, out)) ==> StepCandidate(ctx, c, out).status == Ready
  {
    hide StepPre, StepCandidate, AuditPath;
  }

  lemma TruthEndsStep(ctx: StepContext, c: Candidate, out: WorkOutcome)
    requires StepPre(ctx, c, out)
    ensures StepResult(ctx, c, out).Truth? <==> StepCandidate(ctx, c, out).status == DoneTruth
  {
    hide Compute, CheapOk, CollectPairedPhiIndices, NextAuditTargetIdx, EarlyInfeasibleIn, CutLevel, Hopeless, TruthOf,
      IsTruthOf, IsPartialOf, FreshVerdict;
    VerdictCases(ctx, c, out);
    ResultIsSound(ctx, c, out);
  }

  lemma AuditedCarryEstimates(ctx: StepContext, c: Candidate, out: WorkOutcome)
    requires StepPre(ctx, c, out)
    ensures StepCandidate(ctx, c, out).status == Ready ==>
              StepResult(ctx, c, out).EarlyInfeasible? || StepResult(ctx, c, out).Partial?
  {
    hide Compute, CheapOk, CollectPairedPhiIndices, NextAuditTargetIdx, EarlyInfeasibleIn, CutLevel, Hopeless, TruthOf,
      IsTruthOf, IsPartialOf, FreshVerdict;
    VerdictCases(ctx, c, out);
    ResultIsSound(ctx, c, out);
  }

  /** A step keeps the pending audit that of the candidate. */
  lemma EventKeepsMatch(w: World, rev: EnvRev, ladder: seq<Phi>, c: Candidate, after: Candidate, p: nat, e: CalibEvent,
                        was: Option<PendingAudit>)
    requires AuditMatches(w, rev, ladder, c, was) && c.status != DoneTruth
    requires EventMeans(w, rev, ladder, c, after, p, e) && after.x == c.x
    ensures AuditMatches(w, rev, ladder, after, PendingAfter(was, e))
  {
    hide TrueTo, AppendOptional;
    if e.audited {
      AppendMembers(if was.Some? then was.value.pairedSamples else [], e.pairedSample);
    }
  }

  // ---------------------------------------------------------------- one batch

  /** The candidates after a batch: those with an event made one step each, the others are unchanged. */
  ghost predicate Landed(w: World, rev: EnvRev, ladder: seq<Phi>, before: seq<Candidate>, after: seq<Candidate>,
                         events: seq<CalibEvent>)
  {
    && |before| == |after| && DistinctEvents(events)
    && forall i :: 0 <= i < |before| ==> LandedOne(w, rev, ladder, before[i], after[i], events)
  }

  ghost predicate LandedOne(w: World, rev: EnvRev, ladder: seq<Phi>, c: Candidate, after: Candidate,
                            events: seq<CalibEvent>)
  {
    if forall k :: 0 <= k < |events| ==> events[k].id != c.id then after == c
    else exists k, p :: 0 <= k < |events| && StepOf(w, rev, ladder, c, after, p, events[k])
  }

  ghost predicate StepOf(w: World, rev: EnvRev, ladder: seq<Phi>, c: Candidate, after: Candidate, p: nat,
                         e: CalibEvent)
  {
    c.status != DoneTruth && after.id == c.id && after.x == c.x && EventMeans(w, rev, ladder, c, after, p, e)
  }

  lemma NothingLanded(w: World, rev: EnvRev, ladder: seq<Phi>, cands: seq<Candidate>)
    ensures Landed(w, rev, ladder, cands, cands, [])
  {
    hide StepOf;
  }

  /** One more candidate lands. */
  lemma OneMoreLanded(w: World, rev: EnvRev, ladder: seq<Phi>, before: seq<Candidate>, cands: seq<Candidate>,
                      index: Index, events: seq<CalibEvent>, pos: nat, after: Candidate, p: nat, e: CalibEvent)
    requires Landed(w, rev, ladder, before, cands, events) && IndexOk(before, index)
    requires pos < |cands| && StepOf(w, rev, ladder, cands[pos], after, p, e)
    requires forall k :: 0 <= k < |events| ==> events[k].id != e.id
    ensures Landed(w, rev, ladder, before, cands[pos := after], events + [e])
  {
    hide EventMeans;
    var more, moved := events + [e], cands[pos := after];
    EventNames(w, rev, ladder, cands[pos], after, p, e);
    SameIds(w, rev, ladder, before, cands, events);
    forall i | 0 <= i < |before|
      ensures LandedOne(w, rev, ladder, before[i], moved[i], more)
    {
      assert LandedOne(w, rev, ladder, before[i], cands[i], events);
      if i == pos {
        assert forall k :: 0 <= k < |events| ==> events[k].id != before[i].id;
        assert before[i] == cands[i] && more[|events|] == e;
        assert StepOf(w, rev, ladder, before[i], after, p, more[|events|]);
      } else if k :| 0 <= k < |events| && events[k].id == before[i].id {
        assert more[k] == events[k];
        var m, q :| 0 <= m < |events| && StepOf(w, rev, ladder, before[i], cands[i], q, events[m]);
        assert more[m] == events[m];
      } else {
        assert before[i].id != before[pos].id;
        assert forall k :: 0 <= k < |more| ==> more[k].id != before[i].id;
      }
    }
  }

  lemma EventNames(w: World, rev: EnvRev, ladder: seq<Phi>, c: Candidate, after: Candidate, p: nat, e: CalibEvent)
    requires EventMeans(w, rev, ladder, c, after, p, e)
    ensures e.id == c.id
  {
  }

  lemma SameIds(w: World, rev: EnvRev, ladder: seq<Phi>, before: seq<Candidate>, cands: seq<Candidate>,
                events: seq<CalibEvent>)
    requires Landed(w, rev, ladder, before, cands, events)
    ensures forall i :: 0 <= i < |before| ==> cands[i].id == before[i].id
  {
    hide EventMeans;
    forall i | 0 <= i < |before|
      ensures cands[i].id == before[i].id
    {
      assert LandedOne(w, rev, ladder, before[i], cands[i], events);
    }
  }

  /** Booking the events of a batch, in any order, keeps the pending audits those of the candidates. */
  lemma BatchKeepsAudits(w: World, rev: EnvRev, ladder: seq<Phi>, before: seq<Candidate>, after: seq<Candidate>,
                         index: Index, events: seq<CalibEvent>, sorted: seq<CalibEvent>, l: Ledger)
    requires AuditsMatch(w, rev, ladder, before, index, l) && IndexOk(before, index) && IndexOk(after, index)
    requires Landed(w, rev, ladder, before, after, events) && multiset(sorted) == multiset(events)
    requires forall k :: 0 <= k < |events| ==> events[k].id in index
    ensures AuditsMatch(w, rev, ladder, after, index, BookedAll(l, sorted))
  {
    hide AuditMatches, EventMeans, BookedAll, PendingAfter;
    SortedEventsDistinct(events, sorted);
    var m := BookedAll(l, sorted);
    forall i | 0 <= i < |after|
      ensures AuditMatches(w, rev, ladder, after[i], PendingOf(m, after[i].id))
    {
      CandidateKeepsAudit(w, rev, ladder, before[i], after[i], events, sorted, l);
    }
    forall id | id in m.pending
      ensures id in index
    {
      if forall k :: 0 <= k < |sorted| ==> sorted[k].id != id {
        OthersPend(l, sorted, id);
      } else {
        var k :| 0 <= k < |sorted| && sorted[k].id == id;
        assert sorted[k] in events;
      }
    }
  }

  lemma CandidateKeepsAudit(w: World, rev: EnvRev, ladder: seq<Phi>, c: Candidate, after: Candidate,
                            events: seq<CalibEvent>, sorted: seq<CalibEvent>, l: Ledger)
    requires AuditMatches(w, rev, ladder, c, PendingOf(l, c.id)) && LandedOne(w, rev, ladder, c, after, events)
    requires DistinctEvents(sorted) && forall e :: e in sorted <==> e in events
    ensures after.id == c.id && AuditMatches(w, rev, ladder, after, PendingOf(BookedAll(l, sorted), after.id))
  {
    hide AuditMatches, EventMeans, BookedAll, PendingAfter, PendingOf;
    if forall k :: 0 <= k < |events| ==> events[k].id != c.id {
      forall k | 0 <= k < |sorted|
        ensures sorted[k].id != c.id
      {
        assert sorted[k] in events;
      }
      OthersPend(l, sorted, c.id);
    } else {
      var k, p :| 0 <= k < |events| && StepOf(w, rev, ladder, c, after, p, events[k]);
      var e := events[k];
      EventNames(w, rev, ladder, c, after, p, e);
      assert e in sorted;
      var q :| 0 <= q < |sorted| && sorted[q] == e;
      EventDecidesPending(l, sorted, q);
      EventKeepsMatch(w, rev, ladder, c, after, p, e, PendingOf(l, c.id));
    }
  }

  // ---------------------------------------------------------------- between batches

  /** New candidates are not under audit. */
  lemma AddingKeepsAudits(w: World, rev: EnvRev, ladder: seq<Phi>, before: seq<Candidate>, index: Index,
                          after: seq<Candidate>, known: Index, l: Ledger)
    requires AuditsMatch(w, rev, ladder, before, index, l) && IndexOk(before, index) && IndexOk(after, known)
    requires before <= after && forall i :: |before| <= i < |after| ==> !after[i].auditRequired
    ensures AuditsMatch(w, rev, ladder, after, known, l)
  {
    hide AuditOk;
    forall i | 0 <= i < |after|
      ensures AuditMatches(w, rev, ladder, after[i], PendingOf(l, after[i].id))
    {
      if i < |before| {
        assert after[i] == before[i];
        assert AuditMatches(w, rev, ladder, before[i], PendingOf(l, before[i].id));
      }
    }
    forall id | id in l.pending
      ensures id in known
    {
      var k := index[id];
      assert before[k].id == id && after[k] == before[k];
    }
  }

  /** Dispatching changes nothing about audits. */
  lemma DispatchKeepsAudits(w: World, rev: EnvRev, ladder: seq<Phi>, before: seq<Candidate>, after: seq<Candidate>,
                            index: Index, l: Ledger)
    requires AuditsMatch(w, rev, ladder, before, index, l) && |before| == |after|
    requires forall i :: 0 <= i < |before| ==>
               after[i] == before[i]
               || (before[i].status == Ready
                   && after[i] == Dispatched(before[i], after[i].submittedPolicyRev, after[i].submittedIncumbentId))
    ensures AuditsMatch(w, rev, ladder, after, index, l)
  {
    hide TrueTo, SampleOk;
    forall i | 0 <= i < |after|
      ensures AuditMatches(w, rev, ladder, after[i], PendingOf(l, after[i].id))
    {
      assert AuditMatches(w, rev, ladder, before[i], PendingOf(l, before[i].id));
    }
  }

  lemma NothingAudited(w: World, rev: EnvRev, ladder: seq<Phi>, counts: seq<Counts>)
    ensures AuditsMatch(w, rev, ladder, [], map[], Ledger(counts, map[]))
  {
  }
}
