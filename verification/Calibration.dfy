/** The calibrator: audit bookkeeping, learned bias bounds and the slack controller. */
module Calibration {
  import opened Types
  import opened Sorting

  datatype AuditOf = AuditOf(violatedJ: nat, phiAtCut: Phi, phiIdxAtCut: nat)

  datatype PairedAuditSample = PairedAuditSample(pairedPhi: Phi, pairedPhiIdx: nat, estimates: Estimates)

  datatype CalibEvent = CalibEvent(
    id: nat,
    result: JobResult,
    audited: bool,
    auditOf: Option<AuditOf>,
    pairedSample: Option<PairedAuditSample>)

  datatype PendingAudit = PendingAudit(auditOf: AuditOf, estAtCut: Estimates, pairedSamples: seq<PairedAuditSample>)

  // ---------------------------------------------------------------- counters

  datatype Counts = Counts(
    cut: nat, audit: nat, falseInfeas: nat, confirmed: nat,
    cutBy: seq<nat>, auditBy: seq<nat>, falseBy: seq<nat>, confirmedBy: seq<nat>)

  const NO_COUNTS := Counts(0, 0, 0, 0, [], [], [], [])

  /** `s` padded with zeros until index `idx` exists. */
  function Padded(s: seq<nat>, idx: nat): (r: seq<nat>)
    ensures |r| > idx && |r| >= |s|
    ensures forall i :: 0 <= i < |r| ==> r[i] == GetOr(s, i, 0)
  {
    if |s| <= idx then s + Fill<nat>(idx + 1 - |s|, 0) else s
  }

  function EnsureLevel(c: Counts, idx: nat): Counts {
    c.(cutBy := Padded(c.cutBy, idx), auditBy := Padded(c.auditBy, idx),
       falseBy := Padded(c.falseBy, idx), confirmedBy := Padded(c.confirmedBy, idx))
  }

  function Bumped(s: seq<nat>, i: nat): seq<nat>
    requires i < |s|
  {
    s[i := s[i] + 1]
  }

  function WithCut(c: Counts, lvl: nat): Counts {
    var d := EnsureLevel(c, lvl);
    d.(cut := d.cut + 1, cutBy := Bumped(d.cutBy, lvl))
  }

  function WithAudit(c: Counts, lvl: nat, feasible: bool, violated: bool): Counts {
    var d := EnsureLevel(c, lvl);
    var e := d.(audit := d.audit + 1, auditBy := Bumped(d.auditBy, lvl));
    var g := if feasible then e.(falseInfeas := e.falseInfeas + 1, falseBy := Bumped(e.falseBy, lvl)) else e;
    if violated then g.(confirmed := g.confirmed + 1, confirmedBy := Bumped(g.confirmedBy, lvl)) else g
  }

  function Total(s: seq<nat>): nat {
    if s == [] then 0 else s[0] + Total(s[1..])
  }

  lemma {:induction false} TotalOfZeros(n: nat)
    ensures Total(Fill<nat>(n, 0)) == 0
  {
    var z := Fill<nat>(n, 0);
    if n == 0 {
      assert z == [];
    } else {
      TotalOfZeros(n - 1);
      assert z[0] == 0 && z[1..] == Fill<nat>(n - 1, 0);
      assert Total(z) == z[0] + Total(z[1..]);
    }
  }

  lemma {:induction false} TotalOfConcat(s: seq<nat>, t: seq<nat>)
    ensures Total(s + t) == Total(s) + Total(t)
  {
    if s == [] {
      assert s + t == t;
    } else {
      assert (s + t)[1..] == s[1..] + t;
      TotalOfConcat(s[1..], t);
    }
  }

  lemma TotalOfPadded(s: seq<nat>, idx: nat)
    ensures Total(Padded(s, idx)) == Total(s)
  {
    if |s| <= idx {
      TotalOfConcat(s, Fill<nat>(idx + 1 - |s|, 0));
      TotalOfZeros(idx + 1 - |s|);
    }
  }

  lemma {:induction false} TotalOfBumped(s: seq<nat>, i: nat)
    requires i < |s|
    ensures Total(Bumped(s, i)) == Total(s) + 1
  {
    if i > 0 {
      assert Bumped(s, i)[1..] == Bumped(s[1..], i - 1);
      TotalOfBumped(s[1..], i - 1);
    }
  }

  /** The per-level counters add up to the totals. */
  ghost predicate Consistent(c: Counts) {
    && Total(c.cutBy) == c.cut && Total(c.auditBy) == c.audit
    && Total(c.falseBy) == c.falseInfeas && Total(c.confirmedBy) == c.confirmed
  }

  lemma PaddingKeepsConsistent(c: Counts, lvl: nat)
    requires Consistent(c)
    ensures Consistent(EnsureLevel(c, lvl))
  {
    TotalOfPadded(c.cutBy, lvl);
    TotalOfPadded(c.auditBy, lvl);
    TotalOfPadded(c.falseBy, lvl);
    TotalOfPadded(c.confirmedBy, lvl);
  }

  lemma CountingKeepsConsistent(c: Counts, lvl: nat, feasible: bool, violated: bool)
    requires Consistent(c)
    ensures Consistent(WithCut(c, lvl)) && Consistent(WithAudit(c, lvl, feasible, violated))
  {
    PaddingKeepsConsistent(c, lvl);
    var d := EnsureLevel(c, lvl);
    TotalOfBumped(d.cutBy, lvl);
    TotalOfBumped(d.auditBy, lvl);
    TotalOfBumped(d.falseBy, lvl);
    TotalOfBumped(d.confirmedBy, lvl);
  }

  // ---------------------------------------------------------------- the audit ledger

  datatype Ledger = Ledger(counts: seq<Counts>, pending: map<nat, PendingAudit>)

  predicate LeIdx(a: PairedAuditSample, b: PairedAuditSample) {
    a.pairedPhiIdx <= b.pairedPhiIdx
  }

  function PositionOf(s: seq<PairedAuditSample>, idx: nat): (r: Option<nat>)
    ensures r.Some? ==> r.value < |s| && s[r.value].pairedPhiIdx == idx
    ensures r.None? ==> forall k :: 0 <= k < |s| ==> s[k].pairedPhiIdx != idx
  {
    if s == [] then None
    else if s[0].pairedPhiIdx == idx then Some(0)
    else match PositionOf(s[1..], idx) case None => None case Some(k) => Some(k + 1)
  }

  /** Replaces the sample of the same level, or files the new one in level order. */
  function AppendPaired(s: seq<PairedAuditSample>, ps: PairedAuditSample): seq<PairedAuditSample> {
    match PositionOf(s, ps.pairedPhiIdx)
    case Some(k) => s[k := ps]
    case None => Sort(s + [ps], LeIdx)
  }

  function AppendOptional(s: seq<PairedAuditSample>, ps: Option<PairedAuditSample>): seq<PairedAuditSample> {
    match ps case None => s case Some(p) => AppendPaired(s, p)
  }

  function CountCut(counts: seq<Counts>, a: AuditOf): seq<Counts> {
    if a.violatedJ < |counts| then counts[a.violatedJ := WithCut(counts[a.violatedJ], a.phiIdxAtCut)] else counts
  }

  function CountAudit(counts: seq<Counts>, a: AuditOf, feasible: bool, c: seq<real>): seq<Counts> {
    var j := a.violatedJ;
    if j < |counts| then
      counts[j := WithAudit(counts[j], a.phiIdxAtCut, feasible, GetOr(c, j, 0.0) > 0.0)]
    else counts
  }

  /** The ledger after a checkpoint of an audited candidate. */
  function Noted(l: Ledger, id: nat, a: AuditOf, est: Estimates, ps: Option<PairedAuditSample>): Ledger {
    if id !in l.pending then
      Ledger(CountCut(l.counts, a), l.pending[id := PendingAudit(a, est, AppendOptional([], ps))])
    else
      var p := l.pending[id];
      Ledger(l.counts,
             l.pending[id := PendingAudit(p.auditOf,
                                          if est.phi == a.phiAtCut then est else p.estAtCut,
                                          AppendOptional(p.pairedSamples, ps))])
  }

  /** The ledger after the truth result of a candidate. */
  function Closed(l: Ledger, id: nat, feasible: bool, c: seq<real>): Ledger {
    if id in l.pending then Ledger(CountAudit(l.counts, l.pending[id].auditOf, feasible, c), l.pending - {id}) else l
  }

  function Booked(l: Ledger, e: CalibEvent): Ledger {
    match e.result
    case EarlyInfeasible(_, est, _) =>
      if e.audited && e.auditOf.Some? then Noted(l, e.id, e.auditOf.value, est, e.pairedSample) else l
    case Partial(est, _) =>
      if e.audited && e.auditOf.Some? then Noted(l, e.id, e.auditOf.value, est, e.pairedSample) else l
    case Truth(_, c, feasible, _, _) => Closed(l, e.id, feasible, c)
    case _ => l
  }

  function BookedAll(l: Ledger, events: seq<CalibEvent>): Ledger {
    if events == [] then l else Booked(BookedAll(l, events[..|events| - 1]), events[|events| - 1])
  }

  ghost function PendingFor(pending: map<nat, PendingAudit>, j: nat): set<nat> {
    set id | id in pending && pending[id].auditOf.violatedJ == j
  }

  /** Every counted cut has been audited or is still pending, and the levels add up. */
  ghost predicate Balanced(l: Ledger) {
    forall j :: 0 <= j < |l.counts| ==>
      && l.counts[j].cut == l.counts[j].audit + |PendingFor(l.pending, j)|
      && Consistent(l.counts[j])
  }

  lemma EmptyLedgerBalanced(m: nat)
    ensures Balanced(Ledger(Fill(m, NO_COUNTS), map[]))
  {
    forall j: nat
      ensures |PendingFor(map[], j)| == 0
    {
      assert PendingFor(map[], j) == {};
    }
  }

  lemma NotedKeepsBalance(l: Ledger, id: nat, a: AuditOf, est: Estimates, ps: Option<PairedAuditSample>)
    requires Balanced(l)
    ensures Balanced(Noted(l, id, a, est, ps))
  {
    var n := Noted(l, id, a, est, ps);
    forall j | 0 <= j < |n.counts|
      ensures n.counts[j].cut == n.counts[j].audit + |PendingFor(n.pending, j)| && Consistent(n.counts[j])
    {
      var before, now := PendingFor(l.pending, j), PendingFor(n.pending, j);
      if id in l.pending {
        assert now == before;
      } else if a.violatedJ == j {
        assert now == before + {id};
        CountingKeepsConsistent(l.counts[j], a.phiIdxAtCut, false, false);
      } else {
        assert now == before;
      }
    }
  }

  lemma ClosedKeepsBalance(l: Ledger, id: nat, feasible: bool, c: seq<real>)
    requires Balanced(l)
    ensures Balanced(Closed(l, id, feasible, c))
  {
    var n := Closed(l, id, feasible, c);
    forall j | 0 <= j < |n.counts|
      ensures n.counts[j].cut == n.counts[j].audit + |PendingFor(n.pending, j)| && Consistent(n.counts[j])
    {
      var before, now := PendingFor(l.pending, j), PendingFor(n.pending, j);
      if id in before {
        assert now == before - {id};
        CountingKeepsConsistent(l.counts[j], l.pending[id].auditOf.phiIdxAtCut, feasible, GetOr(c, j, 0.0) > 0.0);
      } else {
        assert now == before;
      }
    }
  }

  /** Audit accounting: for every event sequence and every constraint, cuts = audits + pending, and
      the per-level counters sum to the totals. */
  lemma {:induction false} AuditAccounting(l: Ledger, events: seq<CalibEvent>)
    requires Balanced(l)
    ensures Balanced(BookedAll(l, events))
  {
    if events != [] {
      var e := events[|events| - 1];
      var before := BookedAll(l, events[..|events| - 1]);
      AuditAccounting(l, events[..|events| - 1]);
      match e.result
      case EarlyInfeasible(_, est, _) =>
        if e.audited && e.auditOf.Some? {
          NotedKeepsBalance(before, e.id, e.auditOf.value, est, e.pairedSample);
        }
      case Partial(est, _) =>
        if e.audited && e.auditOf.Some? {
          NotedKeepsBalance(before, e.id, e.auditOf.value, est, e.pairedSample);
        }
      case Truth(_, c, feasible, _, _) => ClosedKeepsBalance(before, e.id, feasible, c);
      case _ =>
    }
  }

  // ---------------------------------------------------------------- what the counters count

  /** The four things that are counted for a constraint. */
  datatype Tally = Cuts | Audits | FalseAlarms | Confirmations

  /** The value of a counter, in total or at the level of the cut. */
  function Tallied(c: Counts, t: Tally, lvl: Option<nat>): nat {
    match (t, lvl)
    case (Cuts, None) => c.cut
    case (Audits, None) => c.audit
    case (FalseAlarms, None) => c.falseInfeas
    case (Confirmations, None) => c.confirmed
    case (Cuts, Some(v)) => GetOr(c.cutBy, v, 0)
    case (Audits, Some(v)) => GetOr(c.auditBy, v, 0)
    case (FalseAlarms, Some(v)) => GetOr(c.falseBy, v, 0)
    case (Confirmations, Some(v)) => GetOr(c.confirmedBy, v, 0)
  }

  predicate About(a: AuditOf, j: nat, lvl: Option<nat>) {
    a.violatedJ == j && AtLevel(lvl, a.phiIdxAtCut)
  }

  /** The event counts once for constraint `j`: as a cut, when it is the first checkpoint of an audit of `j`;
      as an audit, when it is a truth that ends one; as a false alarm, when that truth is feasible; as a
      confirmation, when it violates `j`. */
  predicate CountsAs(l: Ledger, e: CalibEvent, t: Tally, j: nat, lvl: Option<nat>) {
    match t
    case Cuts =>
      (e.result.EarlyInfeasible? || e.result.Partial?) && e.audited && e.auditOf.Some?
      && e.id !in l.pending && About(e.auditOf.value, j, lvl)
    case Audits => e.result.Truth? && e.id in l.pending && About(l.pending[e.id].auditOf, j, lvl)
    case FalseAlarms =>
      e.result.Truth? && e.id in l.pending && About(l.pending[e.id].auditOf, j, lvl) && e.result.feasible
    case Confirmations =>
      e.result.Truth? && e.id in l.pending && About(l.pending[e.id].auditOf, j, lvl)
      && j < |e.result.c| && e.result.c[j] > 0.0
  }

  /** Event `i` counts, given what was booked before it. */
  predicate CountsAt(l: Ledger, events: seq<CalibEvent>, t: Tally, j: nat, lvl: Option<nat>, i: nat) {
    i < |events| && CountsAs(BookedAll(l, events[..i]), events[i], t, j, lvl)
  }

  /** The events that count. */
  ghost function Counting(l: Ledger, events: seq<CalibEvent>, t: Tally, j: nat, lvl: Option<nat>): set<nat> {
    set i: nat | i < |events| && CountsAt(l, events, t, j, lvl, i)
  }

  predicate AtLevel(lvl: Option<nat>, v: nat) {
    lvl.None? || lvl.value == v
  }

  lemma BumpedAt(s: seq<nat>, i: nat, v: nat)
    requires i < |s|
    ensures GetOr(Bumped(s, i), v, 0) == GetOr(s, v, 0) + if i == v then 1 else 0
  {
  }

  lemma PaddedAt(s: seq<nat>, i: nat, v: nat)
    ensures GetOr(Padded(s, i), v, 0) == GetOr(s, v, 0)
  {
  }

  lemma PaddingKeepsTallies(c: Counts, v: nat, t: Tally, lvl: Option<nat>)
    ensures Tallied(EnsureLevel(c, v), t, lvl) == Tallied(c, t, lvl)
  {
    hide Padded;
    if lvl.Some? {
      PaddedAt(c.cutBy, v, lvl.value);
      PaddedAt(c.auditBy, v, lvl.value);
      PaddedAt(c.falseBy, v, lvl.value);
      PaddedAt(c.confirmedBy, v, lvl.value);
    }
  }

  lemma CutTallies(c: Counts, v: nat, t: Tally, lvl: Option<nat>)
    ensures Tallied(WithCut(c, v), t, lvl) == Tallied(c, t, lvl) + if t.Cuts? && AtLevel(lvl, v) then 1 else 0
  {
    hide Padded, Bumped;
    PaddingKeepsTallies(c, v, t, lvl);
    if lvl.Some? {
      BumpedAt(EnsureLevel(c, v).cutBy, v, lvl.value);
    }
  }

  lemma AuditTallies(c: Counts, v: nat, feasible: bool, violated: bool, t: Tally, lvl: Option<nat>)
    ensures Tallied(WithAudit(c, v, feasible, violated), t, lvl)
         == Tallied(c, t, lvl)
            + if AtLevel(lvl, v) && (t.Audits? || (t.FalseAlarms? && feasible) || (t.Confirmations? && violated))
              then 1 else 0
  {
    hide Padded, Bumped;
    PaddingKeepsTallies(c, v, t, lvl);
    if lvl.Some? {
      var d := EnsureLevel(c, v);
      BumpedAt(d.auditBy, v, lvl.value);
      BumpedAt(d.falseBy, v, lvl.value);
      BumpedAt(d.confirmedBy, v, lvl.value);
    }
  }

  /** One event raises a counter by one if it counts, and leaves it alone otherwise. */
  lemma OneEventCounts(l: Ledger, e: CalibEvent, t: Tally, j: nat, lvl: Option<nat>)
    requires j < |l.counts|
    ensures |Booked(l, e).counts| == |l.counts|
    ensures Tallied(Booked(l, e).counts[j], t, lvl)
         == Tallied(l.counts[j], t, lvl) + if CountsAs(l, e, t, j, lvl) then 1 else 0
  {
    hide WithCut, WithAudit, AppendPaired, Tallied;
    if e.auditOf.Some? {
      CutTallies(l.counts[j], e.auditOf.value.phiIdxAtCut, t, lvl);
    }
    if e.result.Truth? && e.id in l.pending {
      AuditTallies(l.counts[j], l.pending[e.id].auditOf.phiIdxAtCut, e.result.feasible, GetOr(e.result.c, j, 0.0) > 0.0,
                   t, lvl);
    }
  }

  lemma OneMoreCounting(l: Ledger, init: seq<CalibEvent>, e: CalibEvent, t: Tally, j: nat, lvl: Option<nat>)
    ensures |Counting(l, init + [e], t, j, lvl)|
         == |Counting(l, init, t, j, lvl)| + if CountsAs(BookedAll(l, init), e, t, j, lvl) then 1 else 0
  {
    hide CountsAt;
    var events, n := init + [e], |init|;
    forall i: nat | i < n
      ensures CountsAt(l, events, t, j, lvl, i) == CountsAt(l, init, t, j, lvl, i)
    {
      EarlierCounts(l, init, e, t, j, lvl, i);
    }
    LastCounts(l, init, e, t, j, lvl);
    var before, now := Counting(l, init, t, j, lvl), Counting(l, events, t, j, lvl);
    assert now == if CountsAt(l, events, t, j, lvl, n) then before + {n} else before;
  }

  lemma EarlierCounts(l: Ledger, init: seq<CalibEvent>, e: CalibEvent, t: Tally, j: nat, lvl: Option<nat>, i: nat)
    requires i < |init|
    ensures CountsAt(l, init + [e], t, j, lvl, i) == CountsAt(l, init, t, j, lvl, i)
  {
    hide BookedAll, CountsAs;
    assert (init + [e])[..i] == init[..i] && (init + [e])[i] == init[i];
  }

  lemma LastCounts(l: Ledger, init: seq<CalibEvent>, e: CalibEvent, t: Tally, j: nat, lvl: Option<nat>)
    ensures CountsAt(l, init + [e], t, j, lvl, |init|) == CountsAs(BookedAll(l, init), e, t, j, lvl)
  {
    hide BookedAll, CountsAs;
    assert (init + [e])[..|init|] == init;
  }

  /** The counters count: after any events, every counter of every constraint, in total and per level of the
      cut, has grown by the number of events that count. */
  lemma {:induction false} LedgerCounts(l: Ledger, events: seq<CalibEvent>, t: Tally, j: nat, lvl: Option<nat>)
    requires j < |l.counts|
    ensures |BookedAll(l, events).counts| == |l.counts|
    ensures Tallied(BookedAll(l, events).counts[j], t, lvl)
         == Tallied(l.counts[j], t, lvl) + |Counting(l, events, t, j, lvl)|
  {
    hide Booked, CountsAs, Tallied, Counting;
    if events == [] {
      NothingCounts(l, t, j, lvl);
    } else {
      var n := |events| - 1;
      var init := events[..n];
      LedgerCounts(l, init, t, j, lvl);
      OneEventCounts(BookedAll(l, init), events[n], t, j, lvl);
      OneMoreCounting(l, init, events[n], t, j, lvl);
      assert events == init + [events[n]];
    }
  }

  lemma NothingCounts(l: Ledger, t: Tally, j: nat, lvl: Option<nat>)
    ensures Counting(l, [], t, j, lvl) == {}
  {
  }

  // ---------------------------------------------------------------- which audits are pending

  /** The audit pending for `id`, if any. */
  function PendingOf(l: Ledger, id: nat): Option<PendingAudit> {
    if id in l.pending then Some(l.pending[id]) else None
  }

  /** What an event does to the audit of its candidate: a checkpoint opens it or adds to it, a truth ends it. */
  function PendingAfter(p: Option<PendingAudit>, e: CalibEvent): Option<PendingAudit> {
    if e.result.Truth? then None
    else if (e.result.EarlyInfeasible? || e.result.Partial?) && e.audited && e.auditOf.Some? then
      var est, a := e.result.estimates, e.auditOf.value;
      match p
      case None => Some(PendingAudit(a, est, AppendOptional([], e.pairedSample)))
      case Some(q) => Some(PendingAudit(q.auditOf, if est.phi == a.phiAtCut then est else q.estAtCut,
                                        AppendOptional(q.pairedSamples, e.pairedSample)))
    else p
  }

  ghost predicate DistinctEvents(events: seq<CalibEvent>) {
    forall i, k :: 0 <= i < k < |events| ==> events[i].id != events[k].id
  }

  lemma OneEventPends(l: Ledger, e: CalibEvent, id: nat)
    ensures PendingOf(Booked(l, e), id) == if id == e.id then PendingAfter(PendingOf(l, id), e) else PendingOf(l, id)
  {
    hide WithCut, WithAudit, AppendPaired;
  }

  /** Events about other candidates leave the audit of `id` alone. */
  lemma {:induction false} OthersPend(l: Ledger, events: seq<CalibEvent>, id: nat)
    requires forall i :: 0 <= i < |events| ==> events[i].id != id
    ensures PendingOf(BookedAll(l, events), id) == PendingOf(l, id)
  {
    hide Booked, PendingOf, PendingAfter;
    if events != [] {
      var n := |events| - 1;
      OthersPend(l, events[..n], id);
      OneEventPends(BookedAll(l, events[..n]), events[n], id);
    }
  }

  /** With one event per candidate, that event alone decides about its audit. */
  lemma {:induction false} EventDecidesPending(l: Ledger, events: seq<CalibEvent>, k: nat)
    requires DistinctEvents(events) && k < |events|
    ensures PendingOf(BookedAll(l, events), events[k].id) == PendingAfter(PendingOf(l, events[k].id), events[k])
  {
    hide Booked, PendingOf, PendingAfter;
    var n, id := |events| - 1, events[k].id;
    var init := events[..n];
    OneEventPends(BookedAll(l, init), events[n], id);
    if k < n {
      EventDecidesPending(l, init, k);
    } else {
      OthersPend(l, init, id);
    }
  }

  lemma AppendMembers(s: seq<PairedAuditSample>, ps: Option<PairedAuditSample>)
    ensures forall x :: x in AppendOptional(s, ps) ==> x in s || ps == Some(x)
  {
    if ps.Some? && PositionOf(s, ps.value.pairedPhiIdx).None? {
      SortMembers(s + [ps.value], LeIdx);
    }
  }

  lemma SortedEventsDistinct(events: seq<CalibEvent>, sorted: seq<CalibEvent>)
    requires DistinctEvents(events) && multiset(sorted) == multiset(events)
    ensures DistinctEvents(sorted) && forall e :: e in sorted <==> e in events
  {
    forall e
      ensures e in sorted <==> e in events
    {
      assert e in sorted <==> e in multiset(sorted);
      assert e in events <==> e in multiset(events);
    }
    forall i, k | 0 <= i < k < |sorted|
      ensures sorted[i].id != sorted[k].id
    {
      if sorted[i].id == sorted[k].id {
        assert sorted[i] in events && sorted[k] in events;
        var p :| 0 <= p < |events| && events[p] == sorted[i];
        var q :| 0 <= q < |events| && events[q] == sorted[k];
        assert p == q;
        TwiceIn(sorted, i, k);
        OnceIn(events, p);
      }
    }
  }

  lemma TwiceIn<T>(r: seq<T>, i: nat, k: nat)
    requires i < k < |r| && r[i] == r[k]
    ensures multiset(r)[r[i]] >= 2
  {
    assert r == r[..k] + [r[k]] + r[k + 1..];
    assert r[..k][i] == r[i];
    assert r[i] in multiset(r[..k]);
  }

  lemma OnceIn<T>(t: seq<T>, p: nat)
    requires p < |t|
    requires forall i, k :: 0 <= i < k < |t| ==> t[i] != t[k]
    ensures multiset(t)[t[p]] == 1
  {
    assert t == t[..p] + [t[p]] + t[p + 1..];
    assert t[p] !in t[..p] && t[p] !in t[p + 1..];
    assert t[p] !in multiset(t[..p]) && t[p] !in multiset(t[p + 1..]);
  }

  /** The feasibility flag of a truth result agrees with its constraint values. */
  ghost predicate HonestFlag(r: JobResult) {
    r.Truth? ==> (r.feasible <==> forall j :: 0 <= j < |r.c| ==> r.c[j] <= 0.0)
  }

  ghost predicate OutcomesDisjoint(l: Ledger) {
    forall j :: 0 <= j < |l.counts| ==> l.counts[j].falseInfeas + l.counts[j].confirmed <= l.counts[j].audit
  }

  /** With honest flags no audit counts both as a false alarm and as a confirmed violation. */
  lemma {:induction false} AuditOutcomesDisjoint(l: Ledger, events: seq<CalibEvent>)
    requires OutcomesDisjoint(l)
    requires forall i :: 0 <= i < |events| ==> HonestFlag(events[i].result)
    ensures OutcomesDisjoint(BookedAll(l, events))
  {
    if events != [] {
      AuditOutcomesDisjoint(l, events[..|events| - 1]);
      var r := events[|events| - 1].result;
      assert HonestFlag(r);
    }
  }

  /** Paired samples stay in strictly increasing level order, one per level. */
  ghost predicate LevelOrdered(s: seq<PairedAuditSample>) {
    forall i, k :: 0 <= i < k < |s| ==> s[i].pairedPhiIdx < s[k].pairedPhiIdx
  }

  lemma AppendKeepsLevelOrder(s: seq<PairedAuditSample>, ps: PairedAuditSample)
    requires LevelOrdered(s)
    ensures LevelOrdered(AppendPaired(s, ps)) && ps in AppendPaired(s, ps)
  {
    match PositionOf(s, ps.pairedPhiIdx)
    case Some(k) => assert s[k := ps][k] == ps;
    case None =>
      var t := s + [ps];
      var r := Sort(t, LeIdx);
      assert t[|s|] == ps;
      SortMembers(t, LeIdx);
      SortSorts(t, LeIdx);
      SortPermutes(t, LeIdx);
      SortedLevelsDistinct(t, r);
  }

  /** Sorting samples of pairwise different levels orders the levels strictly. */
  lemma SortedLevelsDistinct(t: seq<PairedAuditSample>, r: seq<PairedAuditSample>)
    requires forall i, k :: 0 <= i < k < |t| ==> t[i].pairedPhiIdx != t[k].pairedPhiIdx
    requires multiset(r) == multiset(t) && SortedBy(r, LeIdx)
    ensures LevelOrdered(r)
  {
    forall i, k | 0 <= i < k < |r|
      ensures r[i].pairedPhiIdx < r[k].pairedPhiIdx
    {
      assert LeIdx(r[i], r[k]);
      if r[i].pairedPhiIdx == r[k].pairedPhiIdx {
        assert r[i] in multiset(t) && r[k] in multiset(t);
        var p :| 0 <= p < |t| && t[p] == r[i];
        var q :| 0 <= q < |t| && t[q] == r[k];
        assert p == q;
        TwiceIn(r, i, k);
        OnceIn(t, p);
      }
    }
  }
}
