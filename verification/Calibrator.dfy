/** The calibrator object: updates at batch boundaries, and the thresholds it publishes. */
module Calibrator {
  import opened Types
  import opened Sorting
  import opened Arithmetic
  import opened Margin
  import opened Calibration
  import opened Learning

  datatype CalibratorConfig = CalibratorConfig(
    targetFalse: real, minAudits: nat, etaDelta: real, deltaMin: real, deltaMax: real,
    kWindow: nat, kMinPairs: nat, kQuantile: real, kEta: real)

  datatype DeltaConfig = DeltaConfig(
    targetFalse: real, minAudits: nat, etaDelta: real, deltaMin: real, deltaMax: real)

  /** What the calibrator shows to the assignment policy. */
  datatype CalibState = CalibState(
    policyRev: nat,
    deltaRel: seq<real>,
    targetFalse: real,
    minAudits: nat,
    auditN: seq<nat>,
    falseInfeasN: seq<nat>,
    confirmedN: seq<nat>,
    auditNBy: seq<seq<nat>>,
    falseInfeasNBy: seq<seq<nat>>,
    confirmedNBy: seq<seq<nat>>)

  // ---------------------------------------------------------------- the slack controller

  /** The smoothed false-alarm rate of a constraint. */
  function FalseRate(c: Counts): real {
    ((c.falseInfeas as real) + 1.0) / ((c.audit as real) + 2.0)
  }

  function Scaled(delta: real, factor: real): real {
    delta * factor
  }

  function DeltaFactor(rate: real, cfg: DeltaConfig, exp: real -> real): real {
    var t := Clamp(cfg.targetFalse, 0.0, 1.0);
    var eta := Max(cfg.etaDelta, 0.0);
    if rate > t then exp(eta) else if rate < t / 3.0 then exp(-eta) else 1.0
  }

  function NextDelta(delta: real, c: Counts, cfg: DeltaConfig, exp: real -> real): real
    requires cfg.deltaMin <= cfg.deltaMax
  {
    if c.audit < MaxInt(cfg.minAudits, 1) then delta
    else
      var t := Clamp(cfg.targetFalse, 0.0, 1.0);
      var rate := FalseRate(c);
      if t / 3.0 <= rate <= t then delta
      else
        var next := Clamp(Scaled(delta, DeltaFactor(rate, cfg, exp)), cfg.deltaMin, cfg.deltaMax);
        if Abs(next - delta) > EPS_CHANGE then next else delta
  }

  ghost predicate IsExp(exp: real -> real) {
    && (forall y: real :: exp(y) > 0.0)
    && (forall y: real :: y >= 0.0 ==> exp(y) >= 1.0)
    && (forall y: real :: y <= 0.0 ==> exp(y) <= 1.0)
  }

  /** The controller raises the slack exactly above the target rate and lowers it exactly below a third of
      it, given enough audits, room within the limits and a step that is not negligible; otherwise it
      leaves the slack alone. It never leaves the configured range. */
  lemma DeltaMovesTowardsTarget(delta: real, c: Counts, cfg: DeltaConfig, exp: real -> real)
    requires IsExp(exp)
    requires 0.0 <= cfg.deltaMin <= delta <= cfg.deltaMax
    ensures cfg.deltaMin <= NextDelta(delta, c, cfg, exp) <= cfg.deltaMax
    ensures NextDelta(delta, c, cfg, exp) > delta <==>
      && c.audit >= MaxInt(cfg.minAudits, 1)
      && (c.falseInfeas + 1) as real / (c.audit + 2) as real > Clamp(cfg.targetFalse, 0.0, 1.0)
      && Scaled(delta, exp(Max(cfg.etaDelta, 0.0))) > delta + EPS_CHANGE && cfg.deltaMax > delta + EPS_CHANGE
    ensures NextDelta(delta, c, cfg, exp) < delta <==>
      && c.audit >= MaxInt(cfg.minAudits, 1)
      && (c.falseInfeas + 1) as real / (c.audit + 2) as real < Clamp(cfg.targetFalse, 0.0, 1.0) / 3.0
      && Scaled(delta, exp(-Max(cfg.etaDelta, 0.0))) < delta - EPS_CHANGE && cfg.deltaMin < delta - EPS_CHANGE
  {
    hide Scaled;
    ScalingDirection(delta, DeltaFactor(FalseRate(c), cfg, exp));
  }

  lemma ScalingDirection(delta: real, factor: real)
    requires delta >= 0.0
    ensures factor >= 1.0 ==> Scaled(delta, factor) >= delta
    ensures factor <= 1.0 ==> Scaled(delta, factor) <= delta
  {
    if factor >= 1.0 {
      MulMonotoneReal(1.0, factor, delta);
    }
    if factor <= 1.0 {
      MulMonotoneReal(factor, 1.0, delta);
    }
  }

  // ---------------------------------------------------------------- learning from a closed audit

  function TruthAsEstimates(phi: Phi, f: Objectives, c: seq<real>, m: nat): Estimates {
    Estimates(f, Fill(|f|, 0.0), seq(m, j requires 0 <= j => GetOr(c, j, 0.0)), Fill(m, 0.0),
              phi, phi.tau as real, |f|)
  }

  datatype Checkpoint = Checkpoint(phi: Phi, est: Estimates)

  /** The cut followed by the paired samples, in level order. */
  function Checkpoints(p: PendingAudit): (r: seq<Checkpoint>)
    ensures |r| == |p.pairedSamples| + 1
  {
    var s := Sort(p.pairedSamples, LeIdx);
    [Checkpoint(p.auditOf.phiAtCut, p.estAtCut)]
    + seq(|s|, i requires 0 <= i < |s| => Checkpoint(s[i].pairedPhi, s[i].estimates))
  }

  predicate IsTighterPair(loose: Phi, tight: Phi) {
    loose.smc == tight.smc && tight.tau < loose.tau
  }

  function TauGap(loose: Phi, tight: Phi): (r: real)
    ensures r >= 1.0
  {
    Max((loose.tau as real) - (tight.tau as real), 1.0)
  }

  /** The windows after one neighbouring pair of checkpoints. */
  function WithPair(w: Windows, m: nat, a: Checkpoint, b: Checkpoint, cap: nat): Windows {
    if IsTighterPair(a.phi, b.phi) then
      var key := KIntervalKey(a.phi.tau, b.phi.tau, a.phi.smc);
      Compared(w, m, a.phi, Some(key), a.est, b.est, TauGap(a.phi, b.phi), cap)
    else w
  }

  /** The windows after the first `n` neighbouring pairs. */
  function WithPairs(w: Windows, m: nat, cps: seq<Checkpoint>, n: nat, cap: nat): Windows
    requires n < |cps|
  {
    if n == 0 then w else WithPair(WithPairs(w, m, cps, n - 1, cap), m, cps[n - 1], cps[n], cap)
  }

  predicate HasPair(cps: seq<Checkpoint>) {
    exists i :: 1 <= i < |cps| && IsTighterPair(cps[i - 1].phi, cps[i].phi)
  }

  /** The windows after a truth result closed the audit `p`. */
  function Learnt(w: Windows, m: nat, p: PendingAudit, truth: Estimates, cap: nat): Windows {
    var cps := Checkpoints(p);
    if HasPair(cps) then WithPairs(w, m, cps, |cps| - 1, cap)
    else Compared(w, m, p.auditOf.phiAtCut, None, p.estAtCut, truth, Max(p.auditOf.phiAtCut.tau as real, 1.0), cap)
  }

  ghost predicate StreamsFit(w: Windows, m: nat, phi: Phi, key: KIntervalKey) {
    |w.c| == m && |Lookup(w.phiC, phi, Fill(m, []))| == m && |Lookup(w.intC, key, Fill(m, []))| == m
  }

  /** What a pair of checkpoints with equal samples and ascending tightness teaches: the drop from the loose to
      the tight estimate, per unit of tolerance between them, goes to the global streams, to those of the
      loose fidelity, and to those of the interval between the two; every other stream stays. */
  lemma PairTeaches(w: Windows, m: nat, a: Checkpoint, b: Checkpoint, cap: nat, j: nat)
    requires a.phi.smc == b.phi.smc && b.phi.tau < a.phi.tau && j < m
    requires StreamsFit(w, m, a.phi, KIntervalKey(a.phi.tau, b.phi.tau, a.phi.smc))
    ensures var r, key, none := WithPair(w, m, a, b, cap), KIntervalKey(a.phi.tau, b.phi.tau, a.phi.smc), Fill(m, []);
      var gap := (a.phi.tau - b.phi.tau) as real;
      var f, c := DropF(a.est, b.est, gap), DropC(a.est, b.est, j, gap);
      && StreamsFit(r, m, a.phi, key)
      && r.f == Pushed(w.f, f, cap) && r.c[j] == Pushed(w.c[j], c, cap)
      && Lookup(r.phiF, a.phi, []) == Pushed(Lookup(w.phiF, a.phi, []), f, cap)
      && Lookup(r.intF, key, []) == Pushed(Lookup(w.intF, key, []), f, cap)
      && Lookup(r.phiC, a.phi, none)[j] == Pushed(Lookup(w.phiC, a.phi, none)[j], c, cap)
      && Lookup(r.intC, key, none)[j] == Pushed(Lookup(w.intC, key, none)[j], c, cap)
      && (forall p :: p != a.phi ==> Lookup(r.phiF, p, []) == Lookup(w.phiF, p, [])
                                     && Lookup(r.phiC, p, none) == Lookup(w.phiC, p, none))
      && (forall k :: k != key ==> Lookup(r.intF, k, []) == Lookup(w.intF, k, [])
                                   && Lookup(r.intC, k, none) == Lookup(w.intC, k, none))
  {
    hide Pushed, DropC, DropF;
    var key := KIntervalKey(a.phi.tau, b.phi.tau, a.phi.smc);
    var gap := TauGap(a.phi, b.phi);
    assert gap == (a.phi.tau - b.phi.tau) as real;
    var v := WithF(w, a.phi, Some(key), DropF(a.est, b.est, gap), cap);
    ConstraintStreams(v, m, a.phi, Some(key), a.est, b.est, gap, cap, m);
  }

  /** An audit without such a pair teaches the drop from the cut to the truth, per unit of the tolerance of the cut,
      to the global streams and to those of the fidelity of the cut. */
  lemma CutToTruthTeaches(w: Windows, m: nat, p: PendingAudit, truth: Estimates, cap: nat, j: nat)
    requires j < m && |w.c| == m && |Lookup(w.phiC, p.auditOf.phiAtCut, Fill(m, []))| == m
    requires p.pairedSamples == []
    ensures var r, phi, none := Learnt(w, m, p, truth, cap), p.auditOf.phiAtCut, Fill(m, []);
      var unit := if phi.tau == 0 then 1.0 else phi.tau as real;
      var f, c := DropF(p.estAtCut, truth, unit), DropC(p.estAtCut, truth, j, unit);
      && r.f == Pushed(w.f, f, cap) && |r.c| == m && r.c[j] == Pushed(w.c[j], c, cap)
      && Lookup(r.phiF, phi, []) == Pushed(Lookup(w.phiF, phi, []), f, cap)
      && |Lookup(r.phiC, phi, none)| == m
      && Lookup(r.phiC, phi, none)[j] == Pushed(Lookup(w.phiC, phi, none)[j], c, cap)
      && r.intF == w.intF
  {
    hide Pushed, DropC, DropF;
    var phi := p.auditOf.phiAtCut;
    var unit := Max(phi.tau as real, 1.0);
    assert unit == if phi.tau == 0 then 1.0 else phi.tau as real;
    assert |Checkpoints(p)| == 1;
    var v := WithF(w, phi, None, DropF(p.estAtCut, truth, unit), cap);
    ConstraintStreams(v, m, phi, None, p.estAtCut, truth, unit, cap, m);
  }

  // ---------------------------------------------------------------- the largest sample registered

  function PairSample(m: nat, a: Checkpoint, b: Checkpoint): real {
    if IsTighterPair(a.phi, b.phi) then LargestDrop(a.est, b.est, TauGap(a.phi, b.phi), m) else 0.0
  }

  /** The largest sample of the first `n` neighbouring pairs. */
  function PairsSample(m: nat, cps: seq<Checkpoint>, n: nat): real
    requires n < |cps|
  {
    if n == 0 then 0.0 else Max(PairsSample(m, cps, n - 1), PairSample(m, cps[n - 1], cps[n]))
  }

  /** The largest sample learnt when a truth result closes the audit `p`. */
  function LearntSample(m: nat, p: PendingAudit, truth: Estimates): real {
    var cps := Checkpoints(p);
    if HasPair(cps) then PairsSample(m, cps, |cps| - 1)
    else LargestDrop(p.estAtCut, truth, Max(p.auditOf.phiAtCut.tau as real, 1.0), m)
  }

  /** The audit that a truth result closes, with its last sample. */
  function ClosedAudit(l: Ledger, id: nat, ps: Option<PairedAuditSample>): PendingAudit
    requires id in l.pending
  {
    l.pending[id].(pairedSamples := AppendOptional(l.pending[id].pairedSamples, ps))
  }

  /** The windows after an event: they learn exactly from the truths that close an audit. */
  function Taught(l: Ledger, w: Windows, m: nat, e: CalibEvent, cap: nat): Windows {
    match e.result
    case Truth(f, c, _, _, meta) =>
      if e.id in l.pending then
        Learnt(w, m, ClosedAudit(l, e.id, e.pairedSample), TruthAsEstimates(meta.phi, f, c, m), cap)
      else w
    case _ => w
  }

  function TaughtAll(l: Ledger, w: Windows, m: nat, events: seq<CalibEvent>, cap: nat): Windows {
    if events == [] then w
    else
      var init := events[..|events| - 1];
      Taught(BookedAll(l, init), TaughtAll(l, w, m, init, cap), m, events[|events| - 1], cap)
  }

  /** The largest sample of an event. */
  function EventSample(l: Ledger, m: nat, e: CalibEvent): real {
    match e.result
    case Truth(f, c, _, _, meta) =>
      if e.id in l.pending then
        LearntSample(m, ClosedAudit(l, e.id, e.pairedSample), TruthAsEstimates(meta.phi, f, c, m))
      else 0.0
    case _ => 0.0
  }

  /** The largest sample of a sequence of events. */
  function EventsSample(l: Ledger, m: nat, events: seq<CalibEvent>): real {
    if events == [] then 0.0
    else
      var init := events[..|events| - 1];
      Max(EventsSample(l, m, init), EventSample(BookedAll(l, init), m, events[|events| - 1]))
  }

  // ---------------------------------------------------------------- the calibrator

  /** One state per fidelity, in order. */
  ghost predicate OrderedKByPhiStates(s: seq<KByPhiState>) {
    |PhisOf(s)| == |s| && forall i, j :: 0 <= i < j < |s| ==> LePhi(s[i].phi, s[j].phi)
  }

  /** One state per interval, in order. */
  ghost predicate OrderedKIntervalStates(s: seq<KIntervalState>) {
    |KeysOf(s)| == |s| && forall i, j :: 0 <= i < j < |s| ==> LeKey(s[i].key, s[j].key)
  }

  lemma OrdersArePreorders()
    ensures TotalPreorder(LePhi) && TotalPreorder(LeKey)
  {
  }

  class DeltaKCalibrator {
    const exp: real -> real
    var policyRev: nat
    var deltaRel: seq<real>
    var kC: seq<real>
    var kF: real
    var epsF: real
    var dcfg: DeltaConfig
    var kcfg: KConfig
    var kIntervalStats: seq<KIntervalState>
    var kByPhi: seq<KByPhiState>
    var counts: seq<Counts>
    var pending: map<nat, PendingAudit>
    var win: Windows
    var shown: seq<Counts>
    /** The largest sample registered so far. */
    ghost var maxSample: real

    function Book(): Ledger
      reads this`counts, this`pending
    {
      Ledger(counts, pending)
    }

    /** The thresholds the margin policy reads. */
    function Policy(): Thresholds
      reads this`deltaRel, this`kC, this`kF, this`kByPhi, this`epsF
    {
      Thresholds(deltaRel, kC, kF, kByPhi, epsF)
    }

    function State(): CalibState
      reads this
    {
      CalibState(policyRev, deltaRel, dcfg.targetFalse, dcfg.minAudits,
                 seq(|shown|, j requires 0 <= j < |shown| reads this => shown[j].audit),
                 seq(|shown|, j requires 0 <= j < |shown| reads this => shown[j].falseInfeas),
                 seq(|shown|, j requires 0 <= j < |shown| reads this => shown[j].confirmed),
                 seq(|shown|, j requires 0 <= j < |shown| reads this => shown[j].auditBy),
                 seq(|shown|, j requires 0 <= j < |shown| reads this => shown[j].falseBy),
                 seq(|shown|, j requires 0 <= j < |shown| reads this => shown[j].confirmedBy))
    }

    ghost predicate Sized()
      reads this`deltaRel, this`kC, this`counts
    {
      |kC| == |counts| == |deltaRel|
    }

    ghost predicate DeltaOk()
      reads this`deltaRel, this`dcfg
    {
      && dcfg.deltaMin <= dcfg.deltaMax
      && forall j :: 0 <= j < |deltaRel| ==> dcfg.deltaMin <= deltaRel[j] <= dcfg.deltaMax
    }

    ghost predicate KConfigOk()
      reads this`kcfg
    {
      kcfg.window >= 1 && 1 <= kcfg.minPairs && 0.0 <= kcfg.eta <= 1.0
    }

    /** Every learned bound lies between zero and the largest sample registered so far. */
    ghost predicate LearnedOk()
      reads this`kC, this`kF, this`kByPhi, this`kIntervalStats, this`maxSample
    {
      && maxSample >= 0.0
      && 0.0 <= kF <= maxSample
      && BoundsOk(kC, |kC|, maxSample)
      && PhiStatesOk(kByPhi, |kC|, maxSample)
      && IntervalStatesOk(kIntervalStats, |kC|, maxSample)
    }

    ghost predicate WindowsFit()
      reads this`win, this`kC, this`kcfg, this`maxSample
    {
      maxSample >= 0.0 && WindowsOk(win, |kC|, kcfg.window, maxSample)
    }

    ghost predicate Valid()
      reads this
    {
      Sized() && DeltaOk() && KConfigOk() && LearnedOk() && WindowsFit() && Balanced(Book())
    }

    constructor (exp: real -> real)
      ensures Valid() && this.exp == exp
    {
      this.exp := exp;
      policyRev, deltaRel, kC, kF, epsF := 0, [], [], 0.0, 0.0;
      dcfg := DeltaConfig(0.0, 0, 0.0, 0.0, 0.0);
      kcfg := KConfig(4096, 25, 0.90, 0.2);
      kIntervalStats, kByPhi, counts, pending, shown := [], [], [], map[], [];
      win := Windows([], [], map[], map[], map[], map[]);
      maxSample := 0.0;
    }

    method Init(m: nat)
      requires KConfigOk()
      modifies this
      ensures Valid() && kcfg == old(kcfg)
      ensures policyRev == 0 && pending == map[]
      ensures Policy() == Thresholds(Fill(m, 0.005), Fill(m, 0.0), 0.0, [], 0.001)
      ensures counts == Fill(m, NO_COUNTS) && shown == counts
      ensures win == EmptyWindows(m) && maxSample == 0.0
    {
      hide WindowsOk, Balanced, EmptyWindows, BoundsOk, PhiStatesOk, IntervalStatesOk;
      ResetRecords(m);
      ResetThresholds(m);
      NothingLearned(m);
      EmptyWindowsOk(m, kcfg.window, maxSample);
      EmptyLedgerBalanced(m);
    }

    method ResetThresholds(m: nat)
      modifies this`policyRev, this`deltaRel, this`kC, this`kF, this`epsF, this`dcfg, this`kByPhi, this`kIntervalStats
      ensures policyRev == 0 && kIntervalStats == [] && DeltaOk()
      ensures Policy() == Thresholds(Fill(m, 0.005), Fill(m, 0.0), 0.0, [], 0.001)
    {
      policyRev := 0;
      deltaRel := Fill(m, 0.005);
      kC, kF, epsF := Fill(m, 0.0), 0.0, 0.001;
      dcfg := DeltaConfig(0.01, 20, 0.1, 0.0, 0.05);
      kIntervalStats, kByPhi := [], [];
    }

    method ResetRecords(m: nat)
      modifies this`counts, this`pending, this`shown, this`win, this`maxSample
      ensures counts == Fill(m, NO_COUNTS) && shown == counts && pending == map[]
      ensures win == EmptyWindows(m) && maxSample == 0.0
    {
      counts, pending := Fill(m, NO_COUNTS), map[];
      shown := counts;
      win := EmptyWindows(m);
      maxSample := 0.0;
    }

    /** Takes over the configuration. Existing windows keep fitting when none holds a sample yet (as
        right after `Init`) or the capacity does not shrink. */
    method Configure(cfg: CalibratorConfig)
      requires Valid() && cfg.deltaMin <= cfg.deltaMax
      modifies this
      ensures Sized() && DeltaOk() && KConfigOk() && LearnedOk() && Balanced(Book())
      ensures (old(win) == EmptyWindows(|old(kC)|) || MaxInt(cfg.kWindow, 1) >= old(kcfg.window)) ==> Valid()
      ensures kcfg == KConfig(MaxInt(cfg.kWindow, 1),
                              MinInt(MaxInt(cfg.kMinPairs, 1), MaxInt(cfg.kWindow, 1)),
                              Clamp(cfg.kQuantile, 0.0, 1.0), Clamp(cfg.kEta, 0.0, 1.0))
      ensures dcfg == DeltaConfig(cfg.targetFalse, cfg.minAudits, cfg.etaDelta, cfg.deltaMin, cfg.deltaMax)
      ensures policyRev == old(policyRev) && Book() == old(Book()) && shown == old(shown) && win == old(win)
      ensures kF == old(kF) && kC == old(kC) && kByPhi == old(kByPhi) && epsF == old(epsF)
      ensures |deltaRel| == |old(deltaRel)|
      ensures forall j :: 0 <= j < |deltaRel| ==> deltaRel[j] == Clamp(old(deltaRel)[j], cfg.deltaMin, cfg.deltaMax)
    {
      hide Balanced, BoundsOk, PhiStatesOk, IntervalStatesOk;
      dcfg := DeltaConfig(cfg.targetFalse, cfg.minAudits, cfg.etaDelta, cfg.deltaMin, cfg.deltaMax);
      var window := MaxInt(cfg.kWindow, 1);
      kcfg := KConfig(window, MinInt(MaxInt(cfg.kMinPairs, 1), window),
                      Clamp(cfg.kQuantile, 0.0, 1.0), Clamp(cfg.kEta, 0.0, 1.0));
      ClampSlacks();
      EmptyWindowsOk(|kC|, window, maxSample);
    }

    method ClampSlacks()
      requires dcfg.deltaMin <= dcfg.deltaMax
      modifies this`deltaRel
      ensures |deltaRel| == |old(deltaRel)|
      ensures forall j :: 0 <= j < |deltaRel| ==> deltaRel[j] == Clamp(old(deltaRel)[j], dcfg.deltaMin, dcfg.deltaMax)
    {
      for j := 0 to |deltaRel|
        invariant |deltaRel| == |old(deltaRel)|
        invariant forall i :: 0 <= i < |deltaRel| ==>
            deltaRel[i] == if i < j then Clamp(old(deltaRel)[i], dcfg.deltaMin, dcfg.deltaMax) else old(deltaRel)[i]
      {
        deltaRel := deltaRel[j := Clamp(deltaRel[j], dcfg.deltaMin, dcfg.deltaMax)];
      }
    }

    /** The controller's decision for one constraint. */
    method StepDelta(prev: real, c: Counts) returns (next: real, changed: bool)
      requires dcfg.deltaMin <= prev <= dcfg.deltaMax
      ensures next == NextDelta(prev, c, dcfg, exp)
      ensures dcfg.deltaMin <= next <= dcfg.deltaMax
      ensures !changed ==> next == prev
    {
      hide FalseRate, DeltaFactor, Scaled;
      if c.audit < MaxInt(dcfg.minAudits, 1) {
        return prev, false;
      }
      var pFalse := FalseRate(c);
      var t := Clamp(dcfg.targetFalse, 0.0, 1.0);
      var s := if pFalse > t then 1 else if pFalse < t / 3.0 then -1 else 0;
      if s == 0 {
        return prev, false;
      }
      next := Clamp(Scaled(prev, DeltaFactor(pFalse, dcfg, exp)), dcfg.deltaMin, dcfg.deltaMax);
      changed := Abs(next - prev) > EPS_CHANGE;
      if !changed {
        next := prev;
      }
    }

    method UpdateDelta() returns (changed: bool)
      requires Sized() && DeltaOk()
      modifies this`deltaRel
      ensures |deltaRel| == |old(deltaRel)| && DeltaOk()
      ensures forall j :: 0 <= j < |deltaRel| ==> deltaRel[j] == NextDelta(old(deltaRel)[j], counts[j], dcfg, exp)
      ensures !changed ==> deltaRel == old(deltaRel)
    {
      hide NextDelta;
      changed := false;
      for j := 0 to |deltaRel|
        invariant |deltaRel| == |old(deltaRel)| && DeltaOk()
        invariant forall i :: 0 <= i < |deltaRel| ==>
            deltaRel[i] == if i < j then NextDelta(old(deltaRel)[i], counts[i], dcfg, exp) else old(deltaRel)[i]
        invariant !changed ==> deltaRel == old(deltaRel)
      {
        var next, ch := StepDelta(deltaRel[j], counts[j]);
        if ch {
          deltaRel := deltaRel[j := next];
          changed := true;
        }
      }
    }

    method UpdateGlobalK() returns (changed: bool)
      requires KConfigOk() && LearnedOk() && WindowsFit()
      modifies this`kC, this`kF
      ensures LearnedOk() && WindowsFit() && |kC| == |old(kC)|
      ensures kF == NextBound(old(kF), win.f, kcfg)
      ensures kC == NextBounds(old(kC), win.c, kcfg)
      ensures !changed ==> kF == old(kF) && kC == old(kC)
    {
      hide Ema, WindowsOk, PhiStatesOk, IntervalStatesOk;
      assert NestedOk(win.c, |kC|, kcfg.window, maxSample) && WindowOk(win.f, kcfg.window, maxSample) by {
        GlobalWindows();
      }
      EmaWithinBounds(kF, win.f, kcfg, maxSample);
      NextBoundsOk(kC, win.c, kcfg, |kC|, kcfg.window, maxSample);
      changed := false;
      var (nextKf, chF) := Ema(kF, win.f, kcfg);
      if chF {
        kF := nextKf;
        changed := true;
      }
      var next, chC := ComputeNextBounds(kC, win.c, kcfg);
      kC := next;
      changed := changed || chC;
    }

    lemma GlobalWindows()
      requires WindowsFit()
      ensures NestedOk(win.c, |kC|, kcfg.window, maxSample) && WindowOk(win.f, kcfg.window, maxSample)
    {
    }

    method UpdatePhiBucketK() returns (changed: bool)
      requires KConfigOk() && LearnedOk() && WindowsFit()
      modifies this`kByPhi
      ensures LearnedOk()
      ensures forall i :: 0 <= i < |kByPhi| ==>
                kByPhi[i] == PhiState(kByPhi[i].phi, old(kByPhi), win, |kC|, kcfg)
      ensures PhisOf(kByPhi) == win.phiF.Keys + win.phiC.Keys + PhisOf(old(kByPhi))
      ensures OrderedKByPhiStates(kByPhi)
      ensures !changed ==> kByPhi == old(kByPhi)
    {
      hide WindowsOk, PhiState, BoundsOk, PhiStatesOk, IntervalStatesOk, PhisOf, OrderedKByPhiStates;
      var prev := kByPhi;
      var next, ch := RebuiltKByPhiStates(prev);
      changed := ch;
      if prev != next {
        changed := true;
      }
      kByPhi := next;
    }

    method RebuiltKByPhiStates(prev: seq<KByPhiState>) returns (next: seq<KByPhiState>, changed: bool)
      requires KConfigOk() && LearnedOk() && WindowsFit()
      requires PhiStatesOk(prev, |kC|, maxSample)
      ensures PhiStatesOk(next, |kC|, maxSample) && OrderedKByPhiStates(next)
      ensures forall i :: 0 <= i < |next| ==> next[i] == PhiState(next[i].phi, prev, win, |kC|, kcfg)
      ensures PhisOf(next) == win.phiF.Keys + win.phiC.Keys + PhisOf(prev)
    {
      hide WindowsOk, PhiState, BoundsOk, PhiStatesOk, IntervalStatesOk, PhisOf, LePhi;
      var keys := SortedPhis(win.phiF.Keys + win.phiC.Keys + PhisOf(prev));
      var ch;
      next, ch := NextPhiStates(keys, prev);
      changed := ch;
      PhisOfStates(next, keys);
    }

    method NextPhiStates(phis: seq<Phi>, prev: seq<KByPhiState>) returns (next: seq<KByPhiState>, changed: bool)
      requires KConfigOk() && LearnedOk() && WindowsFit()
      requires PhiStatesOk(prev, |kC|, maxSample)
      ensures |next| == |phis| && PhiStatesOk(next, |kC|, maxSample)
      ensures forall n :: 0 <= n < |phis| ==>
                next[n] == PhiState(phis[n], prev, win, |kC|, kcfg) && next[n].phi == phis[n]
    {
      hide WindowsOk, PhiState, BoundsOk, IntervalStatesOk;
      changed := false;
      next := [];
      for i := 0 to |phis|
        invariant |next| == i
        invariant forall n :: 0 <= n < i ==>
            next[n] == PhiState(phis[n], prev, win, |kC|, kcfg) && next[n].phi == phis[n]
        invariant PhiStatesOk(next, |kC|, maxSample)
      {
        var st, ch := NextPhiState(phis[i], prev);
        PhiStateOk(phis[i], prev, win, |kC|, kcfg, maxSample);
        changed := changed || ch;
        next := next + [st];
      }
    }

    /** One bucket of the per-fidelity bounds. */
    method NextPhiState(phi: Phi, prev: seq<KByPhiState>) returns (st: KByPhiState, changed: bool)
      ensures st == PhiState(phi, prev, win, |kC|, kcfg) && st.phi == phi
    {
      hide Ema;
      var o := FindPhi(prev, phi);
      var oldF := if o.Some? then o.value.kF else 0.0;
      var (nextF, chF) := Ema(oldF, Lookup(win.phiF, phi, []), kcfg);
      changed := chF;
      var bounds := Resized(if o.Some? then o.value.kC else Fill(|kC|, 0.0), |kC|);
      if phi in win.phiC {
        var next, ch := ComputeNextBounds(bounds, win.phiC[phi], kcfg);
        bounds := next;
        changed := changed || ch;
      }
      st := KByPhiState(phi, nextF, bounds);
    }

    method UpdateIntervalK() returns (changed: bool)
      requires KConfigOk() && LearnedOk() && WindowsFit()
      modifies this`kIntervalStats
      ensures LearnedOk()
      ensures forall i :: 0 <= i < |kIntervalStats| ==>
                kIntervalStats[i] == IntervalState(kIntervalStats[i].key, old(kIntervalStats), win, |kC|, kcfg)
      ensures KeysOf(kIntervalStats) == win.intF.Keys + win.intC.Keys + KeysOf(old(kIntervalStats))
      ensures OrderedKIntervalStates(kIntervalStats)
      ensures changed <==> AnyIntervalMoves(kIntervalStats, old(kIntervalStats), win, |kC|, kcfg)
    {
      hide WindowsOk, IntervalState, AnyIntervalMoves, BoundsOk, IntervalStatesOk, PhiStatesOk, KeysOf,
        OrderedKIntervalStates;
      var prev := kIntervalStats;
      var next, ch := RebuiltKIntervalStates(prev);
      changed := ch;
      kIntervalStats := next;
    }

    method RebuiltKIntervalStates(prev: seq<KIntervalState>) returns (next: seq<KIntervalState>, changed: bool)
      requires KConfigOk() && LearnedOk() && WindowsFit()
      requires IntervalStatesOk(prev, |kC|, maxSample)
      ensures IntervalStatesOk(next, |kC|, maxSample) && OrderedKIntervalStates(next)
      ensures forall i :: 0 <= i < |next| ==> next[i] == IntervalState(next[i].key, prev, win, |kC|, kcfg)
      ensures KeysOf(next) == win.intF.Keys + win.intC.Keys + KeysOf(prev)
      ensures changed <==> AnyIntervalMoves(next, prev, win, |kC|, kcfg)
    {
      hide WindowsOk, IntervalState, AnyIntervalMoves, BoundsOk, IntervalStatesOk, PhiStatesOk, KeysOf, LeKey;
      var keys := SortedIntervals(win.intF.Keys + win.intC.Keys + KeysOf(prev));
      var ch;
      next, ch := NextIntervalStates(keys, prev);
      changed := ch;
      KeysOfStates(next, keys);
    }

    method NextIntervalStates(keys: seq<KIntervalKey>, prev: seq<KIntervalState>)
      returns (next: seq<KIntervalState>, changed: bool)
      requires KConfigOk() && LearnedOk() && WindowsFit()
      requires IntervalStatesOk(prev, |kC|, maxSample)
      ensures |next| == |keys| && IntervalStatesOk(next, |kC|, maxSample)
      ensures forall n :: 0 <= n < |keys| ==>
                next[n] == IntervalState(keys[n], prev, win, |kC|, kcfg) && next[n].key == keys[n]
      ensures changed <==> AnyIntervalMoves(next, prev, win, |kC|, kcfg)
    {
      hide WindowsOk, IntervalState, IntervalMoves, BoundsOk, PhiStatesOk;
      changed := false;
      next := [];
      for i := 0 to |keys|
        invariant |next| == i
        invariant forall n :: 0 <= n < i ==>
            next[n] == IntervalState(keys[n], prev, win, |kC|, kcfg) && next[n].key == keys[n]
        invariant changed <==> AnyIntervalMoves(next, prev, win, |kC|, kcfg)
        invariant IntervalStatesOk(next, |kC|, maxSample)
      {
        var st, ch := NextIntervalState(keys[i], prev);
        IntervalStateOk(keys[i], prev, win, |kC|, kcfg, maxSample);
        changed := changed || ch;
        next := next + [st];
      }
    }

    /** One bucket of the per-interval bounds. */
    method NextIntervalState(key: KIntervalKey, prev: seq<KIntervalState>) returns (st: KIntervalState, changed: bool)
      ensures st == IntervalState(key, prev, win, |kC|, kcfg) && st.key == key
      ensures changed <==> IntervalMoves(key, prev, win, |kC|, kcfg)
    {
      hide Ema, SomeMoves;
      var o := FindInterval(prev, key);
      var oldF := if o.Some? then o.value.kF else 0.0;
      var fSamples := Lookup(win.intF, key, []);
      var (nextF, chF) := Ema(oldF, fSamples, kcfg);
      changed := chF;
      var bounds := Resized(if o.Some? then o.value.kC else Fill(|kC|, 0.0), |kC|);
      if key in win.intC {
        var next, ch := ComputeNextBounds(bounds, win.intC[key], kcfg);
        bounds := next;
        changed := changed || ch;
      }
      st := KIntervalState(key, nextF, bounds, |fSamples|, SampleCounts(Lookup(win.intC, key, []), |kC|));
    }

    method NoteAuditCheckpoint(id: nat, a: AuditOf, est: Estimates, ps: Option<PairedAuditSample>)
      modifies this`counts, this`pending
      ensures Book() == Noted(old(Book()), id, a, est, ps)
    {
      hide WithCut, AppendPaired;
      if id !in pending {
        var j := a.violatedJ;
        if j < |counts| {
          counts := counts[j := WithCut(counts[j], a.phiIdxAtCut)];
        }
        var p := PendingAudit(a, est, []);
        if ps.Some? {
          p := p.(pairedSamples := AppendPaired(p.pairedSamples, ps.value));
        }
        pending := pending[id := p];
      } else {
        var p := pending[id];
        if est.phi == a.phiAtCut {
          p := p.(estAtCut := est);
        }
        if ps.Some? {
          p := p.(pairedSamples := AppendPaired(p.pairedSamples, ps.value));
        }
        pending := pending[id := p];
      }
    }

    /** Pushes the drops between two estimates into all streams of a bucket. */
    method RegisterDrops(phi: Phi, key: Option<KIntervalKey>, loose: Estimates, tight: Estimates, scale: real)
      requires scale > 0.0 && WindowsFit()
      modifies this`win, this`maxSample
      ensures win == Compared(old(win), |kC|, phi, key, loose, tight, scale, kcfg.window)
      ensures maxSample == Max(old(maxSample), LargestDrop(loose, tight, scale, |kC|))
      ensures WindowsFit()
    {
      hide WindowsOk, WithF, WithC, DropF, DropC, LargestDrop;
      ComparedKeepsWindows(win, |kC|, phi, key, loose, tight, scale, kcfg.window, maxSample);
      win := WithF(win, phi, key, DropF(loose, tight, scale), kcfg.window);
      ghost var w0 := win;
      for j := 0 to |kC|
        invariant win == WithCs(w0, |kC|, phi, key, loose, tight, scale, kcfg.window, j)
        invariant maxSample == old(maxSample)
      {
        win := WithC(win, |kC|, phi, key, j, DropC(loose, tight, j, scale), kcfg.window);
      }
      maxSample := Max(maxSample, LargestDrop(loose, tight, scale, |kC|));
    }

    method RegisterIntervalSample(loosePhi: Phi, loose: Estimates, tightPhi: Phi, tight: Estimates)
      requires WindowsFit()
      modifies this`win, this`maxSample
      ensures win == WithPair(old(win), |kC|, Checkpoint(loosePhi, loose), Checkpoint(tightPhi, tight), kcfg.window)
      ensures maxSample
           == Max(old(maxSample), PairSample(|kC|, Checkpoint(loosePhi, loose), Checkpoint(tightPhi, tight)))
      ensures WindowsFit()
    {
      hide WindowsOk, Compared, LargestDrop;
      if loosePhi.smc != tightPhi.smc || tightPhi.tau >= loosePhi.tau {
        return;
      }
      var dtau := Max((loosePhi.tau as real) - (tightPhi.tau as real), 1.0);
      var key := KIntervalKey(loosePhi.tau, tightPhi.tau, loosePhi.smc);
      RegisterDrops(loosePhi, Some(key), loose, tight, dtau);
    }

    method RegisterCutToTruthFallback(cutPhi: Phi, cut: Estimates, truth: Estimates)
      requires WindowsFit()
      modifies this`win, this`maxSample
      ensures win == Compared(old(win), |kC|, cutPhi, None, cut, truth, Max(cutPhi.tau as real, 1.0), kcfg.window)
      ensures maxSample == Max(old(maxSample), LargestDrop(cut, truth, Max(cutPhi.tau as real, 1.0), |kC|))
      ensures WindowsFit()
    {
      hide WindowsOk, Compared, LargestDrop;
      var tauScale := Max(cutPhi.tau as real, 1.0);
      RegisterDrops(cutPhi, None, cut, truth, tauScale);
    }

    /** Walks the checkpoints of a closed audit pairwise, from loose to tight. */
    method LearnFrom(p: PendingAudit, truth: Estimates)
      requires WindowsFit()
      modifies this`win, this`maxSample
      ensures win == Learnt(old(win), |kC|, p, truth, kcfg.window)
      ensures maxSample == Max(old(maxSample), LearntSample(|kC|, p, truth))
      ensures WindowsFit()
    {
      hide WindowsOk, Compared, WithPair, Checkpoints, PairSample, LargestDrop;
      var cps := Checkpoints(p);
      var pairs := 0;
      for i := 1 to |cps|
        invariant win == WithPairs(old(win), |kC|, cps, i - 1, kcfg.window)
        invariant maxSample == Max(old(maxSample), PairsSample(|kC|, cps, i - 1))
        invariant WindowsFit()
        invariant pairs > 0 <==> exists n :: 1 <= n < i && IsTighterPair(cps[n - 1].phi, cps[n].phi)
        invariant pairs == 0 ==> win == old(win) && maxSample == old(maxSample)
      {
        var a, b := cps[i - 1], cps[i];
        SkippedPair(win, |kC|, a, b, kcfg.window);
        RegisterIntervalSample(a.phi, a.est, b.phi, b.est);
        if a.phi.smc == b.phi.smc && b.phi.tau < a.phi.tau {
          pairs := pairs + 1;
        }
      }
      if pairs == 0 {
        RegisterCutToTruthFallback(p.auditOf.phiAtCut, p.estAtCut, truth);
      }
    }

    method CloseAudit(id: nat, f: Objectives, c: seq<real>, feasible: bool, phi: Phi, ps: Option<PairedAuditSample>)
      requires WindowsFit()
      modifies this`counts, this`pending, this`win, this`maxSample
      ensures Book() == Closed(old(Book()), id, feasible, c)
      ensures WindowsFit()
      ensures if id !in old(pending) then win == old(win) && maxSample == old(maxSample)
              else var p, truth := ClosedAudit(old(Book()), id, ps), TruthAsEstimates(phi, f, c, |kC|);
                && win == Learnt(old(win), |kC|, p, truth, kcfg.window)
                && maxSample == Max(old(maxSample), LearntSample(|kC|, p, truth))
    {
      hide WindowsOk, WithAudit, AppendPaired, Learnt, LearntSample;
      if id !in pending {
        return;
      }
      var p := pending[id];
      pending := pending - {id};
      if ps.Some? {
        p := p.(pairedSamples := AppendPaired(p.pairedSamples, ps.value));
      }
      var j := p.auditOf.violatedJ;
      if j < |counts| {
        counts := counts[j := WithAudit(counts[j], p.auditOf.phiIdxAtCut, feasible, GetOr(c, j, 0.0) > 0.0)];
      }
      LearnFrom(p, TruthAsEstimates(phi, f, c, |kC|));
    }

    method TakeEvent(e: CalibEvent)
      requires WindowsFit()
      modifies this`counts, this`pending, this`win, this`maxSample
      ensures Book() == Booked(old(Book()), e)
      ensures win == Taught(old(Book()), old(win), |kC|, e, kcfg.window)
      ensures maxSample == Max(old(maxSample), EventSample(old(Book()), |kC|, e))
      ensures WindowsFit()
    {
      hide WindowsOk, Noted, Closed, Learnt, LearntSample, ClosedAudit, TruthAsEstimates;
      match e.result
      case EarlyInfeasible(_, est, _) =>
        if e.audited && e.auditOf.Some? {
          NoteAuditCheckpoint(e.id, e.auditOf.value, est, e.pairedSample);
        }
      case Partial(est, _) =>
        if e.audited && e.auditOf.Some? {
          NoteAuditCheckpoint(e.id, e.auditOf.value, est, e.pairedSample);
        }
      case Truth(f, c, feasible, _, meta) =>
        CloseAudit(e.id, f, c, feasible, meta.phi, e.pairedSample);
      case _ =>
    }

    method TakeEvents(events: seq<CalibEvent>)
      requires Valid()
      modifies this`counts, this`pending, this`win, this`maxSample
      ensures Book() == BookedAll(old(Book()), events)
      ensures win == TaughtAll(old(Book()), old(win), |kC|, events, kcfg.window)
      ensures maxSample == Max(old(maxSample), EventsSample(old(Book()), |kC|, events))
      ensures Valid()
    {
      hide WindowsOk, Booked, Balanced, BoundsOk, PhiStatesOk, IntervalStatesOk, Taught, EventSample;
      AuditAccounting(Book(), events);
      BookingKeepsSize(Book(), events);
      for i := 0 to |events|
        invariant Book() == BookedAll(old(Book()), events[..i])
        invariant win == TaughtAll(old(Book()), old(win), |kC|, events[..i], kcfg.window)
        invariant maxSample == Max(old(maxSample), EventsSample(old(Book()), |kC|, events[..i]))
        invariant WindowsFit()
      {
        assert events[..i + 1][..i] == events[..i];
        TakeEvent(events[i]);
      }
      assert events[..|events|] == events;
      LearnedGrows(kC, kByPhi, kIntervalStats, old(maxSample), maxSample);
    }

    /** The updates of the learned bias bounds, in order. */
    method UpdateBounds() returns (changed: bool)
      requires KConfigOk() && LearnedOk() && WindowsFit()
      modifies this`kC, this`kF, this`kByPhi, this`kIntervalStats
      ensures LearnedOk() && WindowsFit() && |kC| == |old(kC)|
      ensures !changed ==> kC == old(kC) && kF == old(kF) && kByPhi == old(kByPhi)
      ensures kF == NextBound(old(kF), win.f, kcfg) && kC == NextBounds(old(kC), win.c, kcfg)
      ensures forall i :: 0 <= i < |kByPhi| ==>
                kByPhi[i] == PhiState(kByPhi[i].phi, old(kByPhi), win, |kC|, kcfg)
      ensures forall i :: 0 <= i < |kIntervalStats| ==>
                kIntervalStats[i] == IntervalState(kIntervalStats[i].key, old(kIntervalStats), win, |kC|, kcfg)
    {
      hide WindowsOk, BoundsOk, PhiStatesOk, IntervalStatesOk, PhiState, IntervalState, NextBounds,
        NextBound, PhisOf, KeysOf, LePhi, LeKey;
      changed := UpdateGlobalK();
      var ch := UpdateIntervalK();
      changed := changed || ch;
      ch := UpdatePhiBucketK();
      changed := changed || ch;
    }

    /** The batch-boundary update. When it reports no change, the published thresholds are the same;
        and whatever the events, the audit ledger balances, windows and learned bounds stay within
        range, and the slacks stay within their limits. */
    method Update(events: seq<CalibEvent>) returns (delta: nat)
      requires Valid()
      modifies this
      ensures Valid()
      ensures Book() == BookedAll(old(Book()), events)
      ensures delta <= 1 && policyRev == old(policyRev) + delta
      ensures delta == 0 ==> Policy() == old(Policy())
      ensures shown == counts && |deltaRel| == |old(deltaRel)|
      ensures win == TaughtAll(old(Book()), old(win), |kC|, events, kcfg.window)
      ensures maxSample == Max(old(maxSample), EventsSample(old(Book()), |kC|, events))
      ensures forall j :: 0 <= j < |deltaRel| ==> deltaRel[j] == NextDelta(old(deltaRel)[j], counts[j], dcfg, exp)
      ensures kF == NextBound(old(kF), win.f, kcfg) && kC == NextBounds(old(kC), win.c, kcfg)
      ensures forall i :: 0 <= i < |kByPhi| ==>
                kByPhi[i] == PhiState(kByPhi[i].phi, old(kByPhi), win, |kC|, kcfg)
      ensures forall i :: 0 <= i < |kIntervalStats| ==>
                kIntervalStats[i] == IntervalState(kIntervalStats[i].key, old(kIntervalStats), win, |kC|, kcfg)
      ensures dcfg == old(dcfg) && kcfg == old(kcfg)
    {
      hide WindowsOk, Balanced, BoundsOk, PhiStatesOk, IntervalStatesOk, BookedAll, NextDelta, TaughtAll,
        EventsSample, PhiState, IntervalState, NextBound, NextBounds;
      TakeEvents(events);
      var anyChange := UpdateDelta();
      var ch := UpdateBounds();
      anyChange := anyChange || ch;
      shown := counts;
      if anyChange {
        policyRev := policyRev + 1;
        delta := 1;
      } else {
        delta := 0;
      }
    }

    /** With a non-negative lower limit for the slacks, nothing the calibrator publishes is negative. */
    lemma PolicyNonNegative()
      requires Valid() && dcfg.deltaMin >= 0.0
      ensures NonNegative(Policy())
    {
      forall st | st in kByPhi
        ensures st.kF >= 0.0 && forall j :: 0 <= j < |st.kC| ==> st.kC[j] >= 0.0
      {
        var i :| 0 <= i < |kByPhi| && kByPhi[i] == st;
        assert BoundsOk(st.kC, |kC|, maxSample);
      }
    }
  }

  lemma NothingLearned(m: nat)
    ensures BoundsOk(Fill(m, 0.0), m, 0.0) && PhiStatesOk([], m, 0.0) && IntervalStatesOk([], m, 0.0)
  {
  }

  method SortedPhis(keys: set<Phi>) returns (r: seq<Phi>)
    ensures |r| == |keys| && keys == set p | p in r
    ensures forall i, j :: 0 <= i < j < |r| ==> LePhi(r[i], r[j])
  {
    OrdersArePreorders();
    r := SortedKeys(keys, LePhi);
  }

  method SortedIntervals(keys: set<KIntervalKey>) returns (r: seq<KIntervalKey>)
    ensures |r| == |keys| && keys == set p | p in r
    ensures forall i, j :: 0 <= i < j < |r| ==> LeKey(r[i], r[j])
  {
    OrdersArePreorders();
    r := SortedKeys(keys, LeKey);
  }

  lemma PhisOfStates(states: seq<KByPhiState>, phis: seq<Phi>)
    requires |states| == |phis| && forall n :: 0 <= n < |phis| ==> states[n].phi == phis[n]
    ensures PhisOf(states) == set p | p in phis
  {
    forall p | p in phis
      ensures p in PhisOf(states)
    {
      var i :| 0 <= i < |phis| && phis[i] == p;
      assert states[i] in states;
    }
  }

  lemma KeysOfStates(states: seq<KIntervalState>, keys: seq<KIntervalKey>)
    requires |states| == |keys| && forall n :: 0 <= n < |keys| ==> states[n].key == keys[n]
    ensures KeysOf(states) == set k | k in keys
  {
    forall k | k in keys
      ensures k in KeysOf(states)
    {
      var i :| 0 <= i < |keys| && keys[i] == k;
      assert states[i] in states;
    }
  }

  lemma SkippedPair(w: Windows, m: nat, a: Checkpoint, b: Checkpoint, cap: nat)
    ensures !IsTighterPair(a.phi, b.phi) ==> WithPair(w, m, a, b, cap) == w && PairSample(m, a, b) == 0.0
  {
  }

  lemma {:induction false} BookingKeepsSize(l: Ledger, events: seq<CalibEvent>)
    ensures |BookedAll(l, events).counts| == |l.counts|
  {
    if events != [] {
      BookingKeepsSize(l, events[..|events| - 1]);
    }
  }

  lemma LearnedGrows(kC: seq<real>, byPhi: seq<KByPhiState>, stats: seq<KIntervalState>, a: real, b: real)
    requires a <= b
    ensures BoundsOk(kC, |kC|, a) ==> BoundsOk(kC, |kC|, b)
    ensures PhiStatesOk(byPhi, |kC|, a) ==> PhiStatesOk(byPhi, |kC|, b)
    ensures IntervalStatesOk(stats, |kC|, a) ==> IntervalStatesOk(stats, |kC|, b)
  {
  }
}
