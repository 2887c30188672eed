/** Decision margins: when a partial estimate is good enough to cut or to stop a candidate. */
module Margin {
  import opened Types
  import opened Sorting
  import opened Arithmetic

  datatype KByPhiState = KByPhiState(phi: Phi, kF: real, kC: seq<real>)

  /** The part of the learned state that decides cuts and pruning. */
  datatype Thresholds = Thresholds(
    deltaRel: seq<real>,
    kC: seq<real>,
    kF: real,
    kByPhi: seq<KByPhiState>,
    epsF: real)

  const Z_05: real := 1.645
  const Z_10: real := 1.282

  function FindPhi(states: seq<KByPhiState>, phi: Phi): (r: Option<KByPhiState>)
    ensures r.Some? ==> r.value in states && r.value.phi == phi
    ensures r.None? ==> forall st :: st in states ==> st.phi != phi
  {
    if states == [] then None
    else if states[0].phi == phi then Some(states[0])
    else FindPhi(states[1..], phi)
  }

  function KFFor(th: Thresholds, phi: Phi): real {
    match FindPhi(th.kByPhi, phi)
    case Some(st) => st.kF
    case None => th.kF
  }

  function KCFor(th: Thresholds, phi: Phi, j: nat): real {
    var fallback := GetOr(th.kC, j, 0.0);
    match FindPhi(th.kByPhi, phi)
    case Some(st) => GetOr(st.kC, j, fallback)
    case None => fallback
  }

  /** The margin inequality: even the optimistic estimate of constraint `j` exceeds its slack. */
  predicate Exceeds(est: Estimates, th: Thresholds, j: nat) {
    && j < |est.cHat| && j < |est.cSe|
    && est.cHat[j] - Z_05 * est.cSe[j] - KCFor(th, est.phi, j) * est.tauScale > GetOr(th.deltaRel, j, 0.0)
  }

  function FirstExceeding(est: Estimates, th: Thresholds, j: nat): Option<nat>
    decreases |est.cHat| - j
  {
    if j >= |est.cHat| || j >= |est.cSe| then None
    else if Exceeds(est, th, j) then Some(j)
    else FirstExceeding(est, th, j + 1)
  }

  function EarlyInfeasibleIn(est: Estimates, th: Thresholds): Option<nat> {
    FirstExceeding(est, th, 0)
  }

  lemma {:induction false} FirstExceedingSpec(est: Estimates, th: Thresholds, j: nat)
    ensures match FirstExceeding(est, th, j)
            case None => forall k :: j <= k ==> !Exceeds(est, th, k)
            case Some(i) => j <= i && Exceeds(est, th, i) && forall k :: j <= k < i ==> !Exceeds(est, th, k)
    decreases |est.cHat| - j
  {
    if j < |est.cHat| && j < |est.cSe| && !Exceeds(est, th, j) {
      FirstExceedingSpec(est, th, j + 1);
    }
  }

  /** The named constraint is the first one, and only one, whose margin inequality decides the cut. */
  lemma EarlyInfeasibleSpec(est: Estimates, th: Thresholds)
    ensures match EarlyInfeasibleIn(est, th)
            case None => forall k: nat :: !Exceeds(est, th, k)
            case Some(i) => Exceeds(est, th, i) && forall k :: 0 <= k < i ==> !Exceeds(est, th, k)
  {
    FirstExceedingSpec(est, th, 0);
  }

  /** No learned quantity is negative. */
  ghost predicate NonNegative(th: Thresholds) {
    && (forall j :: 0 <= j < |th.deltaRel| ==> th.deltaRel[j] >= 0.0)
    && (forall j :: 0 <= j < |th.kC| ==> th.kC[j] >= 0.0)
    && th.kF >= 0.0
    && (forall st :: st in th.kByPhi ==> st.kF >= 0.0 && forall j :: 0 <= j < |st.kC| ==> st.kC[j] >= 0.0)
  }

  /** A cut under non-negative thresholds never names a constraint whose estimate is satisfied, and
      any value within the error allowance of the estimate violates the constraint. */
  lemma CutsAreConservative(est: Estimates, th: Thresholds, j: nat, actual: real)
    requires NonNegative(th)
    requires est.tauScale >= 0.0 && forall k :: 0 <= k < |est.cSe| ==> est.cSe[k] >= 0.0
    requires EarlyInfeasibleIn(est, th) == Some(j)
    ensures j < |est.cHat| && j < |est.cSe| && est.cHat[j] > 0.0
    ensures actual >= est.cHat[j] - Z_05 * est.cSe[j] - KCFor(th, est.phi, j) * est.tauScale ==> actual > 0.0
  {
    EarlyInfeasibleSpec(est, th);
    assert KCFor(th, est.phi, j) >= 0.0;
    MulNonNegative(KCFor(th, est.phi, j), est.tauScale);
  }

  /** The optimistic and pessimistic bounds on the primary objective. */
  function ObjectiveBounds(est: Estimates, th: Thresholds): (real, real) {
    var kF := KFFor(th, est.phi);
    (est.FHatPrimary() - Z_10 * est.FSePrimary() - kF * est.tauScale,
     est.FHatPrimary() + Z_05 * est.FSePrimary() + kF * est.tauScale)
  }

  /** Under non-negative thresholds the bounds bracket the estimate. */
  lemma BoundsBracket(est: Estimates, th: Thresholds)
    requires NonNegative(th) && est.tauScale >= 0.0
    requires forall k :: 0 <= k < |est.fSe| ==> est.fSe[k] >= 0.0
    ensures ObjectiveBounds(est, th).0 <= est.FHatPrimary() <= ObjectiveBounds(est, th).1
  {
    MulNonNegative(KFFor(th, est.phi), est.tauScale);
  }

  /** The learned bound of the fidelity goes before the global one; constraints it does not cover, and
      fidelities without a bound, fall back to the global one. */
  lemma {:induction false} BoundOfFidelity(th: Thresholds, phi: Phi, j: nat)
    requires forall a, b :: a in th.kByPhi && b in th.kByPhi && a.phi == b.phi ==> a == b
    ensures forall st :: st in th.kByPhi && st.phi == phi ==>
              KFFor(th, phi) == st.kF && KCFor(th, phi, j) == if j < |st.kC| then st.kC[j] else GetOr(th.kC, j, 0.0)
    ensures (forall st :: st in th.kByPhi ==> st.phi != phi) ==>
              KFFor(th, phi) == th.kF && KCFor(th, phi, j) == if j < |th.kC| then th.kC[j] else 0.0
  {
    hide FindPhi;
  }

  /** A constraint exceeds its margin, if and only if its estimate is beyond its slack by more than the allowance:
      1.645 standard errors and the learned bound times the tolerance. */
  lemma ExceedsIff(est: Estimates, th: Thresholds, j: nat)
    ensures Exceeds(est, th, j) <==>
      && j < |est.cHat| && j < |est.cSe|
      && est.cHat[j] > (if j < |th.deltaRel| then th.deltaRel[j] else 0.0)
                       + 1.645 * est.cSe[j] + KCFor(th, est.phi, j) * est.tauScale
  {
    hide KCFor;
  }

  /** The bounds leave 1.282 standard errors below the primary objective and 1.645 above it, and the learned
      bound times the tolerance on both sides. */
  lemma ObjectiveAllowances(est: Estimates, th: Thresholds)
    ensures var se := if est.fSe == [] then 0.0 else est.fSe[0];
      && est.fHat[0] - ObjectiveBounds(est, th).0 == 1.282 * se + KFFor(th, est.phi) * est.tauScale
      && ObjectiveBounds(est, th).1 - est.fHat[0] == 1.645 * se + KFFor(th, est.phi) * est.tauScale
  {
    hide KFFor;
  }

  // ---------------------------------------------------------------- pruning gate

  datatype PruneConfig = PruneConfig(
    minSmcRank: nat, minLevel: nat, requireBackHalf: bool, disableForAudit: bool)

  function SmcOf(ladder: seq<Phi>): (r: seq<nat>)
    ensures |r| == |ladder|
    ensures forall i :: 0 <= i < |r| ==> r[i] == ladder[i].smc
  {
    seq(|ladder|, i requires 0 <= i < |ladder| => ladder[i].smc)
  }

  /** Drops repetitions of neighbouring elements. */
  function Dedup(s: seq<nat>): seq<nat> {
    if |s| <= 1 then s
    else if s[0] == s[1] then Dedup(s[1..])
    else [s[0]] + Dedup(s[1..])
  }

  function ObjectivePruningAllowed(phiIdx: nat, ladder: seq<Phi>, auditRequired: bool, cfg: PruneConfig): bool {
    if |ladder| == 0 || phiIdx >= |ladder| then false
    else if auditRequired && cfg.disableForAudit then false
    else
      var level := phiIdx + 1;
      if level < MaxInt(cfg.minLevel, 1) then false
      else
        var current := ladder[phiIdx];
        var levels := Dedup(Sort(SmcOf(ladder), LeNat));
        var rankIdx := MaxInt(cfg.minSmcRank, 1) - 1;
        var last := if levels == [] then current.smc else levels[|levels| - 1];
        var threshold := GetOr(levels, rankIdx, last);
        if current.smc < threshold then false
        else !(cfg.requireBackHalf && level < MaxInt(|ladder| / 2 + 1, 2))
  }

  lemma {:induction false} DedupSpec(s: seq<nat>)
    requires SortedBy(s, LeNat)
    ensures Ascending(Dedup(s))
    ensures forall x :: x in Dedup(s) <==> x in s
    ensures s != [] ==> Dedup(s) != [] && Dedup(s)[0] == s[0]
  {
    if |s| > 1 {
      assert s == [s[0]] + s[1..];
      assert SortedBy(s[1..], LeNat);
      DedupSpec(s[1..]);
      assert LeNat(s[0], s[1]);
    }
  }

  /** The distinct sample sizes on the ladder up to and including `smc`. */
  ghost function SizesUpTo(ladder: seq<Phi>, smc: nat): set<nat> {
    set i | 0 <= i < |ladder| && ladder[i].smc <= smc :: ladder[i].smc
  }

  ghost function Sizes(ladder: seq<Phi>): set<nat> {
    set i | 0 <= i < |ladder| :: ladder[i].smc
  }

  lemma {:induction false} PrefixSize(s: seq<nat>, n: nat)
    requires Ascending(s) && n <= |s|
    ensures |set i | 0 <= i < n :: s[i]| == n
  {
    var now := set i | 0 <= i < n :: s[i];
    if n > 0 {
      PrefixSize(s, n - 1);
      var before := set i | 0 <= i < n - 1 :: s[i];
      assert now == before + {s[n - 1]};
    } else {
      assert now == {};
    }
  }

  /** The rank condition of the gate counts distinct sample sizes: at least `min_smc_rank` of them
      (or all of them) are no larger than the current one. */
  lemma PruningGateCountsSizes(phiIdx: nat, ladder: seq<Phi>, audit: bool, cfg: PruneConfig)
    requires phiIdx < |ladder|
    ensures ObjectivePruningAllowed(phiIdx, ladder, audit, cfg) <==>
      && !(audit && cfg.disableForAudit)
      && phiIdx + 1 >= MaxInt(cfg.minLevel, 1)
      && |SizesUpTo(ladder, ladder[phiIdx].smc)| >= MinInt(MaxInt(cfg.minSmcRank, 1), |Sizes(ladder)|)
      && (cfg.requireBackHalf ==> phiIdx + 1 >= MaxInt(|ladder| / 2 + 1, 2))
  {
    var smcs := SmcOf(ladder);
    var sorted := Sort(smcs, LeNat);
    var levels := Dedup(sorted);
    SortSorts(smcs, LeNat);
    SortMembers(smcs, LeNat);
    DedupSpec(sorted);
    var cur := ladder[phiIdx].smc;
    assert smcs[phiIdx] == cur;
    assert cur in levels;
    var p :| 0 <= p < |levels| && levels[p] == cur;
    PrefixSize(levels, |levels|);
    PrefixSize(levels, p + 1);
    SizesAreLevels(ladder, levels, p);
  }

  lemma SizesAreLevels(ladder: seq<Phi>, levels: seq<nat>, p: nat)
    requires Ascending(levels) && p < |levels|
    requires forall x :: x in levels <==> x in SmcOf(ladder)
    ensures Sizes(ladder) == set i | 0 <= i < |levels| :: levels[i]
    ensures SizesUpTo(ladder, levels[p]) == set i | 0 <= i < p + 1 :: levels[i]
  {
    var smcs := SmcOf(ladder);
    forall x
      ensures x in Sizes(ladder) <==> x in levels
    {
      if x in Sizes(ladder) {
        var i :| 0 <= i < |ladder| && ladder[i].smc == x;
        assert smcs[i] == x;
      }
      if x in levels {
        assert x in smcs;
        var i :| 0 <= i < |smcs| && smcs[i] == x;
      }
    }
    assert forall x :: x in SizesUpTo(ladder, levels[p]) <==> x in Sizes(ladder) && x <= levels[p];
  }
}
