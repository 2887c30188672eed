/** Acceptance of truth results: an epsilon-dominance filter behind a progressive barrier. */
module Acceptance {
  import opened Types
  import opened Sorting
  import opened Arithmetic

  datatype AcceptanceConfig = AcceptanceConfig(
    h0: real, hMin: real, hShrink: real, epsF: real, epsV: real, filterCap: nat)
  {
    function Floor(): real {
      Max(hMin, 0.0)
    }

    function Cap(): nat {
      MaxInt(filterCap, 1)
    }
  }

  datatype FilterPoint = FilterPoint(f: real, v: real)

  datatype AcceptState = AcceptState(h: real, points: seq<FilterPoint>, incumbent: Option<real>)

  predicate Dominates(a: FilterPoint, b: FilterPoint, cfg: AcceptanceConfig) {
    var epsF, epsV := Max(cfg.epsF, 0.0), Max(cfg.epsV, 0.0);
    && a.f <= b.f + epsF && a.v <= b.v + epsV
    && (a.f < b.f - epsF || a.v < b.v - epsV)
  }

  /** Smaller violation first, then smaller objective. */
  predicate LeVF(a: FilterPoint, b: FilterPoint) {
    a.v < b.v || (a.v == b.v && a.f <= b.f)
  }

  function Retain(points: seq<FilterPoint>, p: FilterPoint, cfg: AcceptanceConfig): (r: seq<FilterPoint>)
    ensures |r| <= |points|
  {
    if points == [] then []
    else if Dominates(p, points[0], cfg) then Retain(points[1..], p, cfg)
    else [points[0]] + Retain(points[1..], p, cfg)
  }

  function Capped(points: seq<FilterPoint>, cap: nat): seq<FilterPoint> {
    if |points| > cap then Sort(points, LeVF)[..cap] else points
  }

  ghost predicate IsDominated(points: seq<FilterPoint>, p: FilterPoint, cfg: AcceptanceConfig) {
    exists i :: 0 <= i < |points| && Dominates(points[i], p, cfg)
  }

  /** The filter after a non-dominated `p` has been let in. */
  function Admitted(points: seq<FilterPoint>, p: FilterPoint, cfg: AcceptanceConfig): seq<FilterPoint> {
    Capped(Retain(points, p, cfg) + [p], cfg.Cap())
  }

  ghost predicate Accepts(s: AcceptState, f: real, v: real, cfg: AcceptanceConfig) {
    v <= s.h && !IsDominated(s.points, FilterPoint(f, v), cfg)
  }

  /** The state after one truth result. */
  ghost function Decided(s: AcceptState, f: real, v: real, cfg: AcceptanceConfig): AcceptState {
    if v > s.h then s
    else
      AcceptState(
        s.h,
        if Accepts(s, f, v, cfg) then Admitted(s.points, FilterPoint(f, v), cfg) else s.points,
        if v <= 0.0 then Some(if s.incumbent.None? then f else Min(s.incumbent.value, f)) else s.incumbent)
  }

  function Tightened(h: real, cfg: AcceptanceConfig): real {
    Max(h * Clamp(cfg.hShrink, 0.0, 1.0), cfg.Floor())
  }

  function InitialBarrier(cfg: AcceptanceConfig): real {
    Max(if cfg.h0 < 0.0 then 0.0 else cfg.h0, cfg.Floor())
  }

  class DefaultAcceptance {
    const cfg: AcceptanceConfig
    var h: real
    var points: seq<FilterPoint>
    var incumbentFeasibleF: Option<real>

    function State(): AcceptState
      reads this
    {
      AcceptState(h, points, incumbentFeasibleF)
    }

    constructor (cfg: AcceptanceConfig)
      ensures this.cfg == cfg
      ensures State() == AcceptState(InitialBarrier(cfg), [], None)
    {
      this.cfg := cfg;
      var h0 := cfg.h0;
      if h0 < 0.0 {
        h0 := 0.0;
      }
      h := Max(h0, Max(cfg.hMin, 0.0));
      points := [];
      incumbentFeasibleF := None;
    }

    method FilterInsert(p: FilterPoint) returns (accepted: bool)
      modifies this`points
      ensures accepted == !IsDominated(old(points), p, cfg)
      ensures points == if accepted then Admitted(old(points), p, cfg) else old(points)
    {
      for i := 0 to |points|
        invariant points == old(points)
        invariant forall k :: 0 <= k < i ==> !Dominates(points[k], p, cfg)
      {
        if Dominates(points[i], p, cfg) {
          return false;
        }
      }
      points := Retain(points, p, cfg) + [p];
      if |points| > MaxInt(cfg.filterCap, 1) {
        points := Sort(points, LeVF);
        points := points[..MaxInt(cfg.filterCap, 1)];
      }
      return true;
    }

    method DecideTruth(f: real, v: real) returns (accept: bool)
      modifies this
      ensures accept == Accepts(old(State()), f, v, cfg)
      ensures State() == Decided(old(State()), f, v, cfg)
    {
      if v > h {
        return false;
      }
      if v <= 0.0 {
        match incumbentFeasibleF {
          case None => incumbentFeasibleF := Some(f);
          case Some(best) =>
            if f < best {
              incumbentFeasibleF := Some(f);
            }
        }
      }
      accept := FilterInsert(FilterPoint(f, v));
    }

    method OnIterationEnd(pollAttempted: bool, iterImproved: bool)
      modifies this`h
      ensures h == if pollAttempted && !iterImproved then Tightened(old(h), cfg) else old(h)
    {
      if pollAttempted && !iterImproved {
        var shrink := Clamp(cfg.hShrink, 0.0, 1.0);
        var next := h * shrink;
        h := Max(next, Max(cfg.hMin, 0.0));
      }
    }
  }

  // ---------------------------------------------------------------- runs

  datatype Op = Result(f: real, v: real) | IterationEnd(pollAttempted: bool, iterImproved: bool)

  ghost function Apply(s: AcceptState, op: Op, cfg: AcceptanceConfig): AcceptState {
    match op
    case Result(f, v) => Decided(s, f, v, cfg)
    case IterationEnd(p, i) => if p && !i then s.(h := Tightened(s.h, cfg)) else s
  }

  /** The state after a run of results and iteration ends. */
  ghost function Run(ops: seq<Op>, cfg: AcceptanceConfig): AcceptState {
    if ops == [] then AcceptState(InitialBarrier(cfg), [], None)
    else Apply(Run(ops[..|ops| - 1], cfg), ops[|ops| - 1], cfg)
  }

  ghost function Last<T>(s: seq<T>): T
    requires s != []
  {
    s[|s| - 1]
  }

  // ---------------------------------------------------------------- barrier

  function RealPow(b: real, k: nat): real {
    if k == 0 then 1.0 else RealPow(b, k - 1) * b
  }

  /** The failed polls among the operations. */
  function FailedPolls(ops: seq<Op>): nat {
    if ops == [] then 0
    else
      var op := ops[|ops| - 1];
      FailedPolls(ops[..|ops| - 1]) + if op.IterationEnd? && op.pollAttempted && !op.iterImproved then 1 else 0
  }

  /** The barrier after `n` failed polls. */
  function ShrunkBarrier(cfg: AcceptanceConfig, n: nat): real {
    Max(Max(cfg.h0, 0.0) * RealPow(cfg.hShrink, n), Max(cfg.hMin, 0.0))
  }

  /** The barrier in closed form: every failed poll shrinks it once by the same factor, never below its
      floor, and nothing else moves it. */
  lemma {:induction false} BarrierAfterFailures(ops: seq<Op>, cfg: AcceptanceConfig)
    requires 0.0 <= cfg.hShrink <= 1.0
    ensures Run(ops, cfg).h == ShrunkBarrier(cfg, FailedPolls(ops))
  {
    hide RealPow, Accepts, Admitted, Tightened, ShrunkBarrier, InitialBarrier;
    if ops == [] {
      InitiallyUnshrunk(cfg);
    } else {
      var init, op := ops[..|ops| - 1], ops[|ops| - 1];
      BarrierAfterFailures(init, cfg);
      ShrinksOnce(cfg, FailedPolls(init));
    }
  }

  lemma InitiallyUnshrunk(cfg: AcceptanceConfig)
    ensures InitialBarrier(cfg) == ShrunkBarrier(cfg, 0)
  {
  }

  lemma ShrinksOnce(cfg: AcceptanceConfig, n: nat)
    requires 0.0 <= cfg.hShrink <= 1.0
    ensures Tightened(ShrunkBarrier(cfg, n), cfg) == ShrunkBarrier(cfg, n + 1)
  {
    hide RealPow;
    ShrinkOnce(Max(cfg.h0, 0.0) * RealPow(cfg.hShrink, n), cfg.hShrink, Max(cfg.hMin, 0.0));
    OneMorePower(Max(cfg.h0, 0.0), cfg.hShrink, n);
  }

  lemma OneMorePower(h: real, b: real, n: nat)
    ensures h * RealPow(b, n) * b == h * RealPow(b, n + 1)
  {
    MulAssoc(h, RealPow(b, n), b);
  }

  lemma ShrinkOnce(h: real, shrink: real, floor: real)
    requires 0.0 <= shrink <= 1.0 && floor >= 0.0
    ensures Max(Max(h, floor) * shrink, floor) == Max(h * shrink, floor)
  {
    MulMonotoneReal(shrink, 1.0, floor);
    if h < floor {
      MulMonotoneReal(h, floor, shrink);
    }
  }

  /** One point dominates another, if it is worse in neither respect by more than the slack of that respect, and
      better in one of them by more than its slack; objective and violation play the same part. */
  lemma DominanceMeans(a: FilterPoint, b: FilterPoint, cfg: AcceptanceConfig)
    requires cfg.epsF >= 0.0 && cfg.epsV >= 0.0
    ensures Dominates(a, b, cfg) <==>
      && a.f - b.f <= cfg.epsF && a.v - b.v <= cfg.epsV
      && (b.f - a.f > cfg.epsF || b.v - a.v > cfg.epsV)
    ensures Dominates(a, b, cfg)
       <==> Dominates(FilterPoint(a.v, a.f), FilterPoint(b.v, b.f), cfg.(epsF := cfg.epsV, epsV := cfg.epsF))
    ensures !(Dominates(a, b, cfg) && Dominates(b, a, cfg))
  {
  }

  /** Truncation keeps the points with the least violation, and of equal ones those with the least objective. */
  lemma TruncationKeepsBest(points: seq<FilterPoint>, cap: nat) returns (dropped: seq<FilterPoint>)
    ensures |points| <= cap ==> Capped(points, cap) == points && dropped == []
    ensures |points| > cap ==> |Capped(points, cap)| == cap
    ensures multiset(Capped(points, cap)) + multiset(dropped) == multiset(points)
    ensures forall a, b :: a in Capped(points, cap) && b in dropped ==> a.v < b.v || (a.v == b.v && a.f <= b.f)
  {
    dropped := [];
    if |points| > cap {
      var s := Sort(points, LeVF);
      LeVFIsOrder();
      SortSorts(points, LeVF);
      SortPermutes(points, LeVF);
      dropped := s[cap..];
      assert s == s[..cap] + dropped;
      forall a, b | a in s[..cap] && b in dropped
        ensures LeVF(a, b)
      {
        var i :| 0 <= i < cap && s[i] == a;
        var k :| 0 <= k < |dropped| && dropped[k] == b;
        assert LeVF(s[i], s[cap + k]);
      }
    }
  }

  lemma TighteningLowers(h: real, cfg: AcceptanceConfig)
    requires cfg.Floor() <= h
    ensures cfg.Floor() <= Tightened(h, cfg) <= h
  {
    var k := Clamp(cfg.hShrink, 0.0, 1.0);
    MulNonNegative(h, 1.0 - k);
    assert h * k == h - h * (1.0 - k);
  }

  /** Over every run the barrier never rises and never falls below the configured floor. */
  lemma {:induction false} BarrierMonotone(ops: seq<Op>, cfg: AcceptanceConfig, n: nat)
    requires n <= |ops|
    ensures cfg.Floor() <= Run(ops, cfg).h <= Run(ops[..n], cfg).h
    decreases |ops|
  {
    if n == |ops| {
      assert ops[..n] == ops;
      if ops != [] {
        BarrierMonotone(ops[..|ops| - 1], cfg, |ops| - 1);
        TighteningLowers(Run(ops[..|ops| - 1], cfg).h, cfg);
      }
    } else {
      var init := ops[..|ops| - 1];
      BarrierMonotone(init, cfg, n);
      assert init[..n] == ops[..n];
      TighteningLowers(Run(init, cfg).h, cfg);
    }
  }

  // ---------------------------------------------------------------- mutual non-domination

  ghost predicate NonDominated(points: seq<FilterPoint>, cfg: AcceptanceConfig) {
    forall i, j :: 0 <= i < |points| && 0 <= j < |points| ==> !Dominates(points[i], points[j], cfg)
  }

  lemma {:induction false} RetainCount(points: seq<FilterPoint>, p: FilterPoint, cfg: AcceptanceConfig, x: FilterPoint)
    ensures multiset(Retain(points, p, cfg))[x] == if Dominates(p, x, cfg) then 0 else multiset(points)[x]
  {
    if points != [] {
      assert points == [points[0]] + points[1..];
      RetainCount(points[1..], p, cfg, x);
    }
  }

  lemma RetainMembers(points: seq<FilterPoint>, p: FilterPoint, cfg: AcceptanceConfig)
    ensures forall x :: x in Retain(points, p, cfg) <==> x in points && !Dominates(p, x, cfg)
  {
    forall x
      ensures x in Retain(points, p, cfg) <==> x in points && !Dominates(p, x, cfg)
    {
      RetainCount(points, p, cfg, x);
      assert x in points <==> x in multiset(points);
      assert x in Retain(points, p, cfg) <==> x in multiset(Retain(points, p, cfg));
    }
  }

  lemma CappedMembers(points: seq<FilterPoint>, cap: nat)
    ensures forall x :: x in Capped(points, cap) ==> x in points
  {
    SortMembers(points, LeVF);
    if |points| > cap {
      assert forall x :: x in Sort(points, LeVF)[..cap] ==> x in Sort(points, LeVF);
    }
  }

  lemma AdmittedMembers(points: seq<FilterPoint>, p: FilterPoint, cfg: AcceptanceConfig)
    ensures forall x :: x in Admitted(points, p, cfg) ==> x == p || (x in points && !Dominates(p, x, cfg))
  {
    RetainMembers(points, p, cfg);
    CappedMembers(Retain(points, p, cfg) + [p], cfg.Cap());
  }

  /** For any slacks: in every run, no stored point dominates another (or itself). */
  lemma {:induction false} FilterStaysNonDominated(ops: seq<Op>, cfg: AcceptanceConfig)
    ensures NonDominated(Run(ops, cfg).points, cfg)
    ensures |Run(ops, cfg).points| <= cfg.Cap()
  {
    if ops != [] {
      var init := ops[..|ops| - 1];
      FilterStaysNonDominated(init, cfg);
      match Last(ops)
      case IterationEnd(_, _) =>
      case Result(f, v) =>
        var s, p := Run(init, cfg), FilterPoint(f, v);
        if Accepts(s, f, v, cfg) {
          var t := Admitted(s.points, p, cfg);
          AdmittedMembers(s.points, p, cfg);
          forall i, j | 0 <= i < |t| && 0 <= j < |t|
            ensures !Dominates(t[i], t[j], cfg)
          {
            assert t[i] in t && t[j] in t;
          }
        }
    }
  }

  // ---------------------------------------------------------------- exact Pareto front

  /** The results of a run that passed the barrier, in order. */
  ghost function Passed(ops: seq<Op>, cfg: AcceptanceConfig): seq<FilterPoint> {
    if ops == [] then []
    else
      var init := ops[..|ops| - 1];
      match Last(ops)
      case IterationEnd(_, _) => Passed(init, cfg)
      case Result(f, v) =>
        if v <= Run(init, cfg).h then Passed(init, cfg) + [FilterPoint(f, v)] else Passed(init, cfg)
  }

  /** The feasible objective on record is the least of the violation-free results that passed the barrier. */
  lemma {:induction false} FeasibleOnRecord(ops: seq<Op>, cfg: AcceptanceConfig)
    ensures Run(ops, cfg).incumbent.None? <==> forall p :: p in Passed(ops, cfg) ==> p.v > 0.0
    ensures Run(ops, cfg).incumbent.Some? ==>
      && (exists p :: p in Passed(ops, cfg) && p.v <= 0.0 && p.f == Run(ops, cfg).incumbent.value)
      && forall p :: p in Passed(ops, cfg) && p.v <= 0.0 ==> Run(ops, cfg).incumbent.value <= p.f
  {
    hide Accepts, Admitted, Tightened;
    if ops != [] {
      var init := ops[..|ops| - 1];
      FeasibleOnRecord(init, cfg);
      match Last(ops)
      case IterationEnd(_, _) =>
      case Result(f, v) =>
        if v <= Run(init, cfg).h {
          var q := FilterPoint(f, v);
          assert Passed(ops, cfg) == Passed(init, cfg) + [q];
          assert forall p :: p in Passed(ops, cfg) <==> p in Passed(init, cfg) || p == q;
        }
    }
  }

  /** No insertion of the run ever exceeds the cap, so nothing is truncated. */
  ghost predicate CapNeverExceeded(ops: seq<Op>, cfg: AcceptanceConfig) {
    ops != [] ==>
      var init := ops[..|ops| - 1];
      && CapNeverExceeded(init, cfg)
      && match Last(ops)
         case IterationEnd(_, _) => true
         case Result(f, v) =>
           Accepts(Run(init, cfg), f, v, cfg) ==>
             |Retain(Run(init, cfg).points, FilterPoint(f, v), cfg)| + 1 <= cfg.Cap()
  }

  /** `points` is the multiset of elements of `all` that no element of `all` dominates. */
  ghost predicate IsFrontOf(points: seq<FilterPoint>, all: seq<FilterPoint>, cfg: AcceptanceConfig) {
    forall x :: multiset(points)[x] == if IsDominated(all, x, cfg) then 0 else multiset(all)[x]
  }

  /** Every element of `all` is stored or dominated by a stored point. */
  ghost predicate Covers(points: seq<FilterPoint>, all: seq<FilterPoint>, cfg: AcceptanceConfig) {
    forall x :: x in all ==> x in points || IsDominated(points, x, cfg)
  }

  lemma DominatedByMember(points: seq<FilterPoint>, q: FilterPoint, p: FilterPoint, cfg: AcceptanceConfig)
    requires q in points && Dominates(q, p, cfg)
    ensures IsDominated(points, p, cfg)
  {
    var i :| 0 <= i < |points| && points[i] == q;
    assert Dominates(points[i], p, cfg);
  }

  /** With zero slack and coverage, being dominated by a stored point is being dominated at all. */
  lemma StoredDominationSuffices(points: seq<FilterPoint>, all: seq<FilterPoint>, p: FilterPoint, cfg: AcceptanceConfig)
    requires cfg.epsF <= 0.0 && cfg.epsV <= 0.0
    requires Covers(points, all, cfg)
    requires forall x :: x in points ==> x in all
    ensures IsDominated(points, p, cfg) <==> IsDominated(all, p, cfg)
  {
    if IsDominated(points, p, cfg) {
      var i :| 0 <= i < |points| && Dominates(points[i], p, cfg);
      DominatedByMember(all, points[i], p, cfg);
    }
    if IsDominated(all, p, cfg) {
      var i :| 0 <= i < |all| && Dominates(all[i], p, cfg);
      var r := all[i];
      if r in points {
        DominatedByMember(points, r, p, cfg);
      } else {
        assert IsDominated(points, r, cfg);
        var k :| 0 <= k < |points| && Dominates(points[k], r, cfg);
        assert Dominates(points[k], p, cfg);
      }
    }
  }

  lemma DominatedByExtension(all: seq<FilterPoint>, p: FilterPoint, x: FilterPoint, cfg: AcceptanceConfig)
    ensures IsDominated(all + [p], x, cfg) <==> IsDominated(all, x, cfg) || Dominates(p, x, cfg)
  {
    var t := all + [p];
    assert t[|all|] == p;
    if IsDominated(all, x, cfg) {
      var i :| 0 <= i < |all| && Dominates(all[i], x, cfg);
      assert t[i] == all[i];
    }
  }

  lemma FrontAfterReject(points: seq<FilterPoint>, all: seq<FilterPoint>, p: FilterPoint, cfg: AcceptanceConfig)
    requires cfg.epsF <= 0.0 && cfg.epsV <= 0.0
    requires IsFrontOf(points, all, cfg) && IsDominated(all, p, cfg)
    ensures IsFrontOf(points, all + [p], cfg)
  {
    var i :| 0 <= i < |all| && Dominates(all[i], p, cfg);
    forall x
      ensures multiset(points)[x] == if IsDominated(all + [p], x, cfg) then 0 else multiset(all + [p])[x]
    {
      DominatedByExtension(all, p, x, cfg);
      if Dominates(p, x, cfg) {
        assert Dominates(all[i], x, cfg);
      }
    }
  }

  lemma FrontAfterAdmit(points: seq<FilterPoint>, all: seq<FilterPoint>, p: FilterPoint, cfg: AcceptanceConfig)
    requires cfg.epsF <= 0.0 && cfg.epsV <= 0.0
    requires IsFrontOf(points, all, cfg) && !IsDominated(all, p, cfg)
    ensures IsFrontOf(Retain(points, p, cfg) + [p], all + [p], cfg)
  {
    forall x
      ensures multiset(Retain(points, p, cfg) + [p])[x]
           == if IsDominated(all + [p], x, cfg) then 0 else multiset(all + [p])[x]
    {
      DominatedByExtension(all, p, x, cfg);
      RetainCount(points, p, cfg, x);
    }
  }

  lemma FrontMembers(points: seq<FilterPoint>, all: seq<FilterPoint>, cfg: AcceptanceConfig)
    requires IsFrontOf(points, all, cfg)
    ensures forall x :: x in points ==> x in all
  {
    forall x | x in points
      ensures x in all
    {
      assert x in multiset(points);
      assert x in multiset(all);
    }
  }

  lemma CoversAfter(points: seq<FilterPoint>, all: seq<FilterPoint>, p: FilterPoint, cfg: AcceptanceConfig)
    requires cfg.epsF <= 0.0 && cfg.epsV <= 0.0
    requires Covers(points, all, cfg)
    ensures Covers(Retain(points, p, cfg) + [p], all + [p], cfg)
  {
    var t := Retain(points, p, cfg) + [p];
    RetainMembers(points, p, cfg);
    forall x | x in all + [p]
      ensures x in t || IsDominated(t, x, cfg)
    {
      assert p in t;
      if x != p && x !in t {
        if x in points {
          DominatedByMember(t, p, x, cfg);
        } else {
          assert IsDominated(points, x, cfg);
          var k :| 0 <= k < |points| && Dominates(points[k], x, cfg);
          if Dominates(p, points[k], cfg) {
            DominatedByMember(t, p, x, cfg);
          } else {
            assert points[k] in t;
            DominatedByMember(t, points[k], x, cfg);
          }
        }
      }
    }
  }

  /** With zero slacks and no truncation, the filter is exactly the non-dominated multiset of all
      results that passed the barrier. */
  lemma {:induction false} FilterIsParetoFront(ops: seq<Op>, cfg: AcceptanceConfig)
    requires cfg.epsF <= 0.0 && cfg.epsV <= 0.0
    requires CapNeverExceeded(ops, cfg)
    ensures IsFrontOf(Run(ops, cfg).points, Passed(ops, cfg), cfg)
    ensures Covers(Run(ops, cfg).points, Passed(ops, cfg), cfg)
  {
    if ops != [] {
      var init := ops[..|ops| - 1];
      FilterIsParetoFront(init, cfg);
      match Last(ops)
      case IterationEnd(_, _) =>
      case Result(f, v) =>
        var s, p, all := Run(init, cfg), FilterPoint(f, v), Passed(init, cfg);
        FrontMembers(s.points, all, cfg);
        StoredDominationSuffices(s.points, all, p, cfg);
        if v <= s.h {
          if Accepts(s, f, v, cfg) {
            FrontAfterAdmit(s.points, all, p, cfg);
            CoversAfter(s.points, all, p, cfg);
          } else {
            FrontAfterReject(s.points, all, p, cfg);
          }
        }
    }
  }

  // ---------------------------------------------------------------- near-optimal incumbent

  /** What holds between the acceptance state, the objectives of all violation-free results seen so
      far, and the objective of the last accepted one, when the barrier admits no violation. */
  ghost predicate TracksBest(s: AcceptState, seen: seq<real>, best: Option<real>, cfg: AcceptanceConfig) {
    && s.h == 0.0 && cfg.Floor() == 0.0
    && (forall q :: q in s.points ==> q.v == 0.0)
    && (best.None? <==> seen == []) && (s.points == [] <==> seen == []) && (s.incumbent.None? <==> seen == [])
    && (seen != [] ==>
          var m := s.incumbent.value;
          && m in seen && (forall g :: g in seen ==> m <= g)
          && FilterPoint(m, 0.0) in s.points && (forall q :: q in s.points ==> m <= q.f)
          && best.value in seen && best.value <= m + Max(cfg.epsF, 0.0))
  }

  lemma TracksInitially(cfg: AcceptanceConfig)
    requires cfg.h0 <= 0.0 && cfg.hMin <= 0.0
    ensures TracksBest(AcceptState(InitialBarrier(cfg), [], None), [], None, cfg)
  {
  }

  lemma LeVFIsOrder()
    ensures TotalPreorder(LeVF)
  {
  }

  /** Truncation keeps a smallest point. */
  lemma CappedKeepsLeast(points: seq<FilterPoint>, cap: nat, m: FilterPoint)
    requires cap >= 1 && m in points
    requires forall q :: q in points ==> q.v == 0.0 && m.f <= q.f
    requires m.v == 0.0
    ensures m in Capped(points, cap)
  {
    if |points| > cap {
      var t := Sort(points, LeVF);
      SortMembers(points, LeVF);
      LeVFIsOrder();
      SortSorts(points, LeVF);
      var i :| 0 <= i < |t| && t[i] == m;
      assert t[0] in t;
      if 0 < i {
        assert LeVF(t[0], t[i]);
      }
      assert t[0] == m;
      assert t[..cap][0] == m;
    }
  }

  lemma BestAfterAccept(s: AcceptState, seen: seq<real>, best: Option<real>, f: real, cfg: AcceptanceConfig)
    requires TracksBest(s, seen, best, cfg)
    requires Accepts(s, f, 0.0, cfg)
    ensures TracksBest(Decided(s, f, 0.0, cfg), seen + [f], Some(f), cfg)
  {
    var p := FilterPoint(f, 0.0);
    var t := Retain(s.points, p, cfg) + [p];
    var d := Decided(s, f, 0.0, cfg);
    RetainMembers(s.points, p, cfg);
    AdmittedMembers(s.points, p, cfg);
    var m := d.incumbent.value;
    var mp := FilterPoint(m, 0.0);
    assert p in t;
    assert mp in t by {
      if m != f {
        assert m == s.incumbent.value && m < f;
        assert !Dominates(p, mp, cfg);
      }
    }
    CappedKeepsLeast(t, cfg.Cap(), mp);
    if seen != [] {
      var k :| 0 <= k < |s.points| && s.points[k] == FilterPoint(s.incumbent.value, 0.0);
      assert !Dominates(s.points[k], p, cfg);
    }
    assert f in seen + [f];
  }

  lemma BestAfterReject(s: AcceptState, seen: seq<real>, best: Option<real>, f: real, cfg: AcceptanceConfig)
    requires TracksBest(s, seen, best, cfg)
    requires !Accepts(s, f, 0.0, cfg)
    ensures TracksBest(Decided(s, f, 0.0, cfg), seen + [f], best, cfg)
  {
    var p := FilterPoint(f, 0.0);
    var k :| 0 <= k < |s.points| && Dominates(s.points[k], p, cfg);
    assert s.points[k] in s.points;
    assert s.incumbent.value < f;
    assert forall g :: g in seen ==> g in seen + [f];
  }

  /** One truth result (violations are never negative) keeps the incumbent near-optimal, whether it
      is accepted, dominated or stopped by the barrier. */
  lemma BestAfterResult(s: AcceptState, seen: seq<real>, best: Option<real>, f: real, v: real, cfg: AcceptanceConfig)
    requires TracksBest(s, seen, best, cfg) && v >= 0.0
    ensures TracksBest(
              Decided(s, f, v, cfg),
              if v == 0.0 then seen + [f] else seen,
              if Accepts(s, f, v, cfg) then Some(f) else best,
              cfg)
  {
    if v == 0.0 {
      if Accepts(s, f, v, cfg) {
        BestAfterAccept(s, seen, best, f, cfg);
      } else {
        BestAfterReject(s, seen, best, f, cfg);
      }
    }
  }

  lemma BestAfterIteration(s: AcceptState, seen: seq<real>, best: Option<real>, cfg: AcceptanceConfig)
    requires TracksBest(s, seen, best, cfg)
    ensures TracksBest(s.(h := Tightened(s.h, cfg)), seen, best, cfg)
  {
  }

  /** The objectives of the violation-free results of a run. */
  ghost function ViolationFree(ops: seq<Op>): seq<real> {
    if ops == [] then []
    else
      var r := ViolationFree(ops[..|ops| - 1]);
      if Last(ops).Result? && Last(ops).v == 0.0 then r + [Last(ops).f] else r
  }

  /** The objective of the last accepted result of a run. */
  ghost function LastAccepted(ops: seq<Op>, cfg: AcceptanceConfig): Option<real> {
    if ops == [] then None
    else
      var init := ops[..|ops| - 1];
      if Last(ops).Result? && Accepts(Run(init, cfg), Last(ops).f, Last(ops).v, cfg) then Some(Last(ops).f)
      else LastAccepted(init, cfg)
  }

  /** With h0 = h_min = 0, at every point of every run: an incumbent exists exactly when a
      violation-free result has been seen, and its objective is within eps_f of the best of them. */
  lemma {:induction false} LastAcceptedNearOptimal(ops: seq<Op>, cfg: AcceptanceConfig)
    requires cfg.h0 <= 0.0 && cfg.hMin <= 0.0
    requires forall i :: 0 <= i < |ops| && ops[i].Result? ==> ops[i].v >= 0.0
    ensures TracksBest(Run(ops, cfg), ViolationFree(ops), LastAccepted(ops, cfg), cfg)
    ensures LastAccepted(ops, cfg).None? <==> ViolationFree(ops) == []
    ensures forall g :: g in ViolationFree(ops) ==>
              LastAccepted(ops, cfg).value <= g + Max(cfg.epsF, 0.0)
  {
    if ops == [] {
      TracksInitially(cfg);
    } else {
      var init := ops[..|ops| - 1];
      LastAcceptedNearOptimal(init, cfg);
      match Last(ops)
      case IterationEnd(_, _) =>
        BestAfterIteration(Run(init, cfg), ViolationFree(init), LastAccepted(init, cfg), cfg);
      case Result(f, v) =>
        BestAfterResult(Run(init, cfg), ViolationFree(init), LastAccepted(init, cfg), f, v, cfg);
    }
  }

  ghost predicate NoNegativeViolation(ops: seq<Op>) {
    forall i :: 0 <= i < |ops| && ops[i].Result? ==> ops[i].v >= 0.0
  }

  /** A run of the configuration may accept a violating point. */
  ghost predicate LetsInViolation(ops: seq<Op>, f: real, v: real, cfg: AcceptanceConfig) {
    NoNegativeViolation(ops) && v > 0.0 && Accepts(Run(ops, cfg), f, v, cfg)
  }

  /** No run ever accepts a violating point, if and only if neither the initial barrier nor its floor is
      positive. */
  lemma OnlyZeroBarrierKeepsViolationsOut(cfg: AcceptanceConfig)
    ensures cfg.h0 <= 0.0 && cfg.hMin <= 0.0 <==> forall ops, f, v :: !LetsInViolation(ops, f, v, cfg)
  {
    if cfg.h0 <= 0.0 && cfg.hMin <= 0.0 {
      forall ops, f, v
        ensures !LetsInViolation(ops, f, v, cfg)
      {
        if NoNegativeViolation(ops) {
          LastAcceptedNearOptimal(ops, cfg);
        }
      }
    } else {
      assert Run([], cfg).points == [];
      assert LetsInViolation([], 0.0, InitialBarrier(cfg), cfg);
    }
  }
}
