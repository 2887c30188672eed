/** The assignment policy: from which fidelity level on each constraint may cut a candidate. */
module Dids {
  import opened Types
  import opened Sorting
  import opened Arithmetic
  import Calibration
  import opened Calibrator

  datatype OutcomeTag =
    | RejectedCheapTag
    | RejectedInvalidEvalTag
    | EarlyInfeasibleTag
    | PartialOutcomeTag
    | TruthOutcomeTag

  datatype DidsRecord = DidsRecord(x: XMesh, phi: Phi, phiIdx: nat, outcome: OutcomeTag, violatedJ: Option<nat>)

  /** A level with its recency weight. */
  datatype Weighted = Weighted(level: nat, w: real)

  datatype Numerics = Numerics(exp: real -> real, ln: real -> real, sqrt: real -> real)

  const LN_2: real := 0.69314718055994530942
  const TOLERANCE: real := 0.000000000001

  // ---------------------------------------------------------------- weighted quantile

  predicate LeLevel(a: Weighted, b: Weighted) {
    a.level <= b.level
  }

  function TotalWeight(s: seq<Weighted>): real {
    if s == [] then 0.0 else s[0].w + TotalWeight(s[1..])
  }

  function TotalSquare(s: seq<Weighted>): real {
    if s == [] then 0.0 else s[0].w * s[0].w + TotalSquare(s[1..])
  }

  /** The weight recorded at `level` and below. */
  function Mass(s: seq<Weighted>, level: nat): real {
    if s == [] then 0.0 else (if s[0].level <= level then s[0].w else 0.0) + Mass(s[1..], level)
  }

  ghost predicate NonNegativeWeights(s: seq<Weighted>) {
    forall i :: 0 <= i < |s| ==> s[i].w >= 0.0
  }

  ghost predicate Recorded(s: seq<Weighted>, level: nat) {
    exists i :: 0 <= i < |s| && s[i].level == level
  }

  /** `level` is the lowest recorded level whose cumulative weight reaches `target`. */
  ghost predicate IsLowestReaching(s: seq<Weighted>, target: real, level: nat) {
    && Recorded(s, level)
    && Mass(s, level) + TOLERANCE >= target
    && forall below: nat :: Recorded(s, below) && below < level ==> Mass(s, below) + TOLERANCE < target
  }

  lemma {:induction false} InsertMass(x: Weighted, s: seq<Weighted>, level: nat)
    ensures Mass(Insert(x, s, LeLevel), level) == Mass([x], level) + Mass(s, level)
    ensures TotalWeight(Insert(x, s, LeLevel)) == x.w + TotalWeight(s)
  {
    var r := Insert(x, s, LeLevel);
    if s == [] {
    } else if LeLevel(x, s[0]) {
      assert r[1..] == s;
    } else {
      InsertMass(x, s[1..], level);
      assert r[1..] == Insert(x, s[1..], LeLevel);
    }
  }

  lemma {:induction false} SortMass(s: seq<Weighted>, level: nat)
    ensures Mass(Sort(s, LeLevel), level) == Mass(s, level)
    ensures TotalWeight(Sort(s, LeLevel)) == TotalWeight(s)
  {
    if s != [] {
      SortMass(s[1..], level);
      InsertMass(s[0], Sort(s[1..], LeLevel), level);
    }
  }

  lemma {:induction false} MassSplits(s: seq<Weighted>, i: nat, level: nat)
    requires i <= |s|
    ensures Mass(s, level) == Mass(s[..i], level) + Mass(s[i..], level)
    ensures TotalWeight(s) == TotalWeight(s[..i]) + TotalWeight(s[i..])
  {
    if i > 0 {
      MassSplits(s[1..], i - 1, level);
      assert s[..i][1..] == s[1..][..i - 1];
      assert s[i..] == s[1..][i - 1..];
    } else {
      assert s[..0] == [] && s[0..] == s;
    }
  }

  lemma {:induction false} MassNonNegative(s: seq<Weighted>, level: nat)
    requires NonNegativeWeights(s)
    ensures 0.0 <= Mass(s, level) <= TotalWeight(s)
  {
    if s != [] {
      MassNonNegative(s[1..], level);
    }
  }

  lemma {:induction false} MassAllBelow(s: seq<Weighted>, level: nat)
    requires forall i :: 0 <= i < |s| ==> s[i].level <= level
    ensures Mass(s, level) == TotalWeight(s)
  {
    if s != [] {
      MassAllBelow(s[1..], level);
    }
  }

  lemma {:induction false} MassNoneBelow(s: seq<Weighted>, level: nat)
    requires forall i :: 0 <= i < |s| ==> s[i].level > level
    ensures Mass(s, level) == 0.0
  {
    if s != [] {
      MassNoneBelow(s[1..], level);
    }
  }

  lemma TotalOfExtension(s: seq<Weighted>, i: nat)
    requires i < |s|
    ensures TotalWeight(s[..i + 1]) == TotalWeight(s[..i]) + s[i].w
  {
    MassSplits(s[..i + 1], i, 0);
    assert s[..i + 1][..i] == s[..i] && s[..i + 1][i..] == [s[i]];
  }

  /** In level order, the first prefix that reaches the target ends at the lowest reaching level. */
  lemma FirstPrefixIsLowest(s: seq<Weighted>, i: nat, target: real)
    requires NonNegativeWeights(s) && SortedBy(s, LeLevel) && i < |s|
    requires TotalWeight(s[..i + 1]) + TOLERANCE >= target
    requires i > 0 ==> TotalWeight(s[..i]) + TOLERANCE < target
    ensures IsLowestReaching(s, target, s[i].level)
  {
    var level, upTo, rest := s[i].level, s[..i + 1], s[i..];
    MassSplits(s, i + 1, level);
    MassNonNegative(s[i + 1..], level);
    forall k | 0 <= k < |upTo|
      ensures upTo[k].level <= level
    {
      if k < i {
        assert LeLevel(s[k], s[i]);
      }
    }
    MassAllBelow(upTo, level);
    forall below: nat | Recorded(s, below) && below < level
      ensures Mass(s, below) + TOLERANCE < target
    {
      MassSplits(s, i, below);
      forall k | 0 <= k < |rest|
        ensures rest[k].level > below
      {
        if k > 0 {
          assert LeLevel(s[i], s[i + k]);
        }
      }
      MassNoneBelow(rest, below);
      MassNonNegative(s[..i], below);
      var k :| 0 <= k < |s| && s[k].level == below;
      if i < k {
        assert LeLevel(s[i], s[k]);
      }
      assert i > 0;
    }
  }

  lemma RecordedAfterSort(s: seq<Weighted>, level: nat)
    ensures Recorded(Sort(s, LeLevel), level) <==> Recorded(s, level)
  {
    var t := Sort(s, LeLevel);
    SortMembers(s, LeLevel);
    if Recorded(t, level) {
      var i :| 0 <= i < |t| && t[i].level == level;
      assert t[i] in s;
    }
    if Recorded(s, level) {
      var i :| 0 <= i < |s| && s[i].level == level;
      assert s[i] in t;
    }
  }

  lemma LowestReachingAfterSort(s: seq<Weighted>, target: real, level: nat)
    requires IsLowestReaching(Sort(s, LeLevel), target, level)
    ensures IsLowestReaching(s, target, level)
  {
    RecordedAfterSort(s, level);
    SortMass(s, level);
    forall below: nat | Recorded(s, below) && below < level
      ensures Mass(s, below) + TOLERANCE < target
    {
      RecordedAfterSort(s, below);
      SortMass(s, below);
    }
  }

  /** The specification picks at most one level. */
  lemma LowestReachingUnique(s: seq<Weighted>, target: real, a: nat, b: nat)
    requires IsLowestReaching(s, target, a) && IsLowestReaching(s, target, b)
    ensures a == b
  {
  }

  lemma {:induction false} MassOfRemoval(t: seq<Weighted>, i: nat, level: nat)
    requires i < |t|
    ensures Mass(t, level) == Mass([t[i]], level) + Mass(t[..i] + t[i + 1..], level)
    ensures TotalWeight(t) == t[i].w + TotalWeight(t[..i] + t[i + 1..])
  {
    if i == 0 {
      assert t[..0] + t[1..] == t[1..];
    } else {
      MassOfRemoval(t[1..], i - 1, level);
      assert (t[..i] + t[i + 1..])[1..] == t[1..][..i - 1] + t[1..][i..];
    }
  }

  lemma HeadRemoved(s: seq<Weighted>, t: seq<Weighted>) returns (i: nat)
    requires multiset(s) == multiset(t) && s != []
    ensures i < |t| && t[i] == s[0]
    ensures multiset(s[1..]) == multiset(t[..i] + t[i + 1..])
  {
    assert s[0] in multiset(t);
    i :| 0 <= i < |t| && t[i] == s[0];
    assert t == t[..i] + [t[i]] + t[i + 1..];
    assert s == [s[0]] + s[1..];
    assert multiset(s[1..]) == multiset(s) - multiset{s[0]};
    assert multiset(t[..i] + t[i + 1..]) == multiset(t) - multiset{t[i]};
  }

  lemma {:induction false} MassOfPermutation(s: seq<Weighted>, t: seq<Weighted>, level: nat)
    requires multiset(s) == multiset(t)
    ensures Mass(s, level) == Mass(t, level) && TotalWeight(s) == TotalWeight(t)
  {
    assert |s| == |multiset(s)| == |multiset(t)| == |t|;
    if s != [] {
      var i := HeadRemoved(s, t);
      MassOfRemoval(t, i, level);
      MassOfPermutation(s[1..], t[..i] + t[i + 1..], level);
    }
  }

  lemma RecordedInPermutation(s: seq<Weighted>, t: seq<Weighted>, level: nat)
    requires multiset(s) == multiset(t) && Recorded(s, level)
    ensures Recorded(t, level)
  {
    var i :| 0 <= i < |s| && s[i].level == level;
    assert s[i] in multiset(t);
    var k :| 0 <= k < |t| && t[k] == s[i];
  }

  lemma LowestReachingInPermutation(s: seq<Weighted>, t: seq<Weighted>, target: real, level: nat)
    requires multiset(s) == multiset(t) && IsLowestReaching(s, target, level)
    ensures IsLowestReaching(t, target, level)
  {
    MassOfPermutation(s, t, level);
    RecordedInPermutation(s, t, level);
    forall below: nat | Recorded(t, below) && below < level
      ensures Mass(t, below) + TOLERANCE < target
    {
      RecordedInPermutation(t, s, below);
      MassOfPermutation(s, t, below);
    }
  }

  function Share(q: real, total: real): real {
    Clamp(q, 0.0, 1.0) * total
  }

  function QuantileTarget(s: seq<Weighted>, q: real): real {
    Share(q, TotalWeight(s))
  }

  /** The first level, from position `i` of the ordered items on, whose prefix reaches the target. */
  function FirstReaching(items: seq<Weighted>, i: nat, target: real): Option<nat>
    requires i <= |items|
    decreases |items| - i
  {
    if i == |items| then None
    else if TotalWeight(items[..i + 1]) + TOLERANCE >= target then Some(items[i].level)
    else FirstReaching(items, i + 1, target)
  }

  function MaxLevel(s: seq<Weighted>): Option<nat> {
    if s == [] then None
    else
      match MaxLevel(s[1..])
      case None => Some(s[0].level)
      case Some(l) => Some(MaxInt(s[0].level, l))
  }

  function QuantileOfWeighted(s: seq<Weighted>, q: real): Option<nat> {
    if s == [] || TotalWeight(s) <= 0.0 then None
    else
      match FirstReaching(Sort(s, LeLevel), 0, QuantileTarget(s, q))
      case Some(l) => Some(l)
      case None => MaxLevel(s)
  }

  method WeightedQuantile(weighted: seq<Weighted>, q: real) returns (r: Option<nat>)
    ensures r == QuantileOfWeighted(weighted, q)
  {
    hide Share;
    if weighted == [] {
      return None;
    }
    var items := Sort(weighted, LeLevel);
    SortMass(weighted, 0);
    var totalW := TotalWeight(items);
    if totalW <= 0.0 {
      return None;
    }
    var target := Share(q, totalW);
    var acc := 0.0;
    for i := 0 to |items|
      invariant acc == TotalWeight(items[..i])
      invariant FirstReaching(items, 0, target) == FirstReaching(items, i, target)
    {
      TotalOfExtension(items, i);
      acc := acc + items[i].w;
      if acc + TOLERANCE >= target {
        return Some(items[i].level);
      }
    }
    return MaxLevel(weighted);
  }

  lemma {:induction false} FirstReachingSpec(s: seq<Weighted>, i: nat, target: real)
    requires i < |s| && NonNegativeWeights(s) && SortedBy(s, LeLevel)
    requires target <= TotalWeight(s)
    requires i > 0 ==> TotalWeight(s[..i]) + TOLERANCE < target
    ensures FirstReaching(s, i, target).Some?
    ensures IsLowestReaching(s, target, FirstReaching(s, i, target).value)
    decreases |s| - i
  {
    assert s[..|s|] == s;
    if TotalWeight(s[..i + 1]) + TOLERANCE >= target {
      FirstPrefixIsLowest(s, i, target);
    } else {
      FirstReachingSpec(s, i + 1, target);
    }
  }

  /** For non-negative weights, not all zero, the quantile is the lowest recorded level whose
      cumulative weight reaches the requested share; the fallback is never needed. */
  lemma QuantileSpec(s: seq<Weighted>, q: real)
    requires NonNegativeWeights(s) && TotalWeight(s) > 0.0
    ensures QuantileOfWeighted(s, q).Some?
    ensures IsLowestReaching(s, QuantileTarget(s, q), QuantileOfWeighted(s, q).value)
  {
    hide Share;
    var t, target := Sort(s, LeLevel), QuantileTarget(s, q);
    LevelOrder();
    SortSorts(s, LeLevel);
    SortMass(s, 0);
    SortedNonNegative(s);
    ShareBelowTotal(q, TotalWeight(s));
    assert |t| > 0;
    FirstReachingSpec(t, 0, target);
    LowestReachingAfterSort(s, target, FirstReaching(t, 0, target).value);
  }

  /** The quantile depends only on the weighted multiset of levels: neither the order of the records nor
      that of an unstable sort matters. */
  lemma QuantileOfPermutation(s: seq<Weighted>, t: seq<Weighted>, q: real)
    requires NonNegativeWeights(s) && multiset(s) == multiset(t)
    ensures QuantileOfWeighted(s, q) == QuantileOfWeighted(t, q)
  {
    hide Share, QuantileOfWeighted;
    MassOfPermutation(s, t, 0);
    forall i | 0 <= i < |t|
      ensures t[i].w >= 0.0
    {
      assert t[i] in multiset(s);
    }
    if TotalWeight(s) > 0.0 {
      QuantileSpec(s, q);
      QuantileSpec(t, q);
      LowestReachingInPermutation(s, t, QuantileTarget(s, q), QuantileOfWeighted(s, q).value);
      LowestReachingUnique(t, QuantileTarget(t, q), QuantileOfWeighted(s, q).value, QuantileOfWeighted(t, q).value);
    } else {
      NothingToReach(s, q);
      NothingToReach(t, q);
    }
  }

  lemma NothingToReach(s: seq<Weighted>, q: real)
    requires TotalWeight(s) <= 0.0
    ensures QuantileOfWeighted(s, q) == None
  {
  }

  lemma ShareBelowTotal(q: real, total: real)
    requires total > 0.0
    ensures Share(q, total) <= total
  {
    MulMonotoneReal(Clamp(q, 0.0, 1.0), 1.0, total);
  }

  lemma LevelOrder()
    ensures TotalPreorder(LeLevel)
  {
  }

  lemma SortedNonNegative(s: seq<Weighted>)
    requires NonNegativeWeights(s)
    ensures NonNegativeWeights(Sort(s, LeLevel))
  {
    SortMembers(s, LeLevel);
    var t := Sort(s, LeLevel);
    forall i | 0 <= i < |t|
      ensures t[i].w >= 0.0
    {
      assert t[i] in s;
    }
  }

  // ---------------------------------------------------------------- evidence

  function RecencyWeight(age: nat, halfLife: real, num: Numerics): real {
    if halfLife <= 0.0 then 1.0 else num.exp(-(LN_2 * (age as real)) / halfLife)
  }

  function EffectiveSampleSize(s: seq<Weighted>): real {
    var sum, sum2 := TotalWeight(s), TotalSquare(s);
    if sum2 <= 0.0 then 0.0 else (sum * sum) / sum2
  }

  const Z: real := 1.96
  const Z_SQUARED: real := 3.8416

  /** The Wilson score interval of a proportion at z = 1.96, clamped to the unit interval. */
  function Wilson(success: nat, total: nat, num: Numerics): (real, real) {
    if total == 0 then (0.0, 1.0)
    else
      var n := total as real;
      var p := (success as real) / n;
      var center, radius := WilsonCenter(p, n), WilsonRadius(p, n, num);
      (Clamp(center - radius, 0.0, 1.0), Clamp(center + radius, 0.0, 1.0))
  }

  function WilsonCenter(p: real, n: real): real
    requires n > 0.0
  {
    (p + ZShare(n) / 2.0) / (1.0 + ZShare(n))
  }

  function WilsonRadius(p: real, n: real, num: Numerics): real
    requires n > 0.0
  {
    var spread := Max(p * (1.0 - p) / n + ZShare(n) / (4.0 * n), 0.0);
    (Z / (1.0 + ZShare(n))) * num.sqrt(spread)
  }

  /** `r` is an end of the score interval at z = 1.96: the observed proportion `p` of `n` lies as many standard
      errors of `r` away from it. */
  ghost predicate IsScoreBound(r: real, p: real, n: real) {
    n * ((p - r) * (p - r)) == 1.96 * 1.96 * (r * (1.0 - r))
  }

  /** The solutions of the score equation, from center and radius times the denominator. */
  lemma ScoreRoot(p: real, s: real, cd: real, rd: real, a: real, r: real)
    requires s > 0.0 && cd == p + s / 2.0 && rd * rd == s * (p * (1.0 - p)) + s * s / 4.0
    requires (a == cd + rd || a == cd - rd) && r * (1.0 + s) == a
    ensures (p - r) * (p - r) == s * (r * (1.0 - r))
  {
    var e := a - cd;
    assert e * e == rd * rd;
    var x := (p - r) * (p - r) - s * (r * (1.0 - r));
    var d := 1.0 + s;
    calc {
      d * x;
      d * (p * p) - 2.0 * p * (r * d) - s * (r * d) + (r * d) * (r * d);
      d * (p * p) - (2.0 * p + s) * a + a * a;
      { assert a == cd + e && 2.0 * cd == 2.0 * p + s; }
      d * (p * p) + e * e - cd * cd;
      { assert cd * cd == p * p + p * s + s * s / 4.0; }
      d * (p * p) + s * (p * (1.0 - p)) - p * p - p * s;
      0.0;
    }
    ZeroProduct(d, x);
  }

  /** A score bound is a proportion. */
  lemma ScoreInUnit(p: real, s: real, r: real)
    requires s > 0.0 && (p - r) * (p - r) == s * (r * (1.0 - r))
    ensures 0.0 <= r <= 1.0
  {
    SquareNonNegative(p - r);
    if r < 0.0 || r > 1.0 {
      OutsideUnit(s, r);
    }
  }

  lemma OutsideUnit(s: real, r: real)
    requires s > 0.0 && (r < 0.0 || r > 1.0)
    ensures s * (r * (1.0 - r)) < 0.0
  {
    if r < 0.0 {
      MulPositive(-r, 1.0 - r);
      MulPositive(s, -r * (1.0 - r));
      assert s * (r * (1.0 - r)) == -(s * (-r * (1.0 - r)));
    } else {
      MulPositive(r, r - 1.0);
      MulPositive(s, r * (r - 1.0));
      assert s * (r * (1.0 - r)) == -(s * (r * (r - 1.0)));
    }
  }

  lemma ScoreBrackets(p: real, s: real, cd: real, rd: real)
    requires s > 0.0 && cd == p + s / 2.0 && rd * rd == s * (p * (1.0 - p)) + s * s / 4.0 && rd >= 0.0
    requires 0.0 <= p <= 1.0
    ensures cd - rd <= p * (1.0 + s) <= cd + rd
  {
    var g := p * (1.0 + s) - cd;
    assert g == s * (p - 0.5);
    MulNonNegative(p, 1.0 - p);
    MulNonNegative(s, p * (1.0 - p));
    MulNonNegative(s, s * (p * (1.0 - p)));
    assert g * g == s * s / 4.0 - s * (s * (p * (1.0 - p)));
    SquareOrder(g, rd);
  }

  lemma ScoreSquare(z: real, n: real, p: real, s: real, q: real)
    requires n > 0.0 && s == z * z / n && q * q == p * (1.0 - p) / n + s / (4.0 * n)
    ensures (z * q) * (z * q) == s * (p * (1.0 - p)) + s * s / 4.0
  {
    var w := 1.0 / n;
    Inverse(n);
    assert z * z / n == z * z * w;
    assert p * (1.0 - p) / n == p * (1.0 - p) * w;
    QuarterOver(s, n, w);
    assert (z * q) * (z * q) == z * z * (q * q);
    assert z * z * (p * (1.0 - p) * w) == s * (p * (1.0 - p));
    assert z * z * (s * w / 4.0) == s * s / 4.0;
  }

  lemma QuarterOver(s: real, n: real, w: real)
    requires n > 0.0 && n * w == 1.0
    ensures s / (4.0 * n) == s * w / 4.0
  {
    assert (s * w / 4.0) * (4.0 * n) == s * (n * w);
    TimesDiv(s * w / 4.0, 4.0 * n);
  }

  lemma ScoreTimes(n: real, s: real, d2: real, v: real)
    requires n > 0.0 && s == Z_SQUARED / n && d2 == s * v
    ensures n * d2 == 1.96 * 1.96 * v
  {
    DivTimes(Z_SQUARED, n);
    assert n * (s * v) == (s * n) * v;
  }

  lemma ProportionInUnit(success: nat, total: nat)
    requires 0 < total && success <= total
    ensures 0.0 <= (success as real) / (total as real) <= 1.0
  {
    var p, n := (success as real) / (total as real), total as real;
    DivTimes(success as real, n);
    if p < 0.0 {
      MulPositive(-p, n);
    } else if p > 1.0 {
      MulPositive(p - 1.0, n);
      SubTimes(p, 1.0, n);
    }
  }

  /** The interval consists of the proportions between the two solutions of the score equation, and contains
      the observed proportion. */
  lemma WilsonSpec(success: nat, total: nat, num: Numerics)
    requires IsSqrt(num.sqrt) && 0 < total && success <= total
    ensures var (lo, hi) := Wilson(success, total, num);
      var p := (success as real) / (total as real);
      && 0.0 <= lo <= p <= hi <= 1.0
      && IsScoreBound(lo, p, total as real) && IsScoreBound(hi, p, total as real)
  {
    hide WilsonCenter, WilsonRadius, IsScoreBound;
    var n := total as real;
    ProportionInUnit(success, total);
    WilsonSolves((success as real) / n, n, num);
  }

  lemma WilsonSolves(p: real, n: real, num: Numerics)
    requires IsSqrt(num.sqrt) && n > 0.0 && 0.0 <= p <= 1.0
    ensures var c, r := WilsonCenter(p, n), WilsonRadius(p, n, num);
      0.0 <= c - r <= p <= c + r <= 1.0 && IsScoreBound(c - r, p, n) && IsScoreBound(c + r, p, n)
  {
    hide ZShare, IsScoreBound, WilsonCenter, WilsonRadius;
    var s := ZShare(n);
    var rd := WilsonParts(p, n, num);
    ScoreBrackets(p, s, p + s / 2.0, rd);
    WilsonEnds(p, s, n, p + s / 2.0, rd, WilsonCenter(p, n), WilsonRadius(p, n, num));
  }

  lemma WilsonParts(p: real, n: real, num: Numerics) returns (rd: real)
    requires IsSqrt(num.sqrt) && n > 0.0 && 0.0 <= p <= 1.0
    ensures var s := ZShare(n);
      && rd >= 0.0 && rd * rd == s * (p * (1.0 - p)) + s * s / 4.0
      && WilsonCenter(p, n) * (1.0 + s) == p + s / 2.0 && WilsonRadius(p, n, num) * (1.0 + s) == rd
  {
    hide ZShare;
    var s := ZShare(n);
    MulNonNegative(p, 1.0 - p);
    QuotientsNonNegative(p * (1.0 - p), s, n);
    var q := num.sqrt(p * (1.0 - p) / n + s / (4.0 * n));
    rd := Z * q;
    ScaledNonNegative(q);
    ShareOfZ(n);
    ScoreSquare(Z, n, p, s, q);
    CentreAndRadius(p, s, q, WilsonCenter(p, n), WilsonRadius(p, n, num));
  }

  lemma WilsonEnds(p: real, s: real, n: real, cd: real, rd: real, center: real, radius: real)
    requires n > 0.0 && s == ZShare(n) && cd == p + s / 2.0 && rd * rd == s * (p * (1.0 - p)) + s * s / 4.0
    requires cd - rd <= p * (1.0 + s) <= cd + rd
    requires center * (1.0 + s) == cd && radius * (1.0 + s) == rd
    ensures 0.0 <= center - radius <= p <= center + radius <= 1.0
    ensures IsScoreBound(center - radius, p, n) && IsScoreBound(center + radius, p, n)
  {
    hide *;
    EndsBracket(center, radius, p, 1.0 + s, cd, rd);
    BothEnds(p, s, n, cd, rd, center, radius);
  }

  lemma BothEnds(p: real, s: real, n: real, cd: real, rd: real, center: real, radius: real)
    requires n > 0.0 && s == ZShare(n) && cd == p + s / 2.0 && rd * rd == s * (p * (1.0 - p)) + s * s / 4.0
    requires center * (1.0 + s) == cd && radius * (1.0 + s) == rd
    ensures 0.0 <= center - radius && IsScoreBound(center - radius, p, n)
    ensures center + radius <= 1.0 && IsScoreBound(center + radius, p, n)
  {
    hide *;
    EndsTimes(center, radius, 1.0 + s, cd, rd);
    ScoreEnd(p, s, n, cd, rd, center - radius);
    ScoreEnd(p, s, n, cd, rd, center + radius);
  }

  lemma EndsBracket(c: real, r: real, p: real, d: real, cd: real, rd: real)
    requires d > 0.0 && c * d == cd && r * d == rd && cd - rd <= p * d <= cd + rd
    ensures c - r <= p <= c + r
  {
    EndsTimes(c, r, d, cd, rd);
    BracketsDivide(c - r, p, c + r, d);
  }

  lemma ShareOfZ(n: real)
    requires n > 0.0
    ensures ZShare(n) == Z * Z / n && ZShare(n) > 0.0
  {
  }

  lemma ScaledNonNegative(q: real)
    requires q >= 0.0
    ensures Z * q >= 0.0
  {
  }

  lemma EndsTimes(c: real, r: real, d: real, cd: real, rd: real)
    requires c * d == cd && r * d == rd
    ensures (c - r) * d == cd - rd && (c + r) * d == cd + rd
  {
  }

  lemma CentreAndRadius(p: real, s: real, q: real, center: real, radius: real)
    requires s > 0.0 && center == (p + s / 2.0) / (1.0 + s) && radius == (Z / (1.0 + s)) * q
    ensures center * (1.0 + s) == p + s / 2.0 && radius * (1.0 + s) == Z * q
  {
    DivTimes(p + s / 2.0, 1.0 + s);
    DivTimes(Z, 1.0 + s);
    assert (Z / (1.0 + s)) * q * (1.0 + s) == (Z / (1.0 + s)) * (1.0 + s) * q;
  }

  lemma ScoreEnd(p: real, s: real, n: real, cd: real, rd: real, r: real)
    requires n > 0.0 && s == ZShare(n) && cd == p + s / 2.0 && rd * rd == s * (p * (1.0 - p)) + s * s / 4.0
    requires r * (1.0 + s) == cd + rd || r * (1.0 + s) == cd - rd
    ensures 0.0 <= r <= 1.0 && IsScoreBound(r, p, n)
  {
    ScoreRoot(p, s, cd, rd, r * (1.0 + s), r);
    ScoreInUnit(p, s, r);
    ScoreTimes(n, s, (p - r) * (p - r), r * (1.0 - r));
  }

  lemma QuotientsNonNegative(a: real, s: real, n: real)
    requires a >= 0.0 && s > 0.0 && n > 0.0
    ensures a / n + s / (4.0 * n) >= 0.0
  {
    assert a / n >= 0.0 && s / (4.0 * n) >= 0.0;
  }

  lemma BracketsDivide(a: real, p: real, b: real, d: real)
    requires d > 0.0 && a * d <= p * d <= b * d
    ensures a <= p <= b
  {
    if p < a {
      MulPositive(a - p, d);
      SubTimes(a, p, d);
    }
    if b < p {
      MulPositive(p - b, d);
      SubTimes(p, b, d);
    }
  }

  /** z^2 / n */
  function ZShare(n: real): (r: real)
    requires n > 0.0
    ensures r > 0.0
  {
    Z_SQUARED / n
  }

  // ---------------------------------------------------------------- step 1: observed cut levels

  /** The recency-weighted levels at which constraint `j` cut a candidate. */
  function CutLevels(records: seq<DidsRecord>, n: nat, j: nat, l: nat, halfLife: real, num: Numerics): seq<Weighted>
    requires n <= |records| && l >= 1
  {
    if n == 0 then []
    else
      var init := CutLevels(records, n - 1, j, l, halfLife, num);
      var r := records[n - 1];
      if r.outcome == EarlyInfeasibleTag && r.violatedJ == Some(j) then
        init + [Weighted(MaxInt(1, MinInt(r.phiIdx + 1, l)), RecencyWeight(|records| - n, halfLife, num))]
      else init
  }

  function HalfLife(n: nat): real {
    Max((MaxInt(n, 8) as real) / 3.0, 6.0)
  }

  const Q_CUT: real := 0.80
  const MIN_EFFECTIVE: real := 6.0

  /** The base rule: cut where most recent cuts happened, but not on thin evidence. */
  function BaseLevel(cuts: seq<Weighted>, l: nat): (r: nat)
    requires l >= 1
    ensures 1 <= r <= l
  {
    var effN := EffectiveSampleSize(cuts);
    if effN < MIN_EFFECTIVE then 1
    else
      var q := QuantileOfWeighted(cuts, Q_CUT);
      var aj := MaxInt(1, MinInt(if q.Some? then q.value else 1, l));
      if aj == 1 && effN < 18.0 then MinInt(2, l) else aj
  }

  /** The positions of the records in which constraint `j` cut a candidate. */
  function CutPositions(records: seq<DidsRecord>, n: nat, j: nat): (r: seq<nat>)
    requires n <= |records|
    ensures forall k :: 0 <= k < |r| ==> r[k] < n
  {
    if n == 0 then []
    else
      var init := CutPositions(records, n - 1, j);
      if records[n - 1].outcome.EarlyInfeasibleTag? && records[n - 1].violatedJ == Some(j) then init + [n - 1] else init
  }

  lemma {:induction false} CutPositionsAre(records: seq<DidsRecord>, n: nat, j: nat)
    requires n <= |records|
    ensures var at := CutPositions(records, n, j);
      Ascending(at) && forall i :: i in at <==> 0 <= i < n && records[i].outcome == EarlyInfeasibleTag
                                                && records[i].violatedJ == Some(j)
  {
    if n > 0 {
      CutPositionsAre(records, n - 1, j);
    }
  }

  /** Exactly the cuts of the constraint enter its list, oldest first, each with its one-based level on the
      ladder and the weight of the number of records since. */
  lemma {:induction false} CutLevelsAre(records: seq<DidsRecord>, n: nat, j: nat, l: nat, halfLife: real, num: Numerics)
    requires n <= |records| && l >= 1
    ensures |CutLevels(records, n, j, l, halfLife, num)| == |CutPositions(records, n, j)|
    ensures forall k :: 0 <= k < |CutPositions(records, n, j)| ==>
              var i, c := CutPositions(records, n, j)[k], CutLevels(records, n, j, l, halfLife, num)[k];
              c == Weighted(Clip(records[i].phiIdx + 1, l), RecencyWeight(|records| - i - 1, halfLife, num))
  {
    hide RecencyWeight;
    if n > 0 {
      CutLevelsAre(records, n - 1, j, l, halfLife, num);
      var at, cuts := CutPositions(records, n - 1, j), CutLevels(records, n - 1, j, l, halfLife, num);
      var r := records[n - 1];
      if r.outcome == EarlyInfeasibleTag && r.violatedJ == Some(j) {
        assert CutPositions(records, n, j) == at + [n - 1];
        assert MaxInt(1, MinInt(r.phiIdx + 1, l)) == Clip(r.phiIdx + 1, l);
      }
    }
  }

  function Clip(level: nat, l: nat): nat {
    if level < 1 then 1 else if level > l then MaxInt(l, 1) else level
  }

  /** A record that is a half-life older weighs half as much; the newest one weighs one. */
  lemma WeightHalves(age: nat, older: nat, halfLife: real, num: Numerics)
    requires halfLife > 0.0 && (older as real) == (age as real) + halfLife
    requires (forall x: real, y: real :: num.exp(x + y) == num.exp(x) * num.exp(y))
    requires num.exp(0.0) == 1.0 && num.exp(-LN_2) == 0.5
    ensures RecencyWeight(0, halfLife, num) == 1.0
    ensures RecencyWeight(older, halfLife, num) == RecencyWeight(age, halfLife, num) / 2.0
  {
    ExponentShift(LN_2 * (age as real), LN_2 * (older as real), halfLife);
    ExponentOfNew(halfLife);
    var x := -(LN_2 * (age as real)) / halfLife;
    assert num.exp(x + -LN_2) == num.exp(x) * num.exp(-LN_2);
  }

  lemma ExponentShift(a: real, b: real, h: real)
    requires h > 0.0 && b == a + LN_2 * h
    ensures -b / h == -a / h + -LN_2
  {
    DivTimes(-a, h);
    var x := -a / h;
    assert (x + -LN_2) * h == -b;
    TimesDiv(x + -LN_2, h);
  }

  lemma ExponentOfNew(h: real)
    requires h > 0.0
    ensures -(LN_2 * (0 as real)) / h == 0.0
  {
  }

  lemma {:induction false} SpreadNonNegative(s: seq<Weighted>, w: real)
    ensures TotalSquare(s) - 2.0 * w * TotalWeight(s) + (|s| as real) * (w * w) >= 0.0
  {
    if s != [] {
      SpreadNonNegative(s[1..], w);
      SquareNonNegative(s[0].w - w);
      SpreadStep(s[0].w, w, TotalSquare(s[1..]), TotalWeight(s[1..]), |s[1..]| as real);
    }
  }

  lemma SpreadStep(v: real, w: real, q: real, t: real, n: real)
    requires q - 2.0 * w * t + n * (w * w) >= 0.0 && (v - w) * (v - w) >= 0.0
    ensures v * v + q - 2.0 * w * (v + t) + (n + 1.0) * (w * w) >= 0.0
  {
    assert (v - w) * (v - w) == v * v - 2.0 * w * v + w * w;
  }

  lemma {:induction false} SquareOfTotal(s: seq<Weighted>)
    ensures TotalWeight(s) * TotalWeight(s) <= (|s| as real) * TotalSquare(s) && TotalSquare(s) >= 0.0
  {
    if s != [] {
      SquareOfTotal(s[1..]);
      SpreadNonNegative(s[1..], s[0].w);
      SquareNonNegative(s[0].w);
      SquareStep(s[0].w, TotalSquare(s[1..]), TotalWeight(s[1..]), |s[1..]| as real);
    }
  }

  lemma SquareStep(w: real, q: real, t: real, n: real)
    requires t * t <= n * q && q - 2.0 * w * t + n * (w * w) >= 0.0
    ensures (w + t) * (w + t) <= (n + 1.0) * (w * w + q)
  {
    assert (w + t) * (w + t) == w * w + 2.0 * w * t + t * t;
    assert (n + 1.0) * (w * w + q) == n * (w * w) + n * q + w * w + q;
  }

  lemma {:induction false} EqualTotals(s: seq<Weighted>, w: real)
    requires forall i :: 0 <= i < |s| ==> s[i].w == w
    ensures TotalWeight(s) == (|s| as real) * w && TotalSquare(s) == (|s| as real) * (w * w)
  {
    if s != [] {
      EqualTotals(s[1..], w);
      assert (|s| as real) * w == (|s[1..]| as real) * w + w;
      assert (|s| as real) * (w * w) == (|s[1..]| as real) * (w * w) + w * w;
    }
  }

  /** The effective sample size never exceeds the number of cuts. */
  lemma EffectiveSampleSizeBound(s: seq<Weighted>)
    ensures EffectiveSampleSize(s) <= |s| as real
  {
    hide TotalWeight, TotalSquare;
    SquareOfTotal(s);
    EffectiveAtMost(TotalWeight(s), TotalSquare(s), |s|);
  }

  /** Cuts that all weigh the same count one each. */
  lemma EqualWeightsCount(s: seq<Weighted>, w: real)
    requires w > 0.0 && forall i :: 0 <= i < |s| ==> s[i].w == w
    ensures EffectiveSampleSize(s) == |s| as real
  {
    hide TotalWeight, TotalSquare;
    EqualTotals(s, w);
    EqualQuotient(TotalWeight(s), TotalSquare(s), |s| as real, w);
  }

  lemma EffectiveAtMost(t: real, q: real, n: nat)
    requires q >= 0.0 && t * t <= (n as real) * q
    ensures (if q <= 0.0 then 0.0 else (t * t) / q) <= n as real
  {
    if q > 0.0 {
      DivTimes(t * t, q);
      QuotientAtMost(t * t / q, t * t, q, n as real);
    }
  }

  lemma EqualQuotient(t: real, q: real, n: real, w: real)
    requires n >= 0.0 && w > 0.0 && t == n * w && q == n * (w * w)
    ensures n == 0.0 ==> q == 0.0
    ensures n > 0.0 ==> q > 0.0 && t * t / q == n
  {
    MulPositive(w, w);
    if n > 0.0 {
      MulPositive(n, w * w);
      assert t * t == n * q;
      TimesDiv(n, q);
    }
  }

  lemma QuotientAtMost(c: real, a: real, q: real, n: real)
    requires q > 0.0 && c * q == a && a <= n * q
    ensures c <= n
  {
    if c > n {
      MulPositive(c - n, q);
      SubTimes(c, n, q);
    }
  }

  // ---------------------------------------------------------------- step 2: audit evidence

  /** The counts of one constraint at one level, or overall. */
  datatype Evidence = Evidence(audits: nat, falses: nat, confirmed: nat)

  datatype AuditRule = AuditRule(target: real, minAudits: nat, precisionEnabled: bool)

  function TargetRate(targetFalse: real): (t: real)
    ensures 0.0 < t <= 1.0
  {
    if targetFalse > 0.0 then Clamp(targetFalse, 0.0, 1.0) else 0.01
  }

  function FalseHi(e: Evidence, num: Numerics): real {
    Wilson(e.falses, e.audits, num).1
  }

  function PrecisionLo(e: Evidence, rule: AuditRule, num: Numerics): real {
    if rule.precisionEnabled then Wilson(e.confirmed, e.audits, num).0 else 0.0
  }

  /** The evidence at a level speaks against cutting there. */
  predicate Alarm(e: Evidence, rule: AuditRule, num: Numerics) {
    && e.audits > 0
    && (|| (e.audits >= rule.minAudits && FalseHi(e, num) > rule.target * 1.15)
        || (rule.precisionEnabled && e.audits >= rule.minAudits && PrecisionLo(e, rule, num) < 0.55)
        || (e.audits >= MaxInt(rule.minAudits / 2, 3) && e.falses > 0 && FalseHi(e, num) > rule.target * 1.50))
  }

  /** The evidence at the next lower level, and overall, is strong enough to cut earlier. */
  predicate Relaxes(lower: Evidence, overall: Evidence, rule: AuditRule, num: Numerics) {
    var relaxMin := MaxInt(rule.minAudits * 2, 8);
    && lower.audits >= relaxMin && overall.audits >= relaxMin
    && FalseHi(lower, num) < rule.target * 0.60
    && FalseHi(overall, num) < rule.target * 0.75
    && (rule.precisionEnabled ==>
          PrecisionLo(lower, rule, num) > 0.70 && PrecisionLo(overall, rule, num) > 0.65)
  }

  function EvidenceAt(calib: CalibState, j: nat, lvl: nat): Evidence {
    Evidence(GetOr(GetOr(calib.auditNBy, j, []), lvl, 0),
             GetOr(GetOr(calib.falseInfeasNBy, j, []), lvl, 0),
             GetOr(GetOr(calib.confirmedNBy, j, []), lvl, 0))
  }

  function EvidenceOverall(calib: CalibState, j: nat): Evidence {
    Evidence(GetOr(calib.auditN, j, 0), GetOr(calib.falseInfeasN, j, 0), GetOr(calib.confirmedN, j, 0))
  }

  function RuleFor(calib: CalibState, j: nat): AuditRule {
    AuditRule(TargetRate(calib.targetFalse), MaxInt(calib.minAudits, 1),
              j < |calib.confirmedNBy| || j < |calib.confirmedN|)
  }

  /** The level after the alarms of the first `n` levels. */
  function Raised(a: nat, calib: CalibState, j: nat, n: nat, l: nat, num: Numerics): (r: nat)
    requires 1 <= a <= l
    ensures a <= r <= l
  {
    if n == 0 || j >= |calib.auditNBy| || j >= |calib.falseInfeasNBy| then a
    else
      var prev := Raised(a, calib, j, n - 1, l, num);
      if Alarm(EvidenceAt(calib, j, n - 1), RuleFor(calib, j), num) then MaxInt(prev, MinInt(n + 1, l)) else prev
  }

  /** The level after at most one relaxation. */
  function Relaxed(a: nat, calib: CalibState, j: nat, num: Numerics): (r: nat)
    requires a >= 1
    ensures 1 <= r <= a
  {
    if a > 1 && Relaxes(EvidenceAt(calib, j, a - 2), EvidenceOverall(calib, j), RuleFor(calib, j), num)
    then a - 1
    else a
  }

  // ---------------------------------------------------------------- step 3: slack guard

  function Ceil(z: real): int {
    -((-z).Floor)
  }

  function Bumps(dj: real, base: real, num: Numerics): nat
    requires base > 0.0
  {
    if dj <= 0.0 then 0
    else
      var ratio := dj / base;
      if ratio <= 1.25 || num.ln(2.0) == 0.0 then 0 else MaxInt(Ceil(num.ln(ratio) / num.ln(2.0)), 0)
  }

  function Bumped(a: nat, bumps: nat, l: nat): (r: nat)
    requires 1 <= a <= l
    ensures a <= r <= l
  {
    if bumps > 0 then MinInt(a + bumps, l) else a
  }

  function Baseline(b: real): (r: real)
    ensures r > 0.0
  {
    if b > 0.0 then b else 0.005
  }

  /** A logarithm: it grows, and doubling adds the logarithm of two. */
  ghost predicate IsLn(ln: real -> real) {
    && (forall x: real, y: real :: 0.0 < x < y ==> ln(x) < ln(y))
    && (forall k: nat :: ln(Pow(2, k) as real) == (k as real) * ln(2.0))
  }

  /** The slack guard: a slack beyond 1.25 baselines raises the level by the number of doublings of the
      baseline that are needed to reach it. */
  lemma BumpsAreDoublings(dj: real, base: real, num: Numerics)
    requires IsLn(num.ln) && base > 0.0
    ensures dj <= base * 1.25 ==> Bumps(dj, base, num) == 0
    ensures dj > base * 1.25 ==>
              var k := Bumps(dj, base, num);
              k >= 1 && dj <= base * (Pow(2, k) as real) && dj > base * (Pow(2, k - 1) as real)
  {
    hide Pow, IsLn;
    if dj > 0.0 {
      var ratio := dj / base;
      DivTimes(dj, base);
      RatioAbove(dj, base, 1.25);
      if ratio > 1.25 {
        var k := Bumps(dj, base, num);
        DoublingsOf(ratio, k, num);
        RatioAbove(dj, base, Pow(2, k) as real);
        RatioAbove(dj, base, Pow(2, k - 1) as real);
      }
    }
  }

  lemma RatioAbove(dj: real, base: real, t: real)
    requires base > 0.0
    ensures dj / base > t <==> dj > base * t
  {
    DivTimes(dj, base);
    ProductAbove(dj / base, base, t, dj);
  }

  lemma ProductAbove(q: real, base: real, t: real, dj: real)
    requires base > 0.0 && q * base == dj
    ensures q > t <==> dj > base * t
  {
    ScaledOrder(q, t, base);
    assert t * base == base * t;
  }

  lemma ScaledOrder(a: real, b: real, c: real)
    requires c > 0.0
    ensures a > b ==> a * c > b * c
    ensures a <= b ==> a * c <= b * c
  {
    if a > b {
      MulPositive(a - b, c);
      SubTimes(a, b, c);
    } else {
      MulMonotoneReal(a, b, c);
    }
  }

  lemma DoublingsOf(ratio: real, k: nat, num: Numerics)
    requires IsLn(num.ln) && ratio > 1.25
    requires k == if num.ln(2.0) == 0.0 then 0 else MaxInt(Ceil(num.ln(ratio) / num.ln(2.0)), 0)
    ensures k >= 1 && Pow(2, k - 1) as real < ratio <= Pow(2, k) as real
  {
    hide Pow;
    var a, b := num.ln(ratio), num.ln(2.0);
    PowersOfTwo();
    assert num.ln(Pow(2, 0) as real) == (0 as real) * b;
    assert num.ln(1.0) < num.ln(2.0) && num.ln(1.0) < a;
    CeilOfQuotient(a, b, k);
    assert num.ln(Pow(2, k) as real) == (k as real) * b;
    assert num.ln(Pow(2, k - 1) as real) == ((k - 1) as real) * b;
    PowPositive(k);
    PowPositive(k - 1);
  }

  lemma PowersOfTwo()
    ensures Pow(2, 0) == 1
  {
  }

  lemma {:induction false} PowPositive(k: nat)
    ensures Pow(2, k) >= 1
  {
    if k > 0 {
      PowPositive(k - 1);
    }
  }

  lemma CeilOfQuotient(a: real, b: real, k: nat)
    requires a > 0.0 && b > 0.0 && k == MaxInt(Ceil(a / b), 0)
    ensures k >= 1 && ((k - 1) as real) * b < a <= (k as real) * b
  {
    DivTimes(a, b);
    CeilOfFactor(a / b, a, b, k);
  }

  lemma CeilOfFactor(q: real, a: real, b: real, k: nat)
    requires a > 0.0 && b > 0.0 && q * b == a && k == MaxInt(Ceil(q), 0)
    ensures k >= 1 && ((k - 1) as real) * b < a <= (k as real) * b
  {
    ScaledOrder(q, 0.0, b);
    ScaledOrder(q, (k - 1) as real, b);
    ScaledOrder(q, k as real, b);
  }

  /** The assigned level of constraint `j`. */
  function AssignmentOf(cuts: seq<Weighted>, calib: CalibState, j: nat, l: nat, baseline: real, num: Numerics): (r: nat)
    requires l >= 1
    ensures 1 <= r <= l
  {
    var base := Baseline(baseline);
    var a2 := Relaxed(Raised(BaseLevel(cuts, l), calib, j, l, l, num), calib, j, num);
    Bumped(a2, Bumps(GetOr(calib.deltaRel, j, base), base, num), l)
  }

  lemma {:induction false} AlarmRaises(a: nat, calib: CalibState, j: nat, n: nat, lvl: nat, l: nat, num: Numerics)
    requires 1 <= a <= l && lvl < n
    requires j < |calib.auditNBy| && j < |calib.falseInfeasNBy|
    requires Alarm(EvidenceAt(calib, j, lvl), RuleFor(calib, j), num)
    ensures Raised(a, calib, j, n, l, num) >= MinInt(lvl + 2, l)
  {
    hide Alarm;
    if lvl < n - 1 {
      AlarmRaises(a, calib, j, n - 1, lvl, l, num);
    }
  }

  lemma AlarmsNeverRelax(e: Evidence, overall: Evidence, rule: AuditRule, num: Numerics)
    requires rule.target > 0.0
    requires Alarm(e, rule, num)
    ensures !Relaxes(e, overall, rule, num)
  {
    hide FalseHi, PrecisionLo;
  }

  /** Safety of the assignment: when the audits of a level raise an alarm, no relaxation or later
      step lets the constraint cut at that level or below. */
  lemma AlarmForbidsCut(cuts: seq<Weighted>, calib: CalibState, j: nat, l: nat, lvl: nat, baseline: real, num: Numerics)
    requires lvl + 2 <= l
    requires j < |calib.auditNBy| && j < |calib.falseInfeasNBy|
    requires Alarm(EvidenceAt(calib, j, lvl), RuleFor(calib, j), num)
    ensures AssignmentOf(cuts, calib, j, l, baseline, num) >= lvl + 2
  {
    hide Alarm, Relaxes, BaseLevel, Bumps;
    var base := BaseLevel(cuts, l);
    AlarmRaises(base, calib, j, l, lvl, l, num);
    AlarmsNeverRelax(EvidenceAt(calib, j, lvl), EvidenceOverall(calib, j), RuleFor(calib, j), num);
  }

  lemma ProportionAbove(success: nat, total: nat, t: real)
    requires 0 < total
    ensures (success as real) > t * (total as real) <==> (success as real) / (total as real) > t
    ensures (success as real) < t * (total as real) <==> (success as real) / (total as real) < t
  {
    var p, n := (success as real) / (total as real), total as real;
    DivTimes(success as real, n);
    SubTimes(p, t, n);
    if p > t {
      MulPositive(p - t, n);
    } else if p < t {
      MulPositive(t - p, n);
      SubTimes(t, p, n);
    }
  }

  /** The alarm in terms of what was observed: with enough audits, a false rate above 1.15 times the target, or,
      where confirmations are recorded, a rate of confirmed violations below 0.55, keeps the constraint from
      cutting at that level or below. */
  lemma BadRateForbidsCut(cuts: seq<Weighted>, calib: CalibState, j: nat, l: nat, lvl: nat, baseline: real,
                          num: Numerics)
    requires IsSqrt(num.sqrt) && lvl + 2 <= l
    requires j < |calib.auditNBy| && j < |calib.falseInfeasNBy|
    requires var e := EvidenceAt(calib, j, lvl);
      && e.audits >= MaxInt(calib.minAudits, 1) && e.falses <= e.audits && e.confirmed <= e.audits
      && (|| (e.falses as real) > TargetRate(calib.targetFalse) * 1.15 * (e.audits as real)
          || ((j < |calib.confirmedNBy| || j < |calib.confirmedN|)
              && (e.confirmed as real) < 0.55 * (e.audits as real)))
    ensures AssignmentOf(cuts, calib, j, l, baseline, num) >= lvl + 2
  {
    hide Wilson, AssignmentOf, EvidenceAt, IsScoreBound;
    var e := EvidenceAt(calib, j, lvl);
    WilsonSpec(e.falses, e.audits, num);
    WilsonSpec(e.confirmed, e.audits, num);
    ProportionAbove(e.falses, e.audits, TargetRate(calib.targetFalse) * 1.15);
    ProportionAbove(e.confirmed, e.audits, 0.55);
    AlarmForbidsCut(cuts, calib, j, l, lvl, baseline, num);
  }

  /** A level is relaxed only where few of the audits, at the level below and overall, were false alarms: less
      than 0.60 and 0.75 of the target rate; and most, where recorded, were confirmed. */
  lemma RelaxedOnlyOnGoodRates(a: nat, calib: CalibState, j: nat, num: Numerics)
    requires IsSqrt(num.sqrt) && a >= 1 && Relaxed(a, calib, j, num) != a
    requires a > 1 ==>
      var lower, all := EvidenceAt(calib, j, a - 2), EvidenceOverall(calib, j);
      && lower.falses <= lower.audits && lower.confirmed <= lower.audits
      && all.falses <= all.audits && all.confirmed <= all.audits
    ensures a > 1 && Relaxed(a, calib, j, num) == a - 1
    ensures var lower, all, t := EvidenceAt(calib, j, a - 2), EvidenceOverall(calib, j), TargetRate(calib.targetFalse);
      && lower.audits >= 8 && lower.audits >= 2 * calib.minAudits && all.audits >= 8
      && (lower.falses as real) < t * 0.60 * (lower.audits as real)
      && (all.falses as real) < t * 0.75 * (all.audits as real)
      && ((j < |calib.confirmedNBy| || j < |calib.confirmedN|) ==>
            && (lower.confirmed as real) > 0.70 * (lower.audits as real)
            && (all.confirmed as real) > 0.65 * (all.audits as real))
  {
    hide Wilson, EvidenceAt, EvidenceOverall, IsScoreBound, TargetRate;
    var lower, all, t := EvidenceAt(calib, j, a - 2), EvidenceOverall(calib, j), TargetRate(calib.targetFalse);
    WilsonSpec(lower.falses, lower.audits, num);
    WilsonSpec(lower.confirmed, lower.audits, num);
    WilsonSpec(all.falses, all.audits, num);
    WilsonSpec(all.confirmed, all.audits, num);
    ProportionAbove(lower.falses, lower.audits, t * 0.60);
    ProportionAbove(lower.confirmed, lower.audits, 0.70);
    ProportionAbove(all.falses, all.audits, t * 0.75);
    ProportionAbove(all.confirmed, all.audits, 0.65);
  }

  /** On thin cut evidence and without audits the assignment stays at the first level unless the
      slack has grown past the baseline. */
  lemma NoEvidenceNoRaise(cuts: seq<Weighted>, calib: CalibState, j: nat, l: nat, baseline: real, num: Numerics)
    requires l >= 1
    requires EffectiveSampleSize(cuts) < MIN_EFFECTIVE
    requires forall lvl :: 0 <= lvl < l ==> EvidenceAt(calib, j, lvl).audits == 0
    requires GetOr(calib.deltaRel, j, 0.0) <= Baseline(baseline)
    ensures AssignmentOf(cuts, calib, j, l, baseline, num) == 1
  {
    hide EffectiveSampleSize, EvidenceAt, Relaxes;
    NoAlarmNoRaise(1, calib, j, l, l, num);
    RatioAtMostOne(GetOr(calib.deltaRel, j, Baseline(baseline)), Baseline(baseline), num);
  }

  lemma RatioAtMostOne(dj: real, base: real, num: Numerics)
    requires base > 0.0 && dj <= base
    ensures Bumps(dj, base, num) == 0
  {
    if dj > 0.0 {
      DivTimes(dj, base);
      if dj / base > 1.0 {
        MulPositive(dj / base - 1.0, base);
        SubTimes(dj / base, 1.0, base);
      }
    }
  }

  lemma {:induction false} NoAlarmNoRaise(a: nat, calib: CalibState, j: nat, n: nat, l: nat, num: Numerics)
    requires 1 <= a <= l && n <= l
    requires forall lvl :: 0 <= lvl < l ==> EvidenceAt(calib, j, lvl).audits == 0
    ensures Raised(a, calib, j, n, l, num) == a
  {
    if n > 0 {
      NoAlarmNoRaise(a, calib, j, n - 1, l, num);
      assert EvidenceAt(calib, j, n - 1).audits == 0;
    }
  }

  function TagOf(r: JobResult): (OutcomeTag, Option<nat>) {
    match r
    case RejectedCheap(_) => (RejectedCheapTag, None)
    case RejectedInvalidEval(_) => (RejectedInvalidEvalTag, None)
    case EarlyInfeasible(j, _, _) => (EarlyInfeasibleTag, Some(j))
    case Partial(_, _) => (PartialOutcomeTag, None)
    case Truth(_, _, _, _, _) => (TruthOutcomeTag, None)
  }

  /** The last `cap` records. */
  function Recent(records: seq<DidsRecord>, cap: nat): seq<DidsRecord> {
    if |records| > cap then records[|records| - cap..] else records
  }

  /** The smallest positive slack, or `start` when there is none. */
  function MinPositive(deltas: seq<real>, start: Option<real>): Option<real> {
    if deltas == [] then start
    else
      var d := deltas[0];
      MinPositive(deltas[1..],
                  if d > 0.0 then Some(if start.Some? then Min(start.value, d) else d) else start)
  }

  function NextBaseline(baseline: real, deltas: seq<real>): real {
    if deltas != [] && deltas[0] > 0.0 && MinPositive(deltas, None).Some? then MinPositive(deltas, None).value
    else baseline
  }

  class DefaultDids {
    const num: Numerics
    var m: nat
    var records: seq<DidsRecord>
    var assignment: seq<nat>
    var maxRecords: nat
    var deltaBaseline: real

    constructor (num: Numerics)
      ensures this.num == num
    {
      this.num := num;
      m, records, assignment, maxRecords, deltaBaseline := 0, [], [], 0, 0.0;
    }

    method Init(m: nat)
      modifies this
      ensures this.m == m && records == [] && assignment == Fill(m, 1)
      ensures maxRecords == 5000 && deltaBaseline == 0.005
    {
      this.m := m;
      records := [];
      assignment := Fill(m, 1);
      maxRecords := 5000;
      deltaBaseline := 0.005;
    }

    method Record(x: XMesh, phi: Phi, phiIdx: nat, result: JobResult)
      modifies this`records
      ensures records == Recent(old(records) + [DidsRecord(x, phi, phiIdx, TagOf(result).0, TagOf(result).1)],
                                MaxInt(maxRecords, 1))
    {
      var (outcome, violatedJ) := TagOf(result);
      records := records + [DidsRecord(x, phi, phiIdx, outcome, violatedJ)];
      if |records| > MaxInt(maxRecords, 1) {
        var excess := |records| - MaxInt(maxRecords, 1);
        records := records[excess..];
      }
    }

    /** The levels every constraint cut at so far. */
    function CutsOf(j: nat, l: nat): seq<Weighted>
      requires l >= 1
      reads this
    {
      CutLevels(records, |records|, j, l, HalfLife(|records|), num)
    }

    /** Sorts the recorded cuts into one weighted list per constraint. */
    method CollectCuts(l: nat) returns (perJ: seq<seq<Weighted>>)
      requires l >= 1
      ensures |perJ| == m && forall j :: 0 <= j < m ==> perJ[j] == CutsOf(j, l)
    {
      hide RecencyWeight, HalfLife;
      perJ := Fill(m, []);
      var histLen := |records|;
      var halfLife := HalfLife(histLen);
      for idx := 0 to histLen
        invariant |perJ| == m
        invariant forall j :: 0 <= j < m ==> perJ[j] == CutLevels(records, idx, j, l, halfLife, num)
      {
        var r := records[idx];
        if r.outcome == EarlyInfeasibleTag && r.violatedJ.Some? && r.violatedJ.value < m {
          var level := MaxInt(1, MinInt(r.phiIdx + 1, l));
          var age := histLen - (idx + 1);
          var w := RecencyWeight(age, halfLife, num);
          var j := r.violatedJ.value;
          perJ := perJ[j := perJ[j] + [Weighted(level, w)]];
        }
      }
    }

    method ComputeAssignment(ladderLen: nat, calib: CalibState) returns (out: seq<nat>)
      ensures |out| == m
      ensures forall j :: 0 <= j < m ==>
                var l := MaxInt(ladderLen, 1);
                out[j] == AssignmentOf(CutsOf(j, l), calib, j, l, deltaBaseline, num)
      ensures forall j :: 0 <= j < m ==> 1 <= out[j] <= MaxInt(ladderLen, 1)
    {
      hide BaseLevel, Alarm, Relaxes, Bumps;
      var l := MaxInt(ladderLen, 1);
      var perJ := CollectCuts(l);
      out := Fill(m, 1);
      for j := 0 to m
        invariant |out| == m
        invariant forall i :: 0 <= i < m ==> out[i] == if i < j then BaseLevel(perJ[i], l) else 1
      {
        var level := ComputeBaseLevel(perJ[j], l);
        out := out[j := level];
      }
      for j := 0 to m
        invariant |out| == m
        invariant forall i :: 0 <= i < m ==>
            out[i] == if i < j then Relaxed(Raised(BaseLevel(perJ[i], l), calib, i, l, l, num), calib, i, num)
                      else BaseLevel(perJ[i], l)
      {
        var level := RefineByAudits(out[j], calib, j, l);
        out := out[j := level];
      }
      var base := Baseline(deltaBaseline);
      for j := 0 to m
        invariant |out| == m
        invariant forall i :: 0 <= i < j ==> out[i] == AssignmentOf(perJ[i], calib, i, l, deltaBaseline, num)
        invariant forall i :: j <= i < m ==>
            out[i] == Relaxed(Raised(BaseLevel(perJ[i], l), calib, i, l, l, num), calib, i, num)
      {
        var bumps := Bumps(GetOr(calib.deltaRel, j, base), base, num);
        if bumps > 0 {
          out := out[j := MinInt(out[j] + bumps, l)];
        }
      }
    }

    method ComputeBaseLevel(cuts: seq<Weighted>, l: nat) returns (level: nat)
      requires l >= 1
      ensures level == BaseLevel(cuts, l)
    {
      hide EffectiveSampleSize, QuantileOfWeighted;
      var effN := EffectiveSampleSize(cuts);
      if effN < MIN_EFFECTIVE {
        return 1;
      }
      var q := WeightedQuantile(cuts, Q_CUT);
      var aj := MaxInt(1, MinInt(if q.Some? then q.value else 1, l));
      level := if aj == 1 && effN < 18.0 then MinInt(2, l) else aj;
    }

    /** Raises the level above every alarm, then relaxes by one on strong evidence. */
    method RefineByAudits(start: nat, calib: CalibState, j: nat, l: nat) returns (level: nat)
      requires 1 <= start <= l
      ensures level == Relaxed(Raised(start, calib, j, l, l, num), calib, j, num)
    {
      hide Alarm, Relaxes;
      level := start;
      var rule := RuleFor(calib, j);
      if j < |calib.auditNBy| && j < |calib.falseInfeasNBy| {
        for lvl0 := 0 to l
          invariant level == Raised(start, calib, j, lvl0, l, num)
        {
          if Alarm(EvidenceAt(calib, j, lvl0), rule, num) {
            level := MaxInt(level, MinInt(lvl0 + 2, l));
          }
        }
      }
      if level > 1 {
        var lowerLvl0 := level - 2;
        if Relaxes(EvidenceAt(calib, j, lowerLvl0), EvidenceOverall(calib, j), rule, num) {
          level := level - 1;
        }
      }
    }

    /** The assignment at a batch boundary, and whether it moved. */
    method UpdateAssignment(ladderLen: nat, calib: CalibState) returns (newA: seq<nat>, delta: nat)
      modifies this`assignment, this`deltaBaseline
      ensures newA == assignment && |newA| == m
      ensures forall j :: 0 <= j < m ==> 1 <= newA[j] <= MaxInt(ladderLen, 1)
      ensures deltaBaseline == NextBaseline(old(deltaBaseline), calib.deltaRel)
      ensures forall j :: 0 <= j < m ==>
                var l := MaxInt(ladderLen, 1);
                newA[j] == AssignmentOf(CutsOf(j, l), calib, j, l, deltaBaseline, num)
      ensures delta == if newA == old(assignment) then 0 else 1
    {
      hide AssignmentOf;
      if calib.deltaRel != [] && calib.deltaRel[0] > 0.0 {
        var minV: Option<real> := None;
        for i := 0 to |calib.deltaRel|
          invariant MinPositive(calib.deltaRel, None) == MinPositive(calib.deltaRel[i..], minV)
        {
          if calib.deltaRel[i] > 0.0 {
            minV := Some(if minV.Some? then Min(minV.value, calib.deltaRel[i]) else calib.deltaRel[i]);
          }
          assert calib.deltaRel[i..][1..] == calib.deltaRel[i + 1..];
        }
        if minV.Some? {
          deltaBaseline := minV.value;
        }
      }
      newA := ComputeAssignment(ladderLen, calib);
      var changed := newA != assignment;
      assignment := newA;
      delta := if changed then 1 else 0;
    }
  }

  ghost predicate AllPositive(s: seq<Weighted>, l: nat) {
    forall i :: 0 <= i < |s| ==> s[i].w > 0.0 && 1 <= s[i].level <= l
  }

  /** Recency weights of an exponential are positive. */
  lemma {:induction false} CutWeightsPositive(records: seq<DidsRecord>, n: nat, j: nat, l: nat, halfLife: real,
                                              num: Numerics)
    requires n <= |records| && l >= 1
    requires forall y: real :: num.exp(y) > 0.0
    ensures AllPositive(CutLevels(records, n, j, l, halfLife, num), l)
  {
    hide RecencyWeight;
    if n > 0 {
      CutWeightsPositive(records, n - 1, j, l, halfLife, num);
      RecencyWeightPositive(|records| - n, halfLife, num);
    }
  }

  lemma RecencyWeightPositive(age: nat, halfLife: real, num: Numerics)
    requires forall y: real :: num.exp(y) > 0.0
    ensures RecencyWeight(age, halfLife, num) > 0.0
  {
  }

  lemma {:induction false} PositiveTotal(s: seq<Weighted>, l: nat)
    requires AllPositive(s, l)
    ensures TotalWeight(s) >= 0.0 && (s != [] ==> TotalWeight(s) > 0.0)
  {
    if s != [] {
      PositiveTotal(s[1..], l);
    }
  }

  lemma NoCutsNoEvidence()
    ensures EffectiveSampleSize([]) == 0.0
  {
  }

  /** For every history, the base level is one on thin evidence; otherwise it is the lowest level at which
      the recency-weighted cuts of the constraint reach four fifths of their weight, except that a lowest level of one
      needs three times the evidence. The clamps and the fallback of the quantile are never needed. */
  lemma BaseLevelOfHistory(records: seq<DidsRecord>, j: nat, l: nat, num: Numerics) returns (level: nat)
    requires l >= 1 && forall y: real :: num.exp(y) > 0.0
    ensures var cuts := CutLevels(records, |records|, j, l, HalfLife(|records|), num);
      && (EffectiveSampleSize(cuts) < MIN_EFFECTIVE ==> BaseLevel(cuts, l) == 1)
      && (EffectiveSampleSize(cuts) >= MIN_EFFECTIVE ==>
            && IsLowestReaching(cuts, 0.8 * TotalWeight(cuts), level) && 1 <= level <= l
            && BaseLevel(cuts, l) == if level == 1 && EffectiveSampleSize(cuts) < 18.0 then MinInt(2, l) else level)
  {
    hide EffectiveSampleSize, QuantileOfWeighted, CutLevels, HalfLife, Share;
    var cuts := CutLevels(records, |records|, j, l, HalfLife(|records|), num);
    level := 1;
    CutWeightsPositive(records, |records|, j, l, HalfLife(|records|), num);
    PositiveTotal(cuts, l);
    NoCutsNoEvidence();
    if EffectiveSampleSize(cuts) >= MIN_EFFECTIVE {
      QuantileSpec(cuts, Q_CUT);
      FourFifths(TotalWeight(cuts));
      level := QuantileOfWeighted(cuts, Q_CUT).value;
    }
  }

  lemma FourFifths(total: real)
    ensures Share(Q_CUT, total) == 0.8 * total
  {
  }

  // ---------------------------------------------------------------- from audits to the assignment

  /** What the policy takes for evidence is what the audits counted: the truths that closed an audit of the
      constraint cut at the level, those of them that were feasible, and those that violated it. */
  lemma EvidenceIsCounted(c: DeltaKCalibrator, l: Calibration.Ledger, events: seq<Calibration.CalibEvent>, j: nat,
                          lvl: nat)
    requires c.shown == Calibration.BookedAll(l, events).counts
    requires j < |l.counts| && l.counts[j] == Calibration.NO_COUNTS
    ensures j < |c.State().auditNBy| && j < |c.State().falseInfeasNBy| && j < |c.State().confirmedNBy|
    ensures EvidenceAt(c.State(), j, lvl) == Evidence(
              |Calibration.Counting(l, events, Calibration.Audits, j, Some(lvl))|,
              |Calibration.Counting(l, events, Calibration.FalseAlarms, j, Some(lvl))|,
              |Calibration.Counting(l, events, Calibration.Confirmations, j, Some(lvl))|)
  {
    hide Calibration.Counting, Calibration.BookedAll;
    Calibration.LedgerCounts(l, events, Calibration.Audits, j, Some(lvl));
    Calibration.LedgerCounts(l, events, Calibration.FalseAlarms, j, Some(lvl));
    Calibration.LedgerCounts(l, events, Calibration.Confirmations, j, Some(lvl));
  }

  lemma OutcomesAreAudits(l: Calibration.Ledger, events: seq<Calibration.CalibEvent>, t: Calibration.Tally, j: nat,
                          lvl: nat)
    requires !t.Cuts?
    ensures |Calibration.Counting(l, events, t, j, Some(lvl))|
         <= |Calibration.Counting(l, events, Calibration.Audits, j, Some(lvl))|
  {
    var some, all := Calibration.Counting(l, events, t, j, Some(lvl)),
                     Calibration.Counting(l, events, Calibration.Audits, j, Some(lvl));
    forall i | i in some
      ensures i in all
    {
      assert Calibration.CountsAs(Calibration.BookedAll(l, events[..i]), events[i], t, j, Some(lvl));
    }
    SubsetSize(some, all);
  }

  lemma {:induction false} SubsetSize(a: set<nat>, b: set<nat>)
    requires a <= b
    ensures |a| <= |b|
  {
    if a != {} {
      var x :| x in a;
      SubsetSize(a - {x}, b - {x});
    }
  }

  /** From the events to the assignment: if, of enough audits of the constraint cut at a level, more than 1.15
      times the target rate turned out feasible, the constraint may not cut at that level or below. */
  lemma FalseAlarmsForbidCut(c: DeltaKCalibrator, l: Calibration.Ledger, events: seq<Calibration.CalibEvent>, j: nat,
                             lvl: nat, cuts: seq<Weighted>, len: nat, baseline: real, num: Numerics)
    requires IsSqrt(num.sqrt) && lvl + 2 <= len
    requires c.shown == Calibration.BookedAll(l, events).counts
    requires j < |l.counts| && l.counts[j] == Calibration.NO_COUNTS
    requires var audits, falses := |Calibration.Counting(l, events, Calibration.Audits, j, Some(lvl))|,
                                   |Calibration.Counting(l, events, Calibration.FalseAlarms, j, Some(lvl))|;
      audits >= MaxInt(c.dcfg.minAudits, 1)
      && (falses as real) > TargetRate(c.dcfg.targetFalse) * 1.15 * (audits as real)
    ensures AssignmentOf(cuts, c.State(), j, len, baseline, num) >= lvl + 2
  {
    hide AssignmentOf, EvidenceAt, Calibration.Counting, Calibration.BookedAll, TargetRate;
    EvidenceIsCounted(c, l, events, j, lvl);
    OutcomesAreAudits(l, events, Calibration.FalseAlarms, j, lvl);
    OutcomesAreAudits(l, events, Calibration.Confirmations, j, lvl);
    BadRateForbidsCut(cuts, c.State(), j, len, lvl, baseline, num);
  }

  /** A recorded result counts as a cut of `j` exactly when it is one. */
  lemma TagNamesCut(r: JobResult, j: nat)
    ensures TagOf(r) == (EarlyInfeasibleTag, Some(j)) <==> r.EarlyInfeasible? && r.violatedJ == j
  {
  }

  /** The baseline follows the smallest positive slack, as long as the first slack is positive. */
  lemma {:induction false} SmallestPositive(deltas: seq<real>, start: Option<real>)
    requires start.Some? ==> start.value > 0.0
    ensures var m := MinPositive(deltas, start);
      && (m.None? <==> start.None? && forall i :: 0 <= i < |deltas| ==> deltas[i] <= 0.0)
      && (m.Some? ==> m.value > 0.0 && (m == start || m.value in deltas)
                      && (start.Some? ==> m.value <= start.value)
                      && forall i :: 0 <= i < |deltas| && deltas[i] > 0.0 ==> m.value <= deltas[i])
  {
    if deltas != [] {
      var d := deltas[0];
      SmallestPositive(deltas[1..], if d > 0.0 then Some(if start.Some? then Min(start.value, d) else d) else start);
    }
  }

  /** The history keeps its latest records. */
  lemma HistoryKeepsLatest(records: seq<DidsRecord>, r: DidsRecord, cap: nat)
    requires cap >= 1
    ensures var all, kept := records + [r], Recent(records + [r], cap);
      |kept| == MinInt(|all|, cap) && kept == all[|all| - |kept|..] && kept[|kept| - 1] == r
  {
  }
}
