/** Monte-Carlo estimation: one-pass Welford accumulators refine the two-pass statistics. */
module Estimation {
  import opened Types
  import opened Arithmetic

  /** A floating-point number, seen through exact arithmetic. */
  datatype F64 = Finite(r: real) | NonFinite

  /** The black box: deterministic functions of their arguments. */
  datatype Evaluator = Evaluator(
    numObjectives: nat,
    numConstraints: nat,
    mcSample: (seq<real>, Phi, Env, nat) -> (seq<F64>, seq<F64>),
    solverBias: (seq<real>, nat, Env) -> (seq<F64>, seq<F64>),
    cheapConstraints: (seq<real>, Env) -> bool)

  // ---------------------------------------------------------------- two-pass statistics

  function Sum(s: seq<real>): real {
    if s == [] then 0.0 else Sum(s[..|s| - 1]) + s[|s| - 1]
  }

  /** The sum of squared deviations from `c`. */
  function SqDev(s: seq<real>, c: real): real {
    if s == [] then 0.0 else SqDev(s[..|s| - 1], c) + (s[|s| - 1] - c) * (s[|s| - 1] - c)
  }

  function Mean(s: seq<real>): real {
    if s == [] then 0.0 else Sum(s) / (|s| as real)
  }

  function StdErr(s: seq<real>, sqrt: real -> real): real {
    if |s| < 2 then 0.0
    else sqrt(SqDev(s, Mean(s)) / ((|s| - 1) as real) / (|s| as real))
  }

  lemma {:induction false} SqDevNonNegative(s: seq<real>, c: real)
    ensures SqDev(s, c) >= 0.0
  {
    if s != [] {
      SqDevNonNegative(s[..|s| - 1], c);
      SquareNonNegative(s[|s| - 1] - c);
    }
  }

  lemma Unsnoc(s: seq<real>, c: real)
    ensures s == [] ==> Sum(s) == 0.0 && SqDev(s, c) == 0.0
    ensures s != [] ==>
      && Sum(s) == Sum(s[..|s| - 1]) + s[|s| - 1]
      && SqDev(s, c) == SqDev(s[..|s| - 1], c) + (s[|s| - 1] - c) * (s[|s| - 1] - c)
  {
  }

  lemma Snoc(s: seq<real>, x: real, c: real)
    ensures Sum(s + [x]) == Sum(s) + x
    ensures SqDev(s + [x], c) == SqDev(s, c) + (x - c) * (x - c)
  {
    var t := s + [x];
    assert t[..|t| - 1] == s && t[|t| - 1] == x;
  }

  /** Moving the reference point of the squared deviations. */
  lemma {:induction false} SqDevShift(s: seq<real>, c: real, e: real)
    ensures SqDev(s, e)
         == SqDev(s, c) + 2.0 * (c - e) * (Sum(s) - (|s| as real) * c) + (|s| as real) * ((c - e) * (c - e))
  {
    hide *;
    Unsnoc(s, c);
    Unsnoc(s, e);
    if s != [] {
      var t, x := s[..|s| - 1], s[|s| - 1];
      SqDevShift(t, c, e);
      ShiftOne(x, c, e, Sum(t), |t| as real, SqDev(t, c), SqDev(t, e));
    }
  }

  lemma ShiftOne(x: real, c: real, e: real, sum: real, n: real, devC: real, devE: real)
    requires devE == devC + 2.0 * (c - e) * (sum - n * c) + n * ((c - e) * (c - e))
    ensures devE + (x - e) * (x - e)
         == devC + (x - c) * (x - c) + 2.0 * (c - e) * (sum + x - (n + 1.0) * c) + (n + 1.0) * ((c - e) * (c - e))
  {
    var d := c - e;
    assert (x - e) * (x - e) == (x - c) * (x - c) + 2.0 * d * (x - c) + d * d;
  }

  /** The Welford step, on the statistics themselves. */
  lemma PushKeepsStatistics(s: seq<real>, x: real, mean: real, m2: real, mean': real)
    requires mean * (|s| as real) == Sum(s) && m2 == SqDev(s, mean)
    requires mean' == mean + (x - mean) / ((|s| + 1) as real)
    ensures mean' * ((|s| + 1) as real) == Sum(s + [x])
    ensures m2 + (x - mean) * (x - mean') == SqDev(s + [x], mean')
  {
    hide *;
    var n := |s| as real;
    var q := (x - mean) / (n + 1.0);
    Snoc(s, x, mean');
    DivTimes(x - mean, n + 1.0);
    SqDevShift(s, mean, mean');
    PushAlgebra(n, x, mean, q, mean', Sum(s), SqDev(s, mean), SqDev(s, mean'));
  }

  lemma PushAlgebra(n: real, x: real, mean: real, q: real, mean': real, sum: real, dev: real, dev': real)
    requires q * (n + 1.0) == x - mean && mean * n == sum && mean' == mean + q
    requires dev' == dev + 2.0 * (mean - mean') * (sum - n * mean) + n * ((mean - mean') * (mean - mean'))
    ensures mean' * (n + 1.0) == sum + x
    ensures dev + (x - mean) * (x - mean') == dev' + (x - mean') * (x - mean')
  {
    assert mean' * (n + 1.0) == mean * n + mean + q * (n + 1.0);
    assert sum - n * mean == 0.0;
    assert dev' == dev + n * (q * q);
    var g := q * n;
    assert x - mean' == g && x - mean == g + q;
    assert n * (q * q) == q * g;
    assert (g + q) * g == g * g + q * g;
  }

  /** The mean is determined by its defining equation. */
  lemma MeanUnique(s: seq<real>, m: real)
    requires m * (|s| as real) == Sum(s) && s != []
    ensures m == Mean(s)
  {
    TimesDiv(m, |s| as real);
  }

  // ---------------------------------------------------------------- the accumulator

  class Welford {
    var n: nat
    var mean: real
    var m2: real
    ghost var samples: seq<real>

    ghost predicate Valid()
      reads this
    {
      && n == |samples|
      && mean * (n as real) == Sum(samples)
      && m2 == SqDev(samples, mean)
      && (n == 0 ==> mean == 0.0)
    }

    constructor ()
      ensures Valid() && samples == []
    {
      n, mean, m2, samples := 0, 0.0, 0.0, [];
      new;
      Unsnoc(samples, mean);
      assert mean * (n as real) == 0.0;
    }

    method Push(x: real)
      requires Valid()
      modifies this
      ensures Valid() && samples == old(samples) + [x]
    {
      hide Sum, SqDev;
      n := n + 1;
      var delta := x - mean;
      mean := mean + delta / (n as real);
      var delta2 := x - mean;
      m2 := m2 + delta * delta2;
      PushKeepsStatistics(samples, x, old(mean), old(m2), mean);
      samples := samples + [x];
    }

    /** One pass has computed the two-pass mean and a non-negative sum of squared deviations. */
    lemma RefinesTwoPass()
      requires Valid()
      ensures mean == Mean(samples)
      ensures m2 == SqDev(samples, Mean(samples)) && m2 >= 0.0
    {
      if n > 0 {
        MeanUnique(samples, mean);
      }
      SqDevNonNegative(samples, mean);
    }

    method Se(sqrt: real -> real) returns (r: real)
      requires Valid()
      ensures r == StdErr(samples, sqrt)
    {
      RefinesTwoPass();
      if n < 2 {
        return 0.0;
      }
      var variance := m2 / ((n - 1) as real);
      return sqrt(variance / (n as real));
    }
  }

  /** Standard errors are never negative. */
  lemma StdErrNonNegative(s: seq<real>, sqrt: real -> real)
    requires IsSqrt(sqrt)
    ensures StdErr(s, sqrt) >= 0.0
  {
    if |s| >= 2 {
      var dev := SqDev(s, Mean(s));
      SqDevNonNegative(s, Mean(s));
      QuotientNonNegative(dev, (|s| - 1) as real);
      QuotientNonNegative(dev / ((|s| - 1) as real), |s| as real);
    }
  }

  lemma QuotientNonNegative(a: real, b: real)
    requires a >= 0.0 && b > 0.0
    ensures a / b >= 0.0
  {
  }

  /** The square of the standard error, times n (n - 1), is the squared deviation of the samples from their
      mean; a single sample has none. */
  lemma StdErrSquared(s: seq<real>, sqrt: real -> real)
    requires IsSqrt(sqrt) && s != []
    ensures Mean(s) * (|s| as real) == Sum(s)
    ensures |s| == 1 ==> StdErr(s, sqrt) == 0.0
    ensures |s| > 1 ==> StdErr(s, sqrt) * StdErr(s, sqrt) * ((|s| as real) * ((|s| - 1) as real)) == SqDev(s, Mean(s))
  {
    hide SqDev, Sum;
    var n := |s| as real;
    DivTimes(Sum(s), n);
    if |s| > 1 {
      var dev := SqDev(s, Mean(s));
      SqDevNonNegative(s, Mean(s));
      QuotientNonNegative(dev, n - 1.0);
      QuotientNonNegative(dev / (n - 1.0), n);
      DivTimes(dev, n - 1.0);
      DivTimes(dev / (n - 1.0), n);
      BackTimes(dev / (n - 1.0) / n, dev / (n - 1.0), dev, n);
    }
  }

  lemma BackTimes(v: real, u: real, dev: real, n: real)
    requires v * n == u && u * (n - 1.0) == dev
    ensures v * (n * (n - 1.0)) == dev
  {
    MulAssoc(v, n, n - 1.0);
  }

  // ---------------------------------------------------------------- one evaluation

  function SampleCount(phi: Phi): nat {
    MaxInt(phi.smc, 1)
  }

  /** Sample `k` of objective `i`; a missing objective counts as infinite. */
  function ObjectiveSample(ev: Evaluator, x: seq<real>, phi: Phi, env: Env, i: nat, k: nat): F64 {
    GetOr(ev.mcSample(x, phi, env, k).0, i, NonFinite)
  }

  /** Sample `k` of constraint `j`; a missing constraint counts as zero. */
  function ConstraintSample(ev: Evaluator, x: seq<real>, phi: Phi, env: Env, j: nat, k: nat): F64 {
    GetOr(ev.mcSample(x, phi, env, k).1, j, Finite(0.0))
  }

  predicate AllFinite(s: seq<F64>) {
    forall i :: 0 <= i < |s| ==> s[i].Finite?
  }

  function Value(a: F64): real {
    if a.Finite? then a.r else 0.0
  }

  /** Everything the evaluator reports for this point and fidelity is finite. */
  ghost predicate FiniteEvaluation(ev: Evaluator, x: seq<real>, phi: Phi, env: Env) {
    && (forall k :: 0 <= k < SampleCount(phi) ==> RowFinite(ev, x, phi, env, k))
    && AllFinite(ev.solverBias(x, phi.tau, env).0)
    && AllFinite(ev.solverBias(x, phi.tau, env).1)
  }

  /** The first `n` samples of objective `i`. */
  function ObjectiveColumn(ev: Evaluator, x: seq<real>, phi: Phi, env: Env, i: nat, n: nat): (r: seq<real>)
    ensures |r| == n
  {
    if n == 0 then []
    else ObjectiveColumn(ev, x, phi, env, i, n - 1) + [Value(ObjectiveSample(ev, x, phi, env, i, n - 1))]
  }

  /** The first `n` samples of constraint `j`. */
  function ConstraintColumn(ev: Evaluator, x: seq<real>, phi: Phi, env: Env, j: nat, n: nat): (r: seq<real>)
    ensures |r| == n
  {
    if n == 0 then []
    else ConstraintColumn(ev, x, phi, env, j, n - 1) + [Value(ConstraintSample(ev, x, phi, env, j, n - 1))]
  }

  function FHatSpec(ev: Evaluator, x: seq<real>, phi: Phi, env: Env, i: nat): real {
    Mean(ObjectiveColumn(ev, x, phi, env, i, SampleCount(phi)))
    + Value(GetOr(ev.solverBias(x, phi.tau, env).0, i, Finite(0.0)))
  }

  function CHatSpec(ev: Evaluator, x: seq<real>, phi: Phi, env: Env, j: nat): real {
    Mean(ConstraintColumn(ev, x, phi, env, j, SampleCount(phi)))
    + Value(GetOr(ev.solverBias(x, phi.tau, env).1, j, Finite(0.0)))
  }

  /** The two-pass reference: sample means plus solver bias, with standard errors; nothing when the
      evaluation is not finite. */
  ghost function Estimated(ev: Evaluator, sqrt: real -> real, x: seq<real>, phi: Phi, env: Env): Option<Estimates>
    requires ev.numObjectives >= 1
  {
    if !FiniteEvaluation(ev, x, phi, env) then None
    else
      var n := SampleCount(phi);
      Some(Estimates(
             seq(ev.numObjectives, i requires 0 <= i => FHatSpec(ev, x, phi, env, i)),
             seq(ev.numObjectives, i requires 0 <= i => StdErr(ObjectiveColumn(ev, x, phi, env, i, n), sqrt)),
             seq(ev.numConstraints, j requires 0 <= j => CHatSpec(ev, x, phi, env, j)),
             seq(ev.numConstraints, j requires 0 <= j => StdErr(ConstraintColumn(ev, x, phi, env, j, n), sqrt)),
             phi,
             phi.tau as real,
             ev.numObjectives))
  }

  lemma NotFiniteIsNone(ev: Evaluator, sqrt: real -> real, x: seq<real>, phi: Phi, env: Env)
    requires ev.numObjectives >= 1
    ensures !FiniteEvaluation(ev, x, phi, env) ==> Estimated(ev, sqrt, x, phi, env) == None
  {
  }

  ghost predicate Separate(accs: seq<Welford>) {
    forall i, j :: 0 <= i < j < |accs| ==> accs[i] != accs[j]
  }

  method NewAccumulators(n: nat) returns (accs: seq<Welford>)
    ensures |accs| == n && Separate(accs)
    ensures forall i :: 0 <= i < n ==> fresh(accs[i]) && accs[i].Valid() && accs[i].samples == []
  {
    accs := [];
    for k := 0 to n
      invariant |accs| == k && Separate(accs)
      invariant forall i :: 0 <= i < k ==> fresh(accs[i]) && accs[i].Valid() && accs[i].samples == []
    {
      var w := new Welford();
      accs := accs + [w];
    }
  }

  /** Feeds one sample to every accumulator, stopping at the first one that is not finite. */
  method PushRow(accs: seq<Welford>, row: seq<F64>, missing: F64) returns (ok: bool)
    requires Separate(accs) && forall i :: 0 <= i < |accs| ==> accs[i].Valid()
    modifies accs
    ensures ok <==> forall i :: 0 <= i < |accs| ==> GetOr(row, i, missing).Finite?
    ensures ok ==> forall i :: 0 <= i < |accs| ==>
              accs[i].Valid() && accs[i].samples == old(accs[i].samples) + [Value(GetOr(row, i, missing))]
  {
    for i := 0 to |accs|
      invariant forall k :: 0 <= k < i ==> GetOr(row, k, missing).Finite?
      invariant forall k :: 0 <= k < i ==>
          accs[k].Valid() && accs[k].samples == old(accs[k].samples) + [Value(GetOr(row, k, missing))]
      invariant forall k :: i <= k < |accs| ==> accs[k].Valid() && accs[k].samples == old(accs[k].samples)
    {
      var v := GetOr(row, i, missing);
      if !v.Finite? {
        return false;
      }
      accs[i].Push(v.r);
    }
    return true;
  }

  /** Means plus bias, and standard errors, of finished accumulators. */
  method Summaries(accs: seq<Welford>, bias: seq<F64>, sqrt: real -> real) returns (hat: seq<real>, se: seq<real>)
    requires forall i :: 0 <= i < |accs| ==> accs[i].Valid()
    ensures |hat| == |se| == |accs|
    ensures forall i :: 0 <= i < |accs| ==> hat[i] == Mean(accs[i].samples) + Value(GetOr(bias, i, Finite(0.0)))
    ensures forall i :: 0 <= i < |accs| ==> se[i] == StdErr(accs[i].samples, sqrt)
  {
    hat, se := [], [];
    for i := 0 to |accs|
      invariant |hat| == |se| == i
      invariant forall k :: 0 <= k < i ==> hat[k] == Mean(accs[k].samples) + Value(GetOr(bias, k, Finite(0.0)))
      invariant forall k :: 0 <= k < i ==> se[k] == StdErr(accs[k].samples, sqrt)
    {
      accs[i].RefinesTwoPass();
      var s := accs[i].Se(sqrt);
      hat := hat + [accs[i].mean + Value(GetOr(bias, i, Finite(0.0)))];
      se := se + [s];
    }
  }

  ghost predicate RowFinite(ev: Evaluator, x: seq<real>, phi: Phi, env: Env, k: nat) {
    && (forall i :: 0 <= i < ev.numObjectives ==> ObjectiveSample(ev, x, phi, env, i, k).Finite?)
    && (forall j :: 0 <= j < ev.numConstraints ==> ConstraintSample(ev, x, phi, env, j, k).Finite?)
  }

  /** The accumulators have consumed the first `k` samples of every column. */
  ghost predicate Consumed(fAccs: seq<Welford>, cAccs: seq<Welford>,
                           ev: Evaluator, x: seq<real>, phi: Phi, env: Env, k: nat)
    reads fAccs, cAccs
  {
    && |fAccs| == ev.numObjectives && |cAccs| == ev.numConstraints
    && (forall i :: 0 <= i < |fAccs| ==>
          fAccs[i].Valid() && fAccs[i].samples == ObjectiveColumn(ev, x, phi, env, i, k))
    && (forall j :: 0 <= j < |cAccs| ==>
          cAccs[j].Valid() && cAccs[j].samples == ConstraintColumn(ev, x, phi, env, j, k))
  }

  ghost predicate Apart(fAccs: seq<Welford>, cAccs: seq<Welford>) {
    && Separate(fAccs) && Separate(cAccs)
    && forall i, j :: 0 <= i < |fAccs| && 0 <= j < |cAccs| ==> fAccs[i] != cAccs[j]
  }

  method TakeSample(fAccs: seq<Welford>, cAccs: seq<Welford>,
                    ev: Evaluator, x: seq<real>, phi: Phi, env: Env, k: nat) returns (ok: bool)
    requires Apart(fAccs, cAccs) && Consumed(fAccs, cAccs, ev, x, phi, env, k)
    modifies fAccs, cAccs
    ensures ok <==> RowFinite(ev, x, phi, env, k)
    ensures ok ==> Consumed(fAccs, cAccs, ev, x, phi, env, k + 1)
  {
    hide Sum, SqDev;
    var (fS, cS) := ev.mcSample(x, phi, env, k);
    ok := PushRow(fAccs, fS, NonFinite);
    if !ok {
      ghost var i: nat :| i < |fAccs| && !GetOr(fS, i, NonFinite).Finite?;
      assert !ObjectiveSample(ev, x, phi, env, i, k).Finite?;
      return;
    }
    ok := PushRow(cAccs, cS, Finite(0.0));
    if !ok {
      ghost var j: nat :| j < |cAccs| && !GetOr(cS, j, Finite(0.0)).Finite?;
      assert !ConstraintSample(ev, x, phi, env, j, k).Finite?;
    }
  }

  method NewColumns(ev: Evaluator, x: seq<real>, phi: Phi, env: Env) returns (fAccs: seq<Welford>, cAccs: seq<Welford>)
    ensures Apart(fAccs, cAccs) && fresh(fAccs) && fresh(cAccs)
    ensures Consumed(fAccs, cAccs, ev, x, phi, env, 0)
  {
    fAccs := NewAccumulators(ev.numObjectives);
    cAccs := NewAccumulators(ev.numConstraints);
  }

  /** Draws the samples in order, giving up at the first one that is not finite. */
  method TakeSamples(ev: Evaluator, x: seq<real>, phi: Phi, env: Env)
    returns (ok: bool, fAccs: seq<Welford>, cAccs: seq<Welford>)
    ensures ok <==> forall l :: 0 <= l < SampleCount(phi) ==> RowFinite(ev, x, phi, env, l)
    ensures ok ==> Consumed(fAccs, cAccs, ev, x, phi, env, SampleCount(phi))
  {
    hide *;
    var s := SampleCount(phi);
    fAccs, cAccs := NewColumns(ev, x, phi, env);
    for k := 0 to s
      invariant Apart(fAccs, cAccs) && fresh(fAccs) && fresh(cAccs)
      invariant Consumed(fAccs, cAccs, ev, x, phi, env, k)
      invariant forall l :: 0 <= l < k ==> RowFinite(ev, x, phi, env, l)
    {
      ok := TakeSample(fAccs, cAccs, ev, x, phi, env, k);
      if !ok {
        return;
      }
    }
    ok := true;
  }

  method ComputeEstimates(ev: Evaluator, sqrt: real -> real, x: seq<real>, phi: Phi, env: Env)
    returns (est: Option<Estimates>)
    requires ev.numObjectives >= 1
    ensures est == Estimated(ev, sqrt, x, phi, env)
  {
    hide Estimated, RowFinite, Consumed, SampleCount;
    NotFiniteIsNone(ev, sqrt, x, phi, env);
    var ok, fAccs, cAccs := TakeSamples(ev, x, phi, env);
    if !ok {
      return None;
    }
    var (fb, cb) := ev.solverBias(x, phi.tau, env);
    if !AllFinite(fb) || !AllFinite(cb) {
      return None;
    }
    est := Assemble(fAccs, cAccs, fb, cb, ev, sqrt, x, phi, env);
  }

  /** The finished columns of a finite evaluation give the reference estimates. */
  method Assemble(fAccs: seq<Welford>, cAccs: seq<Welford>, fb: seq<F64>, cb: seq<F64>,
                  ev: Evaluator, sqrt: real -> real, x: seq<real>, phi: Phi, env: Env)
    returns (est: Option<Estimates>)
    requires ev.numObjectives >= 1 && FiniteEvaluation(ev, x, phi, env)
    requires (fb, cb) == ev.solverBias(x, phi.tau, env)
    requires Consumed(fAccs, cAccs, ev, x, phi, env, SampleCount(phi))
    ensures est == Estimated(ev, sqrt, x, phi, env)
  {
    hide Mean, StdErr, ObjectiveColumn, ConstraintColumn, SampleCount;
    var n := SampleCount(phi);
    var fHat, fSe := Summaries(fAccs, fb, sqrt);
    var cHat, cSe := Summaries(cAccs, cb, sqrt);
    assert fHat == seq(ev.numObjectives, i requires 0 <= i => FHatSpec(ev, x, phi, env, i));
    assert fSe == seq(ev.numObjectives, i requires 0 <= i => StdErr(ObjectiveColumn(ev, x, phi, env, i, n), sqrt));
    assert cHat == seq(ev.numConstraints, j requires 0 <= j => CHatSpec(ev, x, phi, env, j));
    assert cSe == seq(ev.numConstraints, j requires 0 <= j => StdErr(ConstraintColumn(ev, x, phi, env, j, n), sqrt));
    est := Some(Estimates(fHat, fSe, cHat, cSe, phi, phi.tau as real, ev.numObjectives));
  }

  /** Sample `k` of a column. */
  lemma {:induction false} ColumnsAre(ev: Evaluator, x: seq<real>, phi: Phi, env: Env, i: nat, n: nat, k: nat)
    requires k < n
    ensures ObjectiveColumn(ev, x, phi, env, i, n)[k] == Value(ObjectiveSample(ev, x, phi, env, i, k))
    ensures ConstraintColumn(ev, x, phi, env, i, n)[k] == Value(ConstraintSample(ev, x, phi, env, i, k))
  {
    if k < n - 1 {
      ColumnsAre(ev, x, phi, env, i, n - 1, k);
    }
  }

  /** What an estimate means: objective `i` is the bias of the solver at this tolerance plus the mean of the
      samples, as many as the fidelity asks for (at least one), each the evaluator's own; the square of its
      standard error, times n (n - 1), is their squared deviation. */
  lemma ObjectiveMeans(ev: Evaluator, sqrt: real -> real, x: seq<real>, phi: Phi, env: Env, i: nat)
    returns (samples: seq<real>)
    requires IsSqrt(sqrt) && ev.numObjectives >= 1 && i < ev.numObjectives
    requires Estimated(ev, sqrt, x, phi, env).Some?
    ensures var e, n := Estimated(ev, sqrt, x, phi, env).value, if phi.smc == 0 then 1 else phi.smc;
      && e.phi == phi && e.tauScale == phi.tau as real && |e.fHat| == |e.fSe| == ev.numObjectives
      && |samples| == n && n >= 1
      && (forall k :: 0 <= k < n ==>
            var row := ev.mcSample(x, phi, env, k).0; i < |row| && row[i] == Finite(samples[k]))
      && (e.fHat[i] - Value(GetOr(ev.solverBias(x, phi.tau, env).0, i, Finite(0.0)))) * (n as real) == Sum(samples)
      && (n == 1 ==> e.fSe[i] == 0.0)
      && (n > 1 ==> e.fSe[i] * e.fSe[i] * ((n as real) * ((n - 1) as real)) == SqDev(samples, Mean(samples)))
  {
    hide Mean, StdErr, Sum, SqDev, ObjectiveColumn;
    var n := SampleCount(phi);
    samples := ObjectiveColumn(ev, x, phi, env, i, n);
    StdErrSquared(samples, sqrt);
    forall k | 0 <= k < n
      ensures var row := ev.mcSample(x, phi, env, k).0; i < |row| && row[i] == Finite(samples[k])
    {
      ColumnsAre(ev, x, phi, env, i, n, k);
      assert RowFinite(ev, x, phi, env, k);
    }
  }

  /** The same of constraint `j`; a constraint missing from a sample counts as zero there. */
  lemma ConstraintMeans(ev: Evaluator, sqrt: real -> real, x: seq<real>, phi: Phi, env: Env, j: nat)
    returns (samples: seq<real>)
    requires IsSqrt(sqrt) && ev.numObjectives >= 1 && j < ev.numConstraints
    requires Estimated(ev, sqrt, x, phi, env).Some?
    ensures var e, n := Estimated(ev, sqrt, x, phi, env).value, if phi.smc == 0 then 1 else phi.smc;
      && |e.cHat| == |e.cSe| == ev.numConstraints && |samples| == n && n >= 1
      && (forall k :: 0 <= k < n ==>
            var row := ev.mcSample(x, phi, env, k).1;
            if j < |row| then row[j] == Finite(samples[k]) else samples[k] == 0.0)
      && (e.cHat[j] - Value(GetOr(ev.solverBias(x, phi.tau, env).1, j, Finite(0.0)))) * (n as real) == Sum(samples)
      && (n == 1 ==> e.cSe[j] == 0.0)
      && (n > 1 ==> e.cSe[j] * e.cSe[j] * ((n as real) * ((n - 1) as real)) == SqDev(samples, Mean(samples)))
  {
    hide Mean, StdErr, Sum, SqDev, ConstraintColumn;
    var n := SampleCount(phi);
    samples := ConstraintColumn(ev, x, phi, env, j, n);
    StdErrSquared(samples, sqrt);
    forall k | 0 <= k < n
      ensures var row := ev.mcSample(x, phi, env, k).1;
              if j < |row| then row[j] == Finite(samples[k]) else samples[k] == 0.0
    {
      ColumnsAre(ev, x, phi, env, j, n, k);
      assert RowFinite(ev, x, phi, env, k);
    }
  }
}
