/** Sliding sample windows and the smoothed quantiles learned from them. */
module Learning {
  import opened Types
  import opened Sorting
  import opened Arithmetic
  import opened Margin

  const EPS_CHANGE: real := 0.000000000000001

  datatype KConfig = KConfig(window: nat, minPairs: nat, quantile: real, eta: real)

  datatype KIntervalKey = KIntervalKey(tauLoose: nat, tauTight: nat, smc: nat)

  datatype KIntervalState = KIntervalState(
    key: KIntervalKey, kF: real, kC: seq<real>, sampleCountF: nat, sampleCountC: seq<nat>)

  /** All windows: global, per loose fidelity, and per tolerance interval; one stream for the
      objective and one per constraint. */
  datatype Windows = Windows(
    f: seq<real>,
    c: seq<seq<real>>,
    phiF: map<Phi, seq<real>>,
    phiC: map<Phi, seq<seq<real>>>,
    intF: map<KIntervalKey, seq<real>>,
    intC: map<KIntervalKey, seq<seq<real>>>)

  function EmptyWindows(m: nat): Windows {
    Windows([], Fill(m, []), map[], map[], map[], map[])
  }

  function Lookup<K, V>(m: map<K, V>, k: K, d: V): V {
    if k in m then m[k] else d
  }

  // ---------------------------------------------------------------- pushing samples

  /** The window after `v`: negative samples are dropped, the oldest ones make room. */
  function Pushed(w: seq<real>, v: real, cap: nat): seq<real> {
    if v < 0.0 then w
    else
      var t := w + [v];
      if |t| > MaxInt(cap, 1) then t[|t| - MaxInt(cap, 1)..] else t
  }

  function PushedAt(ws: seq<seq<real>>, j: nat, v: real, cap: nat): seq<seq<real>> {
    var t := if |ws| <= j then ws + Fill(j + 1 - |ws|, []) else ws;
    t[j := Pushed(t[j], v, cap)]
  }

  function WithF(w: Windows, phi: Phi, key: Option<KIntervalKey>, v: real, cap: nat): Windows {
    var a := w.(f := Pushed(w.f, v, cap), phiF := w.phiF[phi := Pushed(Lookup(w.phiF, phi, []), v, cap)]);
    match key
    case None => a
    case Some(k) => a.(intF := a.intF[k := Pushed(Lookup(a.intF, k, []), v, cap)])
  }

  function WithC(w: Windows, m: nat, phi: Phi, key: Option<KIntervalKey>, j: nat, v: real, cap: nat): Windows {
    var empty: seq<seq<real>> := Fill(m, []);
    var a := w.(c := if j < |w.c| then w.c[j := Pushed(w.c[j], v, cap)] else w.c,
                phiC := w.phiC[phi := PushedAt(Lookup(w.phiC, phi, empty), j, v, cap)]);
    match key
    case None => a
    case Some(k) => a.(intC := a.intC[k := PushedAt(Lookup(a.intC, k, empty), j, v, cap)])
  }

  /** The one-sided drop of constraint `j` from the loose to the tight estimate, per unit of scale. */
  function DropC(loose: Estimates, tight: Estimates, j: nat, scale: real): real
    requires scale > 0.0
  {
    Max(GetOr(loose.cHat, j, 0.0) - GetOr(tight.cHat, j, 0.0), 0.0) / scale
  }

  function DropF(loose: Estimates, tight: Estimates, scale: real): real
    requires scale > 0.0
  {
    Max(loose.FHatPrimary() - tight.FHatPrimary(), 0.0) / scale
  }

  function WithCs(w: Windows, m: nat, phi: Phi, key: Option<KIntervalKey>,
                  loose: Estimates, tight: Estimates, scale: real, cap: nat, n: nat): Windows
    requires scale > 0.0
  {
    if n == 0 then w
    else
      WithC(WithCs(w, m, phi, key, loose, tight, scale, cap, n - 1), m, phi, key, n - 1,
            DropC(loose, tight, n - 1, scale), cap)
  }

  /** All streams after one comparison of a loose with a tighter estimate. */
  function Compared(w: Windows, m: nat, phi: Phi, key: Option<KIntervalKey>,
                    loose: Estimates, tight: Estimates, scale: real, cap: nat): Windows
    requires scale > 0.0
  {
    WithCs(WithF(w, phi, key, DropF(loose, tight, scale), cap), m, phi, key, loose, tight, scale, cap, m)
  }

  /** The largest sample of one comparison. */
  function LargestDrop(loose: Estimates, tight: Estimates, scale: real, n: nat): real
    requires scale > 0.0
  {
    if n == 0 then DropF(loose, tight, scale)
    else Max(LargestDrop(loose, tight, scale, n - 1), DropC(loose, tight, n - 1, scale))
  }

  /** The drop is the least bias bound, not negative, that covers the comparison: taken times the scale from
      the loose estimate, it reaches down to the tight one. */
  lemma DropsCover(loose: Estimates, tight: Estimates, j: nat, scale: real, bound: real)
    requires scale > 0.0 && bound >= 0.0 && j < |loose.cHat| && j < |tight.cHat|
    ensures loose.cHat[j] - bound * scale <= tight.cHat[j] <==> bound >= DropC(loose, tight, j, scale)
    ensures loose.fHat[0] - bound * scale <= tight.fHat[0] <==> bound >= DropF(loose, tight, scale)
  {
    CoverIff(loose.cHat[j] - tight.cHat[j], scale, bound);
    CoverIff(loose.fHat[0] - tight.fHat[0], scale, bound);
  }

  lemma CoverIff(gap: real, scale: real, bound: real)
    requires scale > 0.0 && bound >= 0.0
    ensures gap <= bound * scale <==> bound >= Max(gap, 0.0) / scale
  {
    var q := Max(gap, 0.0) / scale;
    DivTimes(Max(gap, 0.0), scale);
    MulNonNegative(bound, scale);
    if bound >= q {
      MulMonotoneReal(q, bound, scale);
    } else {
      MulPositive(q - bound, scale);
      SubTimes(q, bound, scale);
    }
  }

  /** A window keeps its latest samples: with the new one at the end, up to the capacity. */
  lemma WindowKeepsLatest(w: seq<real>, v: real, cap: nat)
    requires cap >= 1
    ensures v < 0.0 ==> Pushed(w, v, cap) == w
    ensures v >= 0.0 ==>
              var t, r := w + [v], Pushed(w, v, cap);
              |r| == MinInt(|t|, cap) && r == t[|t| - |r|..] && r[|r| - 1] == v
  {
  }

  lemma {:induction false} ConstraintStreams(w: Windows, m: nat, phi: Phi, key: Option<KIntervalKey>,
                                             loose: Estimates, tight: Estimates, scale: real, cap: nat, n: nat)
    requires scale > 0.0 && n <= m && |w.c| == m && m > 0
    requires |Lookup(w.phiC, phi, Fill(m, []))| == m
    requires key.Some? ==> |Lookup(w.intC, key.value, Fill(m, []))| == m
    ensures var r := WithCs(w, m, phi, key, loose, tight, scale, cap, n);
      && r.f == w.f && r.phiF == w.phiF && r.intF == w.intF
      && |r.c| == m && |Lookup(r.phiC, phi, Fill(m, []))| == m
      && (key.Some? ==> |Lookup(r.intC, key.value, Fill(m, []))| == m)
      && (forall p :: p != phi ==> (p in r.phiC <==> p in w.phiC) && (p in w.phiC ==> r.phiC[p] == w.phiC[p]))
      && (forall k :: key != Some(k) ==> (k in r.intC <==> k in w.intC) && (k in w.intC ==> r.intC[k] == w.intC[k]))
      && forall j :: 0 <= j < m ==>
           var v := DropC(loose, tight, j, scale);
           && r.c[j] == (if j < n then Pushed(w.c[j], v, cap) else w.c[j])
           && Lookup(r.phiC, phi, Fill(m, []))[j]
              == (var was := Lookup(w.phiC, phi, Fill(m, []))[j]; if j < n then Pushed(was, v, cap) else was)
           && (key.Some? ==>
                 Lookup(r.intC, key.value, Fill(m, []))[j]
                 == (var was := Lookup(w.intC, key.value, Fill(m, []))[j];
                     if j < n then Pushed(was, v, cap) else was))
  {
    hide Pushed, DropC;
    if n > 0 {
      ConstraintStreams(w, m, phi, key, loose, tight, scale, cap, n - 1);
    }
  }

  // ---------------------------------------------------------------- window invariants

  /** At most `cap` samples, all between zero and `bound`. */
  ghost predicate WindowOk(w: seq<real>, cap: nat, bound: real) {
    |w| <= MaxInt(cap, 1) && forall i :: 0 <= i < |w| ==> 0.0 <= w[i] <= bound
  }

  ghost predicate NestedOk(ws: seq<seq<real>>, m: nat, cap: nat, bound: real) {
    |ws| == m && forall j :: 0 <= j < m ==> WindowOk(ws[j], cap, bound)
  }

  ghost predicate WindowsOk(w: Windows, m: nat, cap: nat, bound: real) {
    && WindowOk(w.f, cap, bound)
    && NestedOk(w.c, m, cap, bound)
    && (forall p :: p in w.phiF ==> WindowOk(w.phiF[p], cap, bound))
    && (forall p :: p in w.phiC ==> NestedOk(w.phiC[p], m, cap, bound))
    && (forall k :: k in w.intF ==> WindowOk(w.intF[k], cap, bound))
    && (forall k :: k in w.intC ==> NestedOk(w.intC[k], m, cap, bound))
  }

  lemma EmptyWindowsOk(m: nat, cap: nat, bound: real)
    ensures WindowsOk(EmptyWindows(m), m, cap, bound)
  {
  }

  lemma WindowsOkWeaken(w: Windows, m: nat, cap: nat, a: real, b: real)
    requires WindowsOk(w, m, cap, a) && a <= b
    ensures WindowsOk(w, m, cap, b)
  {
  }

  lemma PushedOk(w: seq<real>, v: real, cap: nat, bound: real)
    requires WindowOk(w, cap, bound) && v <= bound
    ensures WindowOk(Pushed(w, v, cap), cap, bound)
  {
  }

  lemma PushedAtOk(ws: seq<seq<real>>, m: nat, j: nat, v: real, cap: nat, bound: real)
    requires NestedOk(ws, m, cap, bound) && v <= bound && j < m
    ensures NestedOk(PushedAt(ws, j, v, cap), m, cap, bound)
  {
    hide WindowOk, Pushed;
    PushedOk(ws[j], v, cap, bound);
  }

  lemma EmptyOk(m: nat, cap: nat, bound: real)
    ensures WindowOk([], cap, bound)
    ensures NestedOk(Fill(m, []), m, cap, bound)
  {
  }

  lemma WithFKeepsWindows(w: Windows, m: nat, phi: Phi, key: Option<KIntervalKey>, v: real, cap: nat, bound: real)
    requires WindowsOk(w, m, cap, bound) && v <= bound
    ensures WindowsOk(WithF(w, phi, key, v, cap), m, cap, bound)
  {
    hide WindowOk, NestedOk, Pushed;
    EmptyOk(m, cap, bound);
    PushedOk(w.f, v, cap, bound);
    PushedOk(Lookup(w.phiF, phi, []), v, cap, bound);
    if key.Some? {
      PushedOk(Lookup(w.intF, key.value, []), v, cap, bound);
    }
  }

  lemma WithCKeepsWindows(w: Windows, m: nat, phi: Phi, key: Option<KIntervalKey>, j: nat, v: real, cap: nat,
                          bound: real)
    requires WindowsOk(w, m, cap, bound) && v <= bound && j < m
    ensures WindowsOk(WithC(w, m, phi, key, j, v, cap), m, cap, bound)
  {
    hide WindowOk, Pushed, PushedAt;
    var empty: seq<seq<real>> := Fill(m, []);
    EmptyOk(m, cap, bound);
    PushedOk(w.c[j], v, cap, bound);
    PushedAtOk(Lookup(w.phiC, phi, empty), m, j, v, cap, bound);
    if key.Some? {
      PushedAtOk(Lookup(w.intC, key.value, empty), m, j, v, cap, bound);
    }
  }

  lemma {:induction false} WithCsKeepsWindows(w: Windows, m: nat, phi: Phi, key: Option<KIntervalKey>,
                                              loose: Estimates, tight: Estimates, scale: real, cap: nat, n: nat,
                                              bound: real)
    requires scale > 0.0 && n <= m
    requires WindowsOk(w, m, cap, bound) && LargestDrop(loose, tight, scale, n) <= bound
    ensures WindowsOk(WithCs(w, m, phi, key, loose, tight, scale, cap, n), m, cap, bound)
  {
    if n > 0 {
      WithCsKeepsWindows(w, m, phi, key, loose, tight, scale, cap, n - 1, bound);
      WithCKeepsWindows(WithCs(w, m, phi, key, loose, tight, scale, cap, n - 1), m, phi, key, n - 1,
                        DropC(loose, tight, n - 1, scale), cap, bound);
    }
  }

  lemma {:induction false} LargestDropAboveF(loose: Estimates, tight: Estimates, scale: real, n: nat)
    requires scale > 0.0
    ensures DropF(loose, tight, scale) <= LargestDrop(loose, tight, scale, n)
  {
    if n > 0 {
      LargestDropAboveF(loose, tight, scale, n - 1);
    }
  }

  /** One comparison keeps every window within its capacity and its samples between zero and the
      largest sample seen. */
  lemma ComparedKeepsWindows(w: Windows, m: nat, phi: Phi, key: Option<KIntervalKey>,
                             loose: Estimates, tight: Estimates, scale: real, cap: nat, bound: real)
    requires scale > 0.0
    requires WindowsOk(w, m, cap, bound)
    ensures WindowsOk(Compared(w, m, phi, key, loose, tight, scale, cap), m, cap,
                      Max(bound, LargestDrop(loose, tight, scale, m)))
  {
    hide WindowsOk, WithF, WithC;
    var b := Max(bound, LargestDrop(loose, tight, scale, m));
    WindowsOkWeaken(w, m, cap, bound, b);
    LargestDropAboveF(loose, tight, scale, m);
    WithFKeepsWindows(w, m, phi, key, DropF(loose, tight, scale), cap, b);
    var v := WithF(w, phi, key, DropF(loose, tight, scale), cap);
    WithCsKeepsWindows(v, m, phi, key, loose, tight, scale, cap, m, b);
  }

  // ---------------------------------------------------------------- quantile and smoothing

  predicate LeReal(a: real, b: real) {
    a <= b
  }

  /** The rank of the quantile among `n` samples. */
  function QuantileRank(n: nat, q: real): (idx: nat)
    requires n > 0
    ensures idx < n
  {
    MinInt(MaxInt(Round(Clamp(q, 0.0, 1.0) * ((n - 1) as real)), 0), n - 1)
  }

  function QuantileOf(samples: seq<real>, q: real): Option<real> {
    if samples == [] then None else Some(Sort(samples, LeReal)[QuantileRank(|samples|, q)])
  }

  /** The smoothed quantile and whether it moved noticeably. */
  function Ema(prev: real, samples: seq<real>, k: KConfig): (real, bool) {
    if |samples| < MaxInt(k.minPairs, 1) then (prev, false)
    else
      match QuantileOf(samples, k.quantile)
      case Some(qv) =>
        var next := Max((1.0 - k.eta) * prev + k.eta * qv, 0.0);
        (next, Abs(next - prev) > EPS_CHANGE)
      case None => (prev, false)
  }

  /** How many samples lie below `v`. */
  function Below(s: seq<real>, v: real): nat {
    if s == [] then 0 else (if s[0] < v then 1 else 0) + Below(s[1..], v)
  }

  /** How many samples are at most `v`. */
  function AtMost(s: seq<real>, v: real): nat {
    if s == [] then 0 else (if s[0] <= v then 1 else 0) + AtMost(s[1..], v)
  }

  lemma {:induction false} InsertCounts(x: real, s: seq<real>, v: real)
    ensures Below(Insert(x, s, LeReal), v) == Below(s, v) + if x < v then 1 else 0
    ensures AtMost(Insert(x, s, LeReal), v) == AtMost(s, v) + if x <= v then 1 else 0
  {
    if s != [] && !LeReal(x, s[0]) {
      InsertCounts(x, s[1..], v);
      assert Insert(x, s, LeReal)[1..] == Insert(x, s[1..], LeReal);
    } else {
      assert ([x] + s)[1..] == s;
    }
  }

  lemma {:induction false} SortCounts(s: seq<real>, v: real)
    ensures Below(Sort(s, LeReal), v) == Below(s, v) && AtMost(Sort(s, LeReal), v) == AtMost(s, v)
  {
    if s != [] {
      SortCounts(s[1..], v);
      InsertCounts(s[0], Sort(s[1..], LeReal), v);
    }
  }

  lemma {:induction false} NoneBelow(s: seq<real>, v: real)
    requires forall i :: 0 <= i < |s| ==> v <= s[i]
    ensures Below(s, v) == 0
  {
    if s != [] {
      NoneBelow(s[1..], v);
    }
  }

  lemma {:induction false} RankInSorted(t: seq<real>, idx: nat)
    requires SortedBy(t, LeReal) && idx < |t|
    ensures Below(t, t[idx]) <= idx < AtMost(t, t[idx])
  {
    if idx == 0 {
      forall i | 0 <= i < |t|
        ensures t[0] <= t[i]
      {
        assert i > 0 ==> LeReal(t[0], t[i]);
      }
      NoneBelow(t, t[0]);
    } else {
      assert LeReal(t[0], t[idx]);
      assert SortedBy(t[1..], LeReal);
      RankInSorted(t[1..], idx - 1);
    }
  }

  lemma RealOrder()
    ensures TotalPreorder(LeReal)
  {
  }

  /** The quantile of a window is one of its samples, the one of the requested rank: at most that many
      samples lie below it, and more than that many do not exceed it. */
  lemma QuantileIsOrderStatistic(samples: seq<real>, q: real)
    requires samples != []
    ensures QuantileOf(samples, q).Some? && QuantileOf(samples, q).value in samples
    ensures Below(samples, QuantileOf(samples, q).value) <= QuantileRank(|samples|, q)
    ensures QuantileRank(|samples|, q) < AtMost(samples, QuantileOf(samples, q).value)
  {
    hide QuantileRank;
    var idx := QuantileRank(|samples|, q);
    SortMembers(samples, LeReal);
    RealOrder();
    SortSorts(samples, LeReal);
    RankInSorted(Sort(samples, LeReal), idx);
    SortCounts(samples, QuantileOf(samples, q).value);
    assert Sort(samples, LeReal)[idx] in Sort(samples, LeReal);
  }

  lemma Mix(a: real, b: real, eta: real, bound: real)
    requires 0.0 <= a <= bound && 0.0 <= b <= bound && 0.0 <= eta <= 1.0
    ensures 0.0 <= (1.0 - eta) * a + eta * b <= bound
  {
    MulNonNegative(1.0 - eta, a);
    MulNonNegative(eta, b);
    MulNonNegative(1.0 - eta, bound - a);
    MulNonNegative(eta, bound - b);
  }

  /** A smoothed quantile of samples below `bound` stays between zero and `bound`. */
  lemma EmaWithinBounds(prev: real, samples: seq<real>, k: KConfig, bound: real)
    requires 0.0 <= k.eta <= 1.0
    requires 0.0 <= prev <= bound
    requires forall i :: 0 <= i < |samples| ==> 0.0 <= samples[i] <= bound
    ensures 0.0 <= Ema(prev, samples, k).0 <= bound
  {
    if |samples| >= MaxInt(k.minPairs, 1) {
      QuantileIsOrderStatistic(samples, k.quantile);
      Mix(prev, QuantileOf(samples, k.quantile).value, k.eta, bound);
    }
  }

  // ---------------------------------------------------------------- bucket states

  /** One stored bound: replaced only when it moved noticeably. */
  function NextBound(prev: real, samples: seq<real>, k: KConfig): real {
    if Ema(prev, samples, k).1 then Ema(prev, samples, k).0 else prev
  }

  function Resized(s: seq<real>, n: nat): seq<real> {
    if |s| < n then s + Fill(n - |s|, 0.0) else s
  }

  /** The bounds of a bucket after its samples were taken in, constraint by constraint. */
  function NextBounds(prev: seq<real>, samples: seq<seq<real>>, k: KConfig): (r: seq<real>)
    ensures |r| == MaxInt(|prev|, |samples|)
    ensures forall j :: 0 <= j < |r| ==>
              r[j] == if j < |samples| then NextBound(GetOr(prev, j, 0.0), samples[j], k) else prev[j]
  {
    seq(MaxInt(|prev|, |samples|), j requires 0 <= j < MaxInt(|prev|, |samples|) =>
      if j < |samples| then NextBound(GetOr(prev, j, 0.0), samples[j], k) else prev[j])
  }

  /** Some stream of a bucket moves its bound noticeably. */
  predicate SomeMoves(prev: seq<real>, samples: seq<seq<real>>, k: KConfig) {
    exists j :: 0 <= j < |samples| && Ema(GetOr(prev, j, 0.0), samples[j], k).1
  }

  method ComputeNextBounds(prev: seq<real>, samples: seq<seq<real>>, k: KConfig) returns (kC: seq<real>, changed: bool)
    ensures kC == NextBounds(prev, samples, k)
    ensures changed <==> SomeMoves(prev, samples, k)
    ensures !changed ==> forall j :: 0 <= j < |samples| ==> kC[j] == GetOr(prev, j, 0.0)
  {
    hide Ema;
    kC := prev;
    changed := false;
    for j := 0 to |samples|
      invariant |kC| == MaxInt(|prev|, j)
      invariant forall i :: 0 <= i < |kC| ==>
          kC[i] == if i < j then NextBound(GetOr(prev, i, 0.0), samples[i], k) else prev[i]
      invariant changed <==> exists i :: 0 <= i < j && Ema(GetOr(prev, i, 0.0), samples[i], k).1
      invariant !changed ==> forall i :: 0 <= i < j ==> kC[i] == GetOr(prev, i, 0.0)
    {
      var (next, ch) := Ema(GetOr(kC, j, 0.0), samples[j], k);
      if j >= |kC| {
        kC := Resized(kC, j + 1);
      }
      if ch {
        kC := kC[j := next];
        changed := true;
      }
    }
  }

  function PhiState(phi: Phi, prev: seq<KByPhiState>, w: Windows, m: nat, k: KConfig): KByPhiState {
    var o := FindPhi(prev, phi);
    var kF := Ema(if o.Some? then o.value.kF else 0.0, Lookup(w.phiF, phi, []), k).0;
    var kC := Resized(if o.Some? then o.value.kC else Fill(m, 0.0), m);
    KByPhiState(phi, kF, if phi in w.phiC then NextBounds(kC, w.phiC[phi], k) else kC)
  }

  function PhisOf(states: seq<KByPhiState>): set<Phi> {
    set st | st in states :: st.phi
  }

  function KeysOf(states: seq<KIntervalState>): set<KIntervalKey> {
    set st | st in states :: st.key
  }

  function FindInterval(states: seq<KIntervalState>, key: KIntervalKey): (r: Option<KIntervalState>)
    ensures r.Some? ==> r.value in states && r.value.key == key
    ensures r.None? ==> forall st :: st in states ==> st.key != key
  {
    if states == [] then None
    else if states[0].key == key then Some(states[0])
    else FindInterval(states[1..], key)
  }

  function SampleCounts(samples: seq<seq<real>>, m: nat): (r: seq<nat>)
    ensures |r| == MaxInt(m, |samples|)
  {
    seq(MaxInt(m, |samples|), j requires 0 <= j => if j < |samples| then |samples[j]| else 0)
  }

  function IntervalState(key: KIntervalKey, prev: seq<KIntervalState>, w: Windows, m: nat, k: KConfig): KIntervalState {
    var o := FindInterval(prev, key);
    var kF := Ema(if o.Some? then o.value.kF else 0.0, Lookup(w.intF, key, []), k).0;
    var kC := Resized(if o.Some? then o.value.kC else Fill(m, 0.0), m);
    KIntervalState(key, kF,
                   if key in w.intC then NextBounds(kC, w.intC[key], k) else kC,
                   |Lookup(w.intF, key, [])|,
                   SampleCounts(Lookup(w.intC, key, []), m))
  }

  /** Taking in its samples moves some bound of the interval noticeably. */
  predicate IntervalMoves(key: KIntervalKey, prev: seq<KIntervalState>, w: Windows, m: nat, k: KConfig) {
    var o := FindInterval(prev, key);
    var kC := Resized(if o.Some? then o.value.kC else Fill(m, 0.0), m);
    || Ema(if o.Some? then o.value.kF else 0.0, Lookup(w.intF, key, []), k).1
    || (key in w.intC && SomeMoves(kC, w.intC[key], k))
  }

  /** Some of the intervals `states` moves. */
  predicate AnyIntervalMoves(states: seq<KIntervalState>, prev: seq<KIntervalState>, w: Windows, m: nat, k: KConfig) {
    exists i :: 0 <= i < |states| && IntervalMoves(states[i].key, prev, w, m, k)
  }

  ghost predicate BoundsOk(kC: seq<real>, m: nat, bound: real) {
    |kC| == m && forall j :: 0 <= j < m ==> 0.0 <= kC[j] <= bound
  }

  lemma NextBoundsOk(prev: seq<real>, samples: seq<seq<real>>, k: KConfig, m: nat, cap: nat, bound: real)
    requires 0.0 <= k.eta <= 1.0
    requires BoundsOk(prev, m, bound) && NestedOk(samples, m, cap, bound)
    ensures BoundsOk(NextBounds(prev, samples, k), m, bound)
  {
    forall j | 0 <= j < m
      ensures 0.0 <= NextBounds(prev, samples, k)[j] <= bound
    {
      EmaWithinBounds(prev[j], samples[j], k, bound);
    }
  }

  ghost predicate PhiStatesOk(states: seq<KByPhiState>, m: nat, bound: real) {
    forall i :: 0 <= i < |states| ==> 0.0 <= states[i].kF <= bound && BoundsOk(states[i].kC, m, bound)
  }

  ghost predicate IntervalStatesOk(states: seq<KIntervalState>, m: nat, bound: real) {
    forall i :: 0 <= i < |states| ==> 0.0 <= states[i].kF <= bound && BoundsOk(states[i].kC, m, bound)
  }

  lemma PhiStateOk(phi: Phi, prev: seq<KByPhiState>, w: Windows, m: nat, k: KConfig, bound: real)
    requires 0.0 <= k.eta <= 1.0 && bound >= 0.0
    requires PhiStatesOk(prev, m, bound) && WindowsOk(w, m, k.window, bound)
    ensures 0.0 <= PhiState(phi, prev, w, m, k).kF <= bound
    ensures BoundsOk(PhiState(phi, prev, w, m, k).kC, m, bound)
  {
    hide Ema;
    var o := FindPhi(prev, phi);
    EmaWithinBounds(if o.Some? then o.value.kF else 0.0, Lookup(w.phiF, phi, []), k, bound);
    if phi in w.phiC {
      NextBoundsOk(if o.Some? then o.value.kC else Fill(m, 0.0), w.phiC[phi], k, m, k.window, bound);
    }
  }

  lemma IntervalStateOk(key: KIntervalKey, prev: seq<KIntervalState>, w: Windows, m: nat, k: KConfig, bound: real)
    requires 0.0 <= k.eta <= 1.0 && bound >= 0.0
    requires IntervalStatesOk(prev, m, bound) && WindowsOk(w, m, k.window, bound)
    ensures 0.0 <= IntervalState(key, prev, w, m, k).kF <= bound
    ensures BoundsOk(IntervalState(key, prev, w, m, k).kC, m, bound)
  {
    hide Ema;
    var o := FindInterval(prev, key);
    EmaWithinBounds(if o.Some? then o.value.kF else 0.0, Lookup(w.intF, key, []), k, bound);
    if key in w.intC {
      NextBoundsOk(if o.Some? then o.value.kC else Fill(m, 0.0), w.intC[key], k, m, k.window, bound);
    }
  }

  predicate LePhi(a: Phi, b: Phi) {
    a.tau < b.tau || (a.tau == b.tau && a.smc <= b.smc)
  }

  predicate LeKey(a: KIntervalKey, b: KIntervalKey) {
    || a.tauLoose < b.tauLoose
    || (a.tauLoose == b.tauLoose && (a.tauTight < b.tauTight || (a.tauTight == b.tauTight && a.smc <= b.smc)))
  }

  /** The elements of a set in order. */
  method SortedKeys<K(==, !new)>(keys: set<K>, le: (K, K) -> bool) returns (r: seq<K>)
    requires TotalPreorder(le)
    ensures |r| == |keys| && SortedBy(r, le)
    ensures forall x :: x in r <==> x in keys
  {
    r := [];
    var rest := keys;
    while rest != {}
      invariant rest <= keys
      invariant |r| + |rest| == |keys| && SortedBy(r, le)
      invariant forall x :: x in r <==> x in keys && x !in rest
    {
      var k :| k in rest;
      InsertSorts(k, r, le);
      InsertPermutes(k, r, le);
      InsertMembers(k, r, le);
      r := Insert(k, r, le);
      rest := rest - {k};
    }
  }

  lemma InsertMembers<K>(k: K, s: seq<K>, le: (K, K) -> bool)
    ensures forall x :: x in Insert(k, s, le) <==> x == k || x in s
  {
    InsertPermutes(k, s, le);
    forall x
      ensures x in Insert(k, s, le) <==> x == k || x in s
    {
      assert x in Insert(k, s, le) <==> x in multiset(Insert(k, s, le));
      assert x in s <==> x in multiset(s);
    }
  }

  // ---------------------------------------------------------------- what the smoothing does

  /** The rank is the one nearest to the requested share of the ranks. */
  lemma RankIsNearest(n: nat, q: real)
    requires n > 0 && 0.0 <= q <= 1.0
    ensures -0.5 <= (QuantileRank(n, q) as real) - q * ((n - 1) as real) <= 0.5
  {
    MulNonNegative(q, (n - 1) as real);
    MulMonotoneReal(q, 1.0, (n - 1) as real);
  }

  /** With enough samples the bound moves the share `eta` of the way to their quantile; with fewer it stays. */
  lemma EmaMovesShare(prev: real, samples: seq<real>, k: KConfig)
    requires 0.0 <= k.eta <= 1.0 && prev >= 0.0 && forall i :: 0 <= i < |samples| ==> samples[i] >= 0.0
    ensures |samples| < MaxInt(k.minPairs, 1) ==> Ema(prev, samples, k) == (prev, false)
    ensures |samples| >= MaxInt(k.minPairs, 1) ==>
              var q := QuantileOf(samples, k.quantile);
              q.Some? && Ema(prev, samples, k).0 - prev == k.eta * (q.value - prev)
  {
    hide QuantileRank;
    if |samples| >= MaxInt(k.minPairs, 1) {
      QuantileIsOrderStatistic(samples, k.quantile);
      var q := QuantileOf(samples, k.quantile).value;
      MulNonNegative(1.0 - k.eta, prev);
      MulNonNegative(k.eta, q);
      assert (1.0 - k.eta) * prev + k.eta * q - prev == k.eta * (q - prev);
    }
  }

  /** The bounds of a fidelity and of an interval learn from their own streams, from zero on when they are new. */
  lemma BoundsLearnFromOwnStreams(phi: Phi, key: KIntervalKey, prev: seq<KByPhiState>, prevK: seq<KIntervalState>,
                                  w: Windows, m: nat, k: KConfig)
    requires forall a, b :: a in prev && b in prev && a.phi == b.phi ==> a == b
    requires forall a, b :: a in prevK && b in prevK && a.key == b.key ==> a == b
    ensures PhiState(phi, prev, w, m, k).phi == phi && IntervalState(key, prevK, w, m, k).key == key
    ensures forall st :: st in prev && st.phi == phi ==>
              PhiState(phi, prev, w, m, k).kF == Ema(st.kF, Lookup(w.phiF, phi, []), k).0
    ensures (forall st :: st in prev ==> st.phi != phi) ==>
              PhiState(phi, prev, w, m, k).kF == Ema(0.0, Lookup(w.phiF, phi, []), k).0
    ensures forall st :: st in prevK && st.key == key ==>
              IntervalState(key, prevK, w, m, k).kF == Ema(st.kF, Lookup(w.intF, key, []), k).0
    ensures (forall st :: st in prevK ==> st.key != key) ==>
              IntervalState(key, prevK, w, m, k).kF == Ema(0.0, Lookup(w.intF, key, []), k).0
    ensures forall j :: 0 <= j < m && phi in w.phiC && |w.phiC[phi]| == m ==>
              forall st :: st in prev && st.phi == phi && |st.kC| == m ==>
                PhiState(phi, prev, w, m, k).kC[j] == NextBound(st.kC[j], w.phiC[phi][j], k)
  {
    hide Ema, NextBound, FindPhi, FindInterval;
  }

  /** A stored bound moves only when the move is noticeable. */
  lemma NoticeableMoves(prev: real, samples: seq<real>, k: KConfig)
    ensures NextBound(prev, samples, k) == prev
            || (NextBound(prev, samples, k) == Ema(prev, samples, k).0
                && (NextBound(prev, samples, k) > prev + EPS_CHANGE || NextBound(prev, samples, k) < prev - EPS_CHANGE))
  {
    hide QuantileOf;
  }
}
