/** Anisotropic integer meshes: refinement, quantisation and axis-aligned polling. */
module Mesh {
  import opened Types
  import opened Arithmetic

  const I64_MAX: int := 0x7FFF_FFFF_FFFF_FFFF
  const I64_MIN: int := -0x8000_0000_0000_0000

  predicate IsI64(a: int) {
    I64_MIN <= a <= I64_MAX
  }

  function Saturate(a: int): (r: int)
    ensures IsI64(r)
  {
    if a < I64_MIN then I64_MIN else if a > I64_MAX then I64_MAX else a
  }

  /** One refinement of one multiplier. */
  function Refined(mm: int, mulMin: int, div: int): int {
    var lo := MaxInt(mulMin, 1);
    if mm > lo then MaxInt(mm / MaxInt(div, 2), lo) else mm
  }

  /** `xi` measured in mesh cells. */
  function CellIndex(xi: real, bs: real, mm: int): real
    requires bs > 0.0 && mm >= 1
  {
    var inv := 1.0 / bs;
    var z := xi * inv;
    z / (mm as real)
  }

  /** The mesh coordinate nearest to `xi`. */
  function Quantized(xi: real, bs: real, mm: int): int
    requires bs > 0.0
  {
    var m := MaxInt(mm, 1);
    Saturate(Round(CellIndex(xi, bs, m))) * m
  }

  function MeshToReal(x: XMesh, baseSteps: seq<real>): (r: seq<real>)
    ensures |r| == MinInt(|x|, |baseSteps|)
    ensures forall i :: 0 <= i < |r| ==> r[i] == (x[i] as real) * baseSteps[i]
  {
    seq(MinInt(|x|, |baseSteps|), i requires 0 <= i < MinInt(|x|, |baseSteps|) => (x[i] as real) * baseSteps[i])
  }

  ghost predicate OnMesh(x: XMesh, muls: seq<int>) {
    |x| == |muls| && forall i :: 0 <= i < |x| ==> muls[i] >= 1 && x[i] % muls[i] == 0
  }

  class AnisotropicMeshGeometry {
    const baseSteps: seq<real>
    var meshMuls: seq<int>
    const meshMulMin: int
    const refineDiv: int
    const pollStepMult: int

    ghost predicate Valid()
      reads this
    {
      && |baseSteps| == |meshMuls|
      && (forall i :: 0 <= i < |baseSteps| ==> baseSteps[i] > 0.0)
      && (forall i :: 0 <= i < |meshMuls| ==> meshMuls[i] >= 1)
    }

    constructor (baseSteps: seq<real>, mulInit: int, mulMin: int, div: int, pollMult: int)
      requires forall i :: 0 <= i < |baseSteps| ==> baseSteps[i] > 0.0
      ensures Valid()
      ensures this.baseSteps == baseSteps
      ensures meshMuls == Fill(|baseSteps|, MaxInt(mulInit, 1))
      ensures meshMulMin == MaxInt(mulMin, 1)
      ensures refineDiv == MaxInt(div, 2) && pollStepMult == MaxInt(pollMult, 1)
    {
      this.baseSteps := baseSteps;
      meshMuls := Fill(|baseSteps|, MaxInt(mulInit, 1));
      meshMulMin := MaxInt(mulMin, 1);
      refineDiv := MaxInt(div, 2);
      pollStepMult := MaxInt(pollMult, 1);
    }

    method Refine()
      requires Valid()
      modifies this`meshMuls
      ensures Valid()
      ensures meshMuls == RefinedAll(old(meshMuls), meshMulMin, refineDiv)
    {
      var div := MaxInt(refineDiv, 2);
      var minm := MaxInt(meshMulMin, 1);
      for i := 0 to |meshMuls|
        invariant |meshMuls| == |old(meshMuls)|
        invariant forall k :: 0 <= k < i ==> meshMuls[k] == Refined(old(meshMuls)[k], meshMulMin, refineDiv)
        invariant forall k :: i <= k < |meshMuls| ==> meshMuls[k] == old(meshMuls)[k]
      {
        if meshMuls[i] > minm {
          var next := meshMuls[i] / div;
          meshMuls := meshMuls[i := MaxInt(next, minm)];
        }
      }
    }

    function PollStepUnits(): (r: seq<int>)
      reads this
      ensures |r| == |meshMuls|
      ensures forall i :: 0 <= i < |r| ==> r[i] == meshMuls[i] * MaxInt(pollStepMult, 1)
    {
      seq(|meshMuls|, i requires 0 <= i < |meshMuls| reads this => meshMuls[i] * MaxInt(pollStepMult, 1))
    }

    method QuantizeRealToAnisoMesh(x: seq<real>) returns (q: XMesh)
      requires Valid() && |x| == |baseSteps|
      ensures q == QuantizedAll(x, baseSteps, meshMuls)
    {
      q := [];
      for i := 0 to |x|
        invariant |q| == i
        invariant forall k :: 0 <= k < i ==> q[k] == Quantized(x[k], baseSteps[k], meshMuls[k])
      {
        var bs := baseSteps[i];
        var mm := MaxInt(meshMuls[i], 1);
        var r := Round(CellIndex(x[i], bs, mm));
        q := q + [Saturate(r) * mm];
      }
    }
  }

  function RefinedAll(muls: seq<int>, mulMin: int, div: int): (r: seq<int>)
    ensures |r| == |muls|
    ensures forall i :: 0 <= i < |r| ==> r[i] == Refined(muls[i], mulMin, div)
  {
    seq(|muls|, i requires 0 <= i < |muls| => Refined(muls[i], mulMin, div))
  }

  function QuantizedAll(x: seq<real>, baseSteps: seq<real>, muls: seq<int>): (r: XMesh)
    requires |x| == |baseSteps| == |muls|
    requires forall i :: 0 <= i < |baseSteps| ==> baseSteps[i] > 0.0
    ensures |r| == |x|
    ensures forall i :: 0 <= i < |r| ==> r[i] == Quantized(x[i], baseSteps[i], muls[i])
  {
    seq(|x|, i requires 0 <= i < |x| => Quantized(x[i], baseSteps[i], muls[i]))
  }

  // ---------------------------------------------------------------- arithmetic

  lemma RoundIsNearest(z: real)
    ensures -0.5 <= (Round(z) as real) - z <= 0.5
  {
  }

  lemma RoundOfInt(n: int)
    ensures Round(n as real) == n
  {
  }

  lemma ScaleBound(d: real, s: real)
    requires -0.5 <= d <= 0.5 && s >= 0.0
    ensures -(s / 2.0) <= d * s <= s / 2.0
  {
    MulMonotoneReal(d, 0.5, s);
    MulMonotoneReal(-0.5, d, s);
  }

  // ---------------------------------------------------------------- quantisation

  /** The rounded mesh index of `xi` fits 64 bits, so the cast does not saturate. */
  predicate IndexFits(xi: real, bs: real, mm: int)
    requires bs > 0.0 && mm >= 1
  {
    IsI64(Round(CellIndex(xi, bs, mm)))
  }

  /** `CellIndex` many cells of size `mm * bs` make up `xi`. */
  lemma CellsMakeCoordinate(xi: real, bs: real, mm: int)
    requires bs > 0.0 && mm >= 1
    ensures CellIndex(xi, bs, mm) * ((mm as real) * bs) == xi
  {
    var inv, m := 1.0 / bs, mm as real;
    DivTimes(xi * inv, m);
    MulAssoc(xi * inv / m, m, bs);
    MulAssoc(xi, inv, bs);
    Inverse(bs);
  }

  lemma RoundedCells(w: real, r: int, bs: real, mm: int)
    requires bs > 0.0 && mm >= 1 && r == Round(w)
    ensures -((mm as real) * bs / 2.0) <= ((r * mm) as real) * bs - w * ((mm as real) * bs) <= (mm as real) * bs / 2.0
  {
    hide *;
    var cell := (mm as real) * bs;
    RoundIsNearest(w);
    MulPositive(mm as real, bs);
    ScaleBound((r as real) - w, cell);
    SubTimes(r as real, w, cell);
    assert ((r * mm) as real) == (r as real) * (mm as real);
    MulAssoc(r as real, mm as real, bs);
  }

  /** Quantisation lands on the mesh, and moves a coordinate by at most half a cell. */
  lemma QuantizedOnMeshWithinHalfCell(xi: real, bs: real, mm: int)
    requires bs > 0.0 && mm >= 1
    ensures Quantized(xi, bs, mm) % mm == 0
    ensures IndexFits(xi, bs, mm) ==>
              -((mm as real) * bs / 2.0) <= (Quantized(xi, bs, mm) as real) * bs - xi <= (mm as real) * bs / 2.0
  {
    hide CellIndex, Round;
    var w := CellIndex(xi, bs, mm);
    MultipleDivides(Saturate(Round(w)), mm);
    CellsMakeCoordinate(xi, bs, mm);
    RoundedCells(w, Round(w), bs, mm);
  }

  /** A point that is on the mesh already is its own quantisation. */
  lemma QuantizeIsIdentityOnMesh(x: XMesh, baseSteps: seq<real>, muls: seq<int>)
    requires OnMesh(x, muls) && |baseSteps| == |x|
    requires forall i :: 0 <= i < |x| ==> baseSteps[i] > 0.0 && IsI64(x[i])
    ensures QuantizedAll(MeshToReal(x, baseSteps), baseSteps, muls) == x
  {
    var r := MeshToReal(x, baseSteps);
    var q := QuantizedAll(r, baseSteps, muls);
    forall i | 0 <= i < |x|
      ensures q[i] == x[i]
    {
      QuantizeCoordinate(x[i], r[i], baseSteps[i], muls[i]);
    }
  }

  /** A multiple of the cell measures a whole number of cells. */
  lemma CellIndexOfMultiple(u: int, k: int, xi: real, bs: real, mm: int)
    requires bs > 0.0 && mm >= 1
    requires u == k * mm && xi == (u as real) * bs
    ensures CellIndex(xi, bs, mm) == k as real
  {
    MulAssoc(u as real, bs, 1.0 / bs);
    Inverse(bs);
    assert (u as real) == (k as real) * (mm as real);
    TimesDiv(k as real, mm as real);
  }

  lemma QuantizeCoordinate(u: int, xi: real, bs: real, mm: int)
    requires bs > 0.0 && mm >= 1 && u % mm == 0 && IsI64(u)
    requires xi == (u as real) * bs
    ensures Quantized(xi, bs, mm) == u
  {
    hide CellIndex, Round;
    var k := u / mm;
    QuotientTimes(u, mm);
    QuotientSmaller(u, mm);
    CellIndexOfMultiple(u, k, xi, bs, mm);
    RoundOfInt(k);
    assert Saturate(k) == k;
  }

  // ---------------------------------------------------------------- nested refinement

  /** Refining again and again always passes to a divisor. A caller can compute this. */
  predicate ChainNested(mm: int, mulMin: int, div: int)
    requires mm >= 1
    decreases mm
  {
    var next := Refined(mm, mulMin, div);
    RefinedShrinks(mm, mulMin, div);
    next == mm || (mm % next == 0 && ChainNested(next, mulMin, div))
  }

  lemma RefinedShrinks(mm: int, mulMin: int, div: int)
    requires mm >= 1
    ensures 1 <= Refined(mm, mulMin, div) <= mm
    ensures Refined(mm, mulMin, div) == mm <==> mm <= MaxInt(mulMin, 1)
  {
    HalfOrLess(mm, MaxInt(div, 2));
  }

  /** The multiplier after `n` refinements. */
  function RefinedTimes(mm: int, n: nat, mulMin: int, div: int): int {
    if n == 0 then mm else Refined(RefinedTimes(mm, n - 1, mulMin, div), mulMin, div)
  }

  /** The points of the mesh after `n` refinements are all on the mesh after `n + 1`. */
  ghost predicate NestedAt(mm: int, n: nat, mulMin: int, div: int) {
    var a, b := RefinedTimes(mm, n, mulMin, div), RefinedTimes(mm, n + 1, mulMin, div);
    a >= 1 && b >= 1 && forall x: int :: x % a == 0 ==> x % b == 0
  }

  ghost predicate AlwaysNested(mm: int, mulMin: int, div: int) {
    forall n: nat :: NestedAt(mm, n, mulMin, div)
  }

  lemma {:induction false} RefinedTimesShift(mm: int, n: nat, mulMin: int, div: int)
    ensures RefinedTimes(mm, n + 1, mulMin, div) == RefinedTimes(Refined(mm, mulMin, div), n, mulMin, div)
  {
    if n > 0 {
      RefinedTimesShift(mm, n - 1, mulMin, div);
    }
  }

  lemma {:induction false} ChainStaysNested(mm: int, n: nat, mulMin: int, div: int)
    requires mm >= 1 && ChainNested(mm, mulMin, div)
    ensures RefinedTimes(mm, n, mulMin, div) >= 1
    ensures ChainNested(RefinedTimes(mm, n, mulMin, div), mulMin, div)
  {
    if n > 0 {
      ChainStaysNested(mm, n - 1, mulMin, div);
      RefinedShrinks(RefinedTimes(mm, n - 1, mulMin, div), mulMin, div);
    }
  }

  lemma {:induction false} NestedImpliesChain(mm: int, mulMin: int, div: int)
    requires mm >= 1 && AlwaysNested(mm, mulMin, div)
    ensures ChainNested(mm, mulMin, div)
    decreases mm
  {
    var next := Refined(mm, mulMin, div);
    RefinedShrinks(mm, mulMin, div);
    if next != mm {
      MultipleDivides(1, mm);
      assert NestedAt(mm, 0, mulMin, div);
      assert mm % RefinedTimes(mm, 0 + 1, mulMin, div) == 0;
      forall n: nat
        ensures NestedAt(next, n, mulMin, div)
      {
        RefinedTimesShift(mm, n, mulMin, div);
        RefinedTimesShift(mm, n + 1, mulMin, div);
        assert NestedAt(mm, n + 1, mulMin, div);
      }
      NestedImpliesChain(next, mulMin, div);
    }
  }

  /** Every point of every mesh of the refinement sequence stays on all later meshes, exactly when
      each refinement passes to a divisor. */
  lemma NestedIff(mm: int, mulMin: int, div: int)
    requires mm >= 1
    ensures AlwaysNested(mm, mulMin, div) <==> ChainNested(mm, mulMin, div)
  {
    if ChainNested(mm, mulMin, div) {
      forall n: nat
        ensures NestedAt(mm, n, mulMin, div)
      {
        ChainStaysNested(mm, n, mulMin, div);
        ChainStaysNested(mm, n + 1, mulMin, div);
        var a, b := RefinedTimes(mm, n, mulMin, div), RefinedTimes(mm, n + 1, mulMin, div);
        if a != b {
          forall x: int | x % a == 0
            ensures x % b == 0
          {
            DivisorOfDivisor(x, a, b);
          }
        }
      }
    }
    if AlwaysNested(mm, mulMin, div) {
      NestedImpliesChain(mm, mulMin, div);
    }
  }

  /** A start that is not a product of the divisor loses points: 5 lies on the mesh of size 5, and the
      first refinement by 2 leaves it between two points of the mesh of size 2. */
  lemma NestingCanFail()
    ensures OnMesh([5], [5]) && RefinedAll([5], 1, 2) == [2] && !OnMesh([5], RefinedAll([5], 1, 2))
    ensures !AlwaysNested(5, 1, 2)
  {
    assert Refined(5, 1, 2) == 2;
    assert RefinedAll([5], 1, 2) == [2];
    assert [5][0] % [2][0] == 1;
    NestedIff(5, 1, 2);
  }

  lemma RefinedProduct(prev: int, mulMin: int, div: int)
    requires mulMin >= 1 && div >= 2 && prev >= mulMin
    ensures prev * div > prev
    ensures Refined(prev * div, mulMin, div) == prev && (prev * div) % prev == 0
  {
    MulMonotone(2, div, prev);
    MultipleDivides(prev, div);
    MultipleDivides(div, prev);
  }

  lemma PowerStep(mulMin: int, div: nat, k: nat)
    requires k > 0
    ensures mulMin * Pow(div, k) == (mulMin * Pow(div, k - 1)) * div
  {
  }

  /** Starting from `min * div^k`, refinement is nested. */
  lemma {:induction false} PowerStartIsNested(mulMin: int, div: nat, k: nat)
    requires mulMin >= 1 && div >= 2
    ensures mulMin * Pow(div, k) >= mulMin
    ensures ChainNested(mulMin * Pow(div, k), mulMin, div)
  {
    if k > 0 {
      hide Pow, Refined;
      PowerStartIsNested(mulMin, div, k - 1);
      PowerStep(mulMin, div, k);
      RefinedProduct(mulMin * Pow(div, k - 1), mulMin, div);
    } else {
      ProductWithOne(mulMin, div);
    }
  }

  lemma ProductWithOne(mulMin: int, div: nat)
    requires mulMin >= 1
    ensures mulMin * Pow(div, 0) == mulMin && ChainNested(mulMin, mulMin, div)
  {
  }

  ghost predicate AllNested(muls: seq<int>, mulMin: int, div: int) {
    forall i :: 0 <= i < |muls| ==> muls[i] >= 1 && ChainNested(muls[i], mulMin, div)
  }

  /** A refinement of a nested geometry keeps every mesh point on the mesh, and keeps it nested. */
  lemma RefineKeepsMesh(x: XMesh, muls: seq<int>, mulMin: int, div: int)
    requires AllNested(muls, mulMin, div) && OnMesh(x, muls)
    ensures OnMesh(x, RefinedAll(muls, mulMin, div))
  {
    var r := RefinedAll(muls, mulMin, div);
    forall i | 0 <= i < |x|
      ensures r[i] >= 1 && x[i] % r[i] == 0
    {
      RefinedShrinks(muls[i], mulMin, div);
      if r[i] != muls[i] {
        DivisorOfDivisor(x[i], muls[i], r[i]);
      }
    }
  }

  lemma RefineKeepsNested(muls: seq<int>, mulMin: int, div: int)
    requires AllNested(muls, mulMin, div)
    ensures AllNested(RefinedAll(muls, mulMin, div), mulMin, div)
  {
    forall i | 0 <= i < |muls|
      ensures var r := RefinedAll(muls, mulMin, div)[i]; r >= 1 && ChainNested(r, mulMin, div)
    {
      RefinedShrinks(muls[i], mulMin, div);
    }
  }

  /** The geometry built from a configuration is nested, if and only if its start is. */
  lemma BuiltGeometryNestedIff(dim: nat, mulInit: int, mulMin: int, div: int)
    ensures AllNested(Fill(dim, MaxInt(mulInit, 1)), MaxInt(mulMin, 1), MaxInt(div, 2))
       <==> dim == 0 || ChainNested(MaxInt(mulInit, 1), MaxInt(mulMin, 1), MaxInt(div, 2))
  {
    hide ChainNested;
    if dim > 0 {
      assert Fill(dim, MaxInt(mulInit, 1))[0] == MaxInt(mulInit, 1);
    }
  }

  /** A start that is the minimum times a power of the divisor builds a nested geometry. */
  lemma PowerGeometryIsNested(dim: nat, mulInit: int, mulMin: int, div: int, k: nat)
    requires MaxInt(mulInit, 1) == MaxInt(mulMin, 1) * Pow(MaxInt(div, 2), k)
    ensures AllNested(Fill(dim, MaxInt(mulInit, 1)), MaxInt(mulMin, 1), MaxInt(div, 2))
  {
    PowerStartIsNested(MaxInt(mulMin, 1), MaxInt(div, 2), k);
    BuiltGeometryNestedIff(dim, mulInit, mulMin, div);
  }

  lemma QuantizedAllOnMesh(x: seq<real>, baseSteps: seq<real>, muls: seq<int>)
    requires |x| == |baseSteps| == |muls|
    requires forall i :: 0 <= i < |baseSteps| ==> baseSteps[i] > 0.0 && muls[i] >= 1
    ensures OnMesh(QuantizedAll(x, baseSteps, muls), muls)
  {
    forall i | 0 <= i < |x|
      ensures QuantizedAll(x, baseSteps, muls)[i] % muls[i] == 0
    {
      QuantizedOnMeshWithinHalfCell(x[i], baseSteps[i], muls[i]);
    }
  }

  // ---------------------------------------------------------------- poll

  /** The `d`-th poll point: axis `d / 2`, upwards for even `d`, saturating at 64 bits. */
  function PollPoint(center: XMesh, steps: seq<int>, d: nat): (r: XMesh)
    requires d < 2 * |center|
    ensures |r| == |center|
  {
    var i := d / 2;
    var s := MaxInt(GetOr(steps, i, 1), 1);
    center[i := Saturate(if d % 2 == 0 then center[i] + s else center[i] - s)]
  }

  method GeneratePointsAniso(center: XMesh, steps: seq<int>) returns (out: seq<XMesh>)
    ensures |out| == 2 * |center|
    ensures forall d :: 0 <= d < |out| ==> out[d] == PollPoint(center, steps, d)
  {
    out := [];
    for i := 0 to |center|
      invariant |out| == 2 * i
      invariant forall d :: 0 <= d < |out| ==> out[d] == PollPoint(center, steps, d)
    {
      var s := MaxInt(GetOr(steps, i, 1), 1);
      var xp := center[i := Saturate(center[i] + s)];
      out := out + [xp];
      var xm := center[i := Saturate(center[i] - s)];
      out := out + [xm];
    }
  }

  /** Where poll point `d` moves its coordinate, before saturation. */
  function PollTarget(center: XMesh, steps: seq<int>, d: nat): int
    requires d < 2 * |center|
  {
    var s := MaxInt(GetOr(steps, d / 2, 1), 1);
    if d % 2 == 0 then center[d / 2] + s else center[d / 2] - s
  }

  /** The poll step stays within 64 bits, or the limit it is saturated to is a multiple of the mesh size. */
  predicate PollFits(center: XMesh, steps: seq<int>, muls: seq<int>, d: nat)
    requires d < 2 * |center|
  {
    IsI64(PollTarget(center, steps, d))
    || (d / 2 < |muls| && muls[d / 2] >= 1 && Saturate(PollTarget(center, steps, d)) % muls[d / 2] == 0)
  }

  /** A poll point of a mesh point lies on the mesh, if and only if its step fits. */
  lemma PollOnMeshIff(center: XMesh, muls: seq<int>, mult: int, steps: seq<int>, d: nat)
    requires OnMesh(center, muls) && mult >= 1
    requires |steps| == |muls| && forall i :: 0 <= i < |steps| ==> steps[i] == muls[i] * mult
    requires d < 2 * |center|
    ensures OnMesh(PollPoint(center, steps, d), muls) <==> PollFits(center, steps, muls, d)
  {
    var i := d / 2;
    assert muls[i] >= 1;
    assert steps[i] == mult * muls[i];
    MultipleDivides(mult, muls[i]);
    SumOfMultiples(center[i], steps[i], muls[i]);
    StepIsPositive(muls[i], mult);
    OnlyOneMoves(center, muls, i, Saturate(PollTarget(center, steps, d)));
  }

  lemma StepIsPositive(mul: int, mult: int)
    requires mul >= 1 && mult >= 1
    ensures mul * mult >= 1
  {
    MulMonotone(1, mult, mul);
  }

  lemma OnlyOneMoves(center: XMesh, muls: seq<int>, i: nat, v: int)
    requires OnMesh(center, muls) && i < |center|
    ensures OnMesh(center[i := v], muls) <==> v % muls[i] == 0
  {
    assert center[i := v][i] == v;
  }

  /** Saturation can leave the mesh: a step up from just below the largest 64-bit number ends there, an odd
      number on a mesh of size two. */
  lemma SaturationCanLeaveMesh()
    ensures OnMesh([I64_MAX - 1], [2]) && !PollFits([I64_MAX - 1], [2], [2], 0)
    ensures !OnMesh(PollPoint([I64_MAX - 1], [2], 0), [2])
  {
    PollOnMeshIff([I64_MAX - 1], [2], 1, [2], 0);
  }

  ghost function Dot(a: seq<real>, v: seq<real>): real
    requires |a| == |v|
  {
    if a == [] then 0.0 else a[0] * v[0] + Dot(a[1..], v[1..])
  }

  /** The real-space direction from `center` to a poll point. */
  ghost function Direction(p: XMesh, center: XMesh, baseSteps: seq<real>): (r: seq<real>)
    requires |p| == |center| == |baseSteps|
    ensures |r| == |p|
    ensures forall i :: 0 <= i < |p| ==> r[i] == ((p[i] - center[i]) as real) * baseSteps[i]
  {
    seq(|p|, i requires 0 <= i < |p| => ((p[i] - center[i]) as real) * baseSteps[i])
  }

  lemma {:induction false} DotOfAxis(a: seq<real>, v: seq<real>, i: nat)
    requires |a| == |v| && i < |a|
    requires forall k :: 0 <= k < |a| && k != i ==> a[k] == 0.0
    ensures Dot(a, v) == a[i] * v[i]
  {
    if i == 0 {
      DotOfZero(a[1..], v[1..]);
    } else {
      DotOfAxis(a[1..], v[1..], i - 1);
    }
  }

  lemma {:induction false} DotOfZero(a: seq<real>, v: seq<real>)
    requires |a| == |v|
    requires forall k :: 0 <= k < |a| ==> a[k] == 0.0
    ensures Dot(a, v) == 0.0
  {
    if a != [] {
      DotOfZero(a[1..], v[1..]);
    }
  }

  ghost predicate SomePollAscends(center: XMesh, steps: seq<int>, baseSteps: seq<real>, v: seq<real>)
    requires |center| == |baseSteps| == |v|
  {
    exists d :: 0 <= d < 2 * |center| && Dot(Direction(PollPoint(center, steps, d), center, baseSteps), v) > 0.0
  }

  ghost predicate PositivelySpans(center: XMesh, steps: seq<int>, baseSteps: seq<real>)
    requires |center| == |baseSteps|
  {
    forall v: seq<real> | |v| == |center| && exists i :: 0 <= i < |v| && v[i] != 0.0 ::
      SomePollAscends(center, steps, baseSteps, v)
  }

  lemma DirectionOffAxis(center: XMesh, steps: seq<int>, baseSteps: seq<real>, d: nat)
    requires |center| == |baseSteps| && d < 2 * |center|
    ensures forall k :: 0 <= k < |center| && k != d / 2 ==>
              Direction(PollPoint(center, steps, d), center, baseSteps)[k] == 0.0
  {
    var p := PollPoint(center, steps, d);
    forall k | 0 <= k < |center| && k != d / 2
      ensures Direction(p, center, baseSteps)[k] == 0.0
    {
      assert p[k] == center[k];
      ZeroTimes(baseSteps[k]);
    }
  }

  lemma ZeroTimes(b: real)
    ensures 0.0 * b == 0.0
  {
  }

  /** A poll direction meets `v` only along its own axis. */
  lemma PollDot(center: XMesh, steps: seq<int>, baseSteps: seq<real>, v: seq<real>, d: nat)
    requires |center| == |baseSteps| == |v| && d < 2 * |center|
    ensures Dot(Direction(PollPoint(center, steps, d), center, baseSteps), v)
         == Direction(PollPoint(center, steps, d), center, baseSteps)[d / 2] * v[d / 2]
  {
    hide *;
    DirectionOffAxis(center, steps, baseSteps, d);
    DotOfAxis(Direction(PollPoint(center, steps, d), center, baseSteps), v, d / 2);
  }

  /** The direction along its own axis has the sign of the step. */
  lemma DirectionSign(center: XMesh, steps: seq<int>, baseSteps: seq<real>, d: nat)
    requires |center| == |baseSteps| && d < 2 * |center|
    requires baseSteps[d / 2] > 0.0
    ensures var p, i := PollPoint(center, steps, d), d / 2;
      && (p[i] > center[i] ==> Direction(p, center, baseSteps)[i] > 0.0)
      && (p[i] < center[i] ==> Direction(p, center, baseSteps)[i] < 0.0)
      && (p[i] == center[i] ==> Direction(p, center, baseSteps)[i] == 0.0)
  {
    var p, i := PollPoint(center, steps, d), d / 2;
    var step := (p[i] - center[i]) as real;
    if p[i] > center[i] {
      MulPositive(step, baseSteps[i]);
    } else if p[i] < center[i] {
      MulPositive(-step, baseSteps[i]);
      assert (-step) * baseSteps[i] == -(step * baseSteps[i]);
    } else {
      ZeroTimes(baseSteps[i]);
    }
  }

  /** The poll set positively spans the space exactly when the center sits strictly inside the
      64-bit range on every axis: only a saturated axis loses a direction. */
  lemma PollPositivelySpansIff(center: XMesh, steps: seq<int>, baseSteps: seq<real>)
    requires |center| == |baseSteps|
    requires forall i :: 0 <= i < |center| ==> baseSteps[i] > 0.0 && IsI64(center[i])
    ensures PositivelySpans(center, steps, baseSteps)
       <==> forall i :: 0 <= i < |center| ==> I64_MIN < center[i] < I64_MAX
  {
    if forall i :: 0 <= i < |center| ==> I64_MIN < center[i] < I64_MAX {
      forall v: seq<real> | |v| == |center| && exists i :: 0 <= i < |v| && v[i] != 0.0
        ensures SomePollAscends(center, steps, baseSteps, v)
      {
        var i :| 0 <= i < |v| && v[i] != 0.0;
        AxisAscends(center, steps, baseSteps, v, i);
      }
    }
    if i :| 0 <= i < |center| && !(I64_MIN < center[i] < I64_MAX) {
      SaturatedAxisDoesNotSpan(center, steps, baseSteps, i);
    }
  }

  lemma SameSignProduct(a: real, c: real)
    requires (a > 0.0 && c > 0.0) || (a < 0.0 && c < 0.0)
    ensures a * c > 0.0
  {
    if a > 0.0 {
      MulPositive(a, c);
    } else {
      MulPositive(-a, -c);
    }
  }

  lemma OppositeSignProduct(a: real, c: real)
    requires (a >= 0.0 && c <= 0.0) || (a <= 0.0 && c >= 0.0)
    ensures a * c <= 0.0
  {
    if a >= 0.0 && c <= 0.0 {
      MulNonNegative(a, -c);
    } else {
      MulNonNegative(-a, c);
    }
  }

  lemma AxisAscends(center: XMesh, steps: seq<int>, baseSteps: seq<real>, v: seq<real>, i: nat)
    requires |center| == |baseSteps| == |v| && i < |v| && v[i] != 0.0
    requires baseSteps[i] > 0.0 && I64_MIN < center[i] < I64_MAX
    ensures SomePollAscends(center, steps, baseSteps, v)
  {
    var d := if v[i] > 0.0 then 2 * i else 2 * i + 1;
    PollDot(center, steps, baseSteps, v, d);
    DirectionSign(center, steps, baseSteps, d);
    SameSignProduct(Direction(PollPoint(center, steps, d), center, baseSteps)[i], v[i]);
  }

  lemma SaturatedAxisDoesNotSpan(center: XMesh, steps: seq<int>, baseSteps: seq<real>, i: nat)
    requires |center| == |baseSteps| && i < |center|
    requires forall k :: 0 <= k < |center| ==> baseSteps[k] > 0.0 && IsI64(center[k])
    requires center[i] == I64_MIN || center[i] == I64_MAX
    ensures !PositivelySpans(center, steps, baseSteps)
  {
    var up := center[i] == I64_MAX;
    var v: seq<real> := seq(|center|, k => if k != i then 0.0 else if up then 1.0 else -1.0);
    assert v[i] != 0.0;
    forall d | 0 <= d < 2 * |center|
      ensures !(Dot(Direction(PollPoint(center, steps, d), center, baseSteps), v) > 0.0)
    {
      PollDot(center, steps, baseSteps, v, d);
      if d / 2 == i {
        DirectionSign(center, steps, baseSteps, d);
      }
      OppositeSignProduct(Direction(PollPoint(center, steps, d), center, baseSteps)[d / 2], v[d / 2]);
    }
    assert !SomePollAscends(center, steps, baseSteps, v);
  }

  // ---------------------------------------------------------------- sizes

  /** A refined size is the old one divided by the divisor, rounded down, but not below the minimum; a size at
      or below the minimum stays. */
  lemma RefinedIsFloor(mm: int, mulMin: int, div: int)
    requires mulMin >= 1 && div >= 2
    ensures mm <= mulMin ==> Refined(mm, mulMin, div) == mm
    ensures mm > mulMin ==>
              var r := Refined(mm, mulMin, div);
              r >= mulMin && mm < (r + 1) * div && (r > mulMin ==> r * div <= mm)
  {
    if mm > mulMin {
      var q := mm / div;
      assert q * div <= mm < (q + 1) * div;
      if q < mulMin {
        MulMonotone(q + 1, mulMin + 1, div);
      }
    }
  }

  /** Of two equally near integers rounding picks the one farther from zero. */
  lemma HalvesGoAway(z: real, n: int)
    ensures z == (n as real) + 0.5 ==> Round(z) == if n >= 0 then n + 1 else n
    ensures Round(-z) == -Round(z)
  {
  }

  /** The two poll points of an axis lie symmetrically about the centre, one step away along that axis and
      nowhere else, as long as no step is saturated. */
  lemma PollPair(center: XMesh, steps: seq<int>, i: nat, k: nat)
    requires i < |center| && i < |steps| && steps[i] >= 1 && k < |center|
    requires IsI64(center[i] + steps[i]) && IsI64(center[i] - steps[i])
    ensures var up, down := PollPoint(center, steps, 2 * i), PollPoint(center, steps, 2 * i + 1);
      && up[k] - center[k] == center[k] - down[k] == (if k == i then steps[i] else 0)
  {
  }
}
