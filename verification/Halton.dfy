/** The radical-inverse loop behind quasi-random exploration, and its stratification. */
module Halton {
  import opened Arithmetic

  /** Quotient and remainder by repeated subtraction; `QuoRemAreDivMod` relates them to division. */
  function Quo(i: nat, b: nat): (q: nat)
    requires b >= 1
    ensures q <= i
    ensures i > 0 && b >= 2 ==> q < i
  {
    if i < b then 0 else 1 + Quo(i - b, b)
  }

  function Rem(i: nat, b: nat): (r: nat)
    requires b >= 1
    ensures r < b
  {
    if i < b then i else Rem(i - b, b)
  }

  lemma {:induction false} QuoRemSplit(i: nat, b: nat)
    requires b >= 1
    ensures i == Quo(i, b) * b + Rem(i, b)
  {
    if i >= b {
      QuoRemSplit(i - b, b);
      assert (1 + Quo(i - b, b)) * b == b + Quo(i - b, b) * b;
    }
  }

  lemma QuoRemUnique(i: nat, b: nat, q: nat, r: nat)
    requires b >= 1 && i == q * b + r && r < b
    ensures Quo(i, b) == q && Rem(i, b) == r
  {
    QuoRemSplit(i, b);
    assert (Quo(i, b) - q) * b == r - Rem(i, b);
    SmallProductIsZero(Quo(i, b) - q, b);
  }

  lemma QuoRemAreDivMod(i: nat, b: nat)
    requires b >= 1
    ensures Quo(i, b) == i / b && Rem(i, b) == i % b
  {
    QuoRemSplit(i, b);
    DivModUnique(i, b, Quo(i, b), Rem(i, b));
  }

  method DivRem(i: nat, b: nat) returns (q: nat, d: nat)
    requires b >= 1
    ensures q == Quo(i, b) && d == Rem(i, b)
  {
    QuoRemAreDivMod(i, b);
    q, d := i / b, i % b;
  }

  /** The fraction with first digit `d` and the digits of `rest` behind it. */
  function Shifted(d: nat, rest: real, b: nat): real
    requires b >= 2
  {
    ((d as real) + rest) / (b as real)
  }

  /** The radical inverse of `i`: its base-`b` digits mirrored behind the point. */
  function Radical(i: nat, b: nat): real
    requires b >= 2
  {
    if i == 0 then 0.0 else Shifted(Rem(i, b), Radical(Quo(i, b), b), b)
  }

  method Halton(index: nat, b: nat) returns (r: real)
    requires b >= 2
    ensures r == Radical(index, b)
  {
    hide *;
    RadicalOfZero(b);
    var f := 1.0;
    r := 0.0;
    var i: nat := index;
    while i > 0
      invariant r + f * Radical(i, b) == Radical(index, b)
    {
      var q, d := DivRem(i, b);
      RadicalHead(i, b);
      ShiftStep(r, f, d, Radical(q, b), b);
      f := f / (b as real);
      r := r + f * (d as real);
      i := q;
    }
  }

  lemma ShiftStep(r: real, f: real, d: nat, rest: real, b: nat)
    requires b >= 2
    ensures r + f * Shifted(d, rest, b) == (r + (f / (b as real)) * (d as real)) + (f / (b as real)) * rest
  {
    var base := b as real;
    DivTimes(f, base);
    DivTimes((d as real) + rest, base);
    Rescale(f, base, f / base, (d as real) + rest, Shifted(d, rest, b));
    Distribute(f / base, d as real, rest);
  }

  lemma Rescale(f: real, base: real, x: real, s: real, y: real)
    requires x * base == f && y * base == s
    ensures f * y == x * s
  {
    MulAssoc(x, base, y);
  }

  lemma Distribute(x: real, d: real, e: real)
    ensures x * (d + e) == x * d + x * e
  {
  }

  lemma {:induction false} RadicalInUnitInterval(i: nat, b: nat)
    requires b >= 2
    ensures 0.0 <= Radical(i, b) < 1.0
  {
    if i > 0 {
      RadicalInUnitInterval(Quo(i, b), b);
      ShiftedInUnitInterval(Rem(i, b), Radical(Quo(i, b), b), b);
    }
  }

  lemma ShiftedInUnitInterval(d: nat, rest: real, b: nat)
    requires b >= 2 && d < b && 0.0 <= rest < 1.0
    ensures 0.0 <= Shifted(d, rest, b) < 1.0
  {
    DivTimes((d as real) + rest, b as real);
    FractionBounds(Shifted(d, rest, b), (d as real) + rest, b as real);
  }

  lemma FractionBounds(q: real, s: real, b: real)
    requires 0.0 <= s < b && q * b == s
    ensures 0.0 <= q < 1.0
  {
    if q >= 1.0 {
      MulMonotoneReal(1.0, q, b);
    }
    if q < 0.0 {
      MulPositive(-q, b);
    }
  }

  // ---------------------------------------------------------------- digit reversal

  /** The first `k` base-`b` digits of `i`, least significant first, read as a number. */
  function Reversed(i: nat, b: nat, k: nat): nat
    requires b >= 2
  {
    if k == 0 then 0 else Rem(i, b) * Pow(b, k - 1) + Reversed(Quo(i, b), b, k - 1)
  }

  /** `i` without its first `k` digits. */
  function Dropped(i: nat, b: nat, k: nat): nat
    requires b >= 2
  {
    if k == 0 then i else Dropped(Quo(i, b), b, k - 1)
  }

  lemma OneDigit(i: nat, b: nat, k: nat)
    requires b >= 2
    ensures k == 0 ==> Pow(b, k) == 1 && Reversed(i, b, k) == 0 && Dropped(i, b, k) == i
    ensures k > 0 ==>
      && Pow(b, k) == b * Pow(b, k - 1)
      && Reversed(i, b, k) == Rem(i, b) * Pow(b, k - 1) + Reversed(Quo(i, b), b, k - 1)
      && Dropped(i, b, k) == Dropped(Quo(i, b), b, k - 1)
  {
  }

  /** Scaling by `b^k` moves the first `k` digits, reversed, in front of the point. */
  lemma {:induction false} ScaledRadical(i: nat, b: nat, k: nat)
    requires b >= 2
    ensures (Pow(b, k) as real) * Radical(i, b) == (Reversed(i, b, k) as real) + Radical(Dropped(i, b, k), b)
  {
    hide *;
    OneDigit(i, b, k);
    if k > 0 {
      var q := Quo(i, b);
      ScaledRadical(q, b, k - 1);
      RadicalUnfolds(i, b);
      ScaleDigit(Pow(b, k - 1), b, Rem(i, b), Radical(q, b), Radical(i, b),
                 Reversed(q, b, k - 1), Radical(Dropped(q, b, k - 1), b));
    }
  }

  lemma ShiftedTimes(d: nat, rest: real, b: nat)
    requires b >= 2
    ensures (b as real) * Shifted(d, rest, b) == (d as real) + rest
  {
    DivTimes((d as real) + rest, b as real);
  }

  lemma RadicalHead(i: nat, b: nat)
    requires b >= 2 && i > 0
    ensures Radical(i, b) == Shifted(Rem(i, b), Radical(Quo(i, b), b), b)
  {
  }

  lemma RadicalOfZero(b: nat)
    requires b >= 2
    ensures Radical(0, b) == 0.0 && Rem(0, b) == 0 && Quo(0, b) == 0
  {
  }

  lemma RadicalUnfolds(i: nat, b: nat)
    requires b >= 2
    ensures (b as real) * Radical(i, b) == (Rem(i, b) as real) + Radical(Quo(i, b), b)
  {
    hide *;
    if i > 0 {
      RadicalHead(i, b);
      ShiftedTimes(Rem(i, b), Radical(Quo(i, b), b), b);
    } else {
      RadicalOfZero(b);
    }
  }

  lemma ScaleDigit(p: nat, b: nat, d: nat, rest: real, x: real, whole: nat, frac: real)
    requires (b as real) * x == (d as real) + rest
    requires (p as real) * rest == (whole as real) + frac
    ensures ((b * p) as real) * x == ((d * p + whole) as real) + frac
  {
    assert ((b * p) as real) == (b as real) * (p as real);
    assert ((d * p) as real) == (d as real) * (p as real);
    assert ((b as real) * (p as real)) * x == (p as real) * ((b as real) * x);
  }

  lemma {:induction false} PowPositive(b: nat, k: nat)
    requires b >= 2
    ensures Pow(b, k) >= 1
  {
    if k > 0 {
      PowPositive(b, k - 1);
      MulMonotone(1, b, Pow(b, k - 1));
    }
  }

  lemma {:induction false} ReversedInRange(i: nat, b: nat, k: nat)
    requires b >= 2
    ensures Reversed(i, b, k) < Pow(b, k)
  {
    if k > 0 {
      var p := Pow(b, k - 1);
      ReversedInRange(Quo(i, b), b, k - 1);
      MulMonotone(Rem(i, b), b - 1, p);
      assert (b - 1) * p + p == b * p;
    }
  }

  /** `x` lies in the `j`-th of `n` equal parts of the unit interval. */
  ghost predicate InStratum(x: real, j: nat, n: nat) {
    (j as real) <= (n as real) * x < (j + 1) as real
  }

  /** The stratum of an index is its first `k` digits, reversed. */
  lemma StratumIsReversal(i: nat, b: nat, k: nat, j: nat)
    requires b >= 2
    ensures InStratum(Radical(i, b), j, Pow(b, k)) <==> j == Reversed(i, b, k)
  {
    ScaledRadical(i, b, k);
    RadicalInUnitInterval(Dropped(i, b, k), b);
  }

  // ---------------------------------------------------------------- digit reversal is a bijection

  lemma DigitsSplit(d: nat, e: nat, r: nat, s: nat, p: nat)
    requires p >= 1 && r < p && s < p && d * p + r == e * p + s
    ensures d == e && r == s
  {
    QuoRemUnique(d * p + r, p, d, r);
    QuoRemUnique(e * p + s, p, e, s);
  }

  /** The remainder modulo `b * p` is the last digit plus `b` times the rest modulo `p`. */
  lemma LowDigitFirst(i: nat, b: nat, p: nat)
    requires b >= 2 && p >= 1
    ensures b * p >= 1 && Rem(i, b * p) == b * Rem(Quo(i, b), p) + Rem(i, b)
  {
    hide *;
    QuoRemSplit(i, b);
    QuoRemSplit(Quo(i, b), p);
    LowDigitUnique(i, b, p, Quo(i, b), Rem(i, b), Quo(Quo(i, b), p), Rem(Quo(i, b), p));
  }

  lemma LowDigitUnique(i: nat, b: nat, p: nat, q: nat, d: nat, u: nat, t: nat)
    requires b >= 2 && p >= 1 && d < b && t < p
    requires i == q * b + d && q == u * p + t
    ensures b * p >= 1 && Rem(i, b * p) == b * t + d
  {
    hide *;
    LowDigitArithmetic(i, b, p, q, d, u, t);
    QuoRemUnique(i, b * p, u, b * t + d);
  }

  lemma LowDigitArithmetic(i: nat, b: nat, p: nat, q: nat, d: nat, u: nat, t: nat)
    requires b >= 2 && p >= 1 && d < b && t < p
    requires i == q * b + d && q == u * p + t
    ensures b * p >= 1 && i == u * (b * p) + (b * t + d) && b * t + d < b * p
  {
    MulMonotone(t, p - 1, b);
    assert (p - 1) * b + b == b * p;
    assert q * b == (u * p) * b + t * b;
    assert (u * p) * b == u * (b * p);
  }

  /** Indices with the same reversal agree modulo `b^k`. */
  lemma {:induction false} ReversalInjective(i: nat, j: nat, b: nat, k: nat)
    requires b >= 2 && Reversed(i, b, k) == Reversed(j, b, k)
    ensures Pow(b, k) >= 1 && Rem(i, Pow(b, k)) == Rem(j, Pow(b, k))
  {
    PowPositive(b, k);
    if k > 0 {
      var p := Pow(b, k - 1);
      PowPositive(b, k - 1);
      ReversedInRange(Quo(i, b), b, k - 1);
      ReversedInRange(Quo(j, b), b, k - 1);
      DigitsSplit(Rem(i, b), Rem(j, b), Reversed(Quo(i, b), b, k - 1), Reversed(Quo(j, b), b, k - 1), p);
      ReversalInjective(Quo(i, b), Quo(j, b), b, k - 1);
      LowDigitFirst(i, b, p);
      LowDigitFirst(j, b, p);
    }
  }

  /** The index below `b^k` whose first `k` digits reversed are `j`. */
  function Preimage(j: nat, b: nat, k: nat): nat
    requires b >= 2
  {
    if k == 0 then 0
    else
      PowPositive(b, k - 1);
      Quo(j, Pow(b, k - 1)) + b * Preimage(Rem(j, Pow(b, k - 1)), b, k - 1)
  }

  lemma TopDigit(j: nat, b: nat, p: nat)
    requires p >= 1 && j < b * p
    ensures Quo(j, p) < b && j == Quo(j, p) * p + Rem(j, p)
  {
    QuoRemSplit(j, p);
    if Quo(j, p) >= b {
      MulMonotone(b, Quo(j, p), p);
    }
  }

  lemma AppendDigit(d: nat, rest: nat, b: nat, p: nat)
    requires d < b && rest < p
    ensures d + b * rest < b * p
    ensures Rem(d + b * rest, b) == d && Quo(d + b * rest, b) == rest
  {
    QuoRemUnique(d + b * rest, b, rest, d);
    MulMonotone(rest, p - 1, b);
  }

  lemma {:induction false} PreimageReverses(j: nat, b: nat, k: nat)
    requires b >= 2 && j < Pow(b, k)
    ensures Preimage(j, b, k) < Pow(b, k) && Reversed(Preimage(j, b, k), b, k) == j
  {
    if k > 0 {
      var p := Pow(b, k - 1);
      PowPositive(b, k - 1);
      PreimageReverses(Rem(j, p), b, k - 1);
      TopDigit(j, b, p);
      AppendDigit(Quo(j, p), Preimage(Rem(j, p), b, k - 1), b, p);
    }
  }

  // ---------------------------------------------------------------- consecutive indices

  /** Among `n` consecutive numbers, exactly one has a given remainder. */
  lemma OneOfEachResidue(start: nat, n: nat, t: nat) returns (i: nat)
    requires n >= 1 && t < n
    ensures start <= i < start + n && Rem(i, n) == t
    ensures forall k: nat :: start <= k < start + n && Rem(k, n) == t ==> k == i
  {
    var q, r := Quo(start, n), Rem(start, n);
    QuoRemSplit(start, n);
    assert (q + 1) * n == q * n + n;
    i := if t >= r then q * n + t else (q + 1) * n + t;
    QuoRemUnique(i, n, if t >= r then q else q + 1, t);
    forall k: nat | start <= k < start + n && Rem(k, n) == t
      ensures k == i
    {
      SameResidueClose(k, i, n);
    }
  }

  lemma SameResidueClose(k: nat, i: nat, n: nat)
    requires n >= 1 && Rem(k, n) == Rem(i, n) && k < i + n && i < k + n
    ensures k == i
  {
    QuoRemSplit(k, n);
    QuoRemSplit(i, n);
    assert (Quo(k, n) - Quo(i, n)) * n == k - i;
    SmallProductIsZero(Quo(k, n) - Quo(i, n), n);
  }

  lemma {:induction false} ReversalIsPeriodic(i: nat, c: nat, b: nat, k: nat)
    requires b >= 2
    ensures Reversed(i + c * Pow(b, k), b, k) == Reversed(i, b, k)
  {
    if k > 0 {
      var p := Pow(b, k - 1);
      QuoRemSplit(i, b);
      assert c * (b * p) == (c * p) * b;
      assert (Quo(i, b) + c * p) * b == Quo(i, b) * b + (c * p) * b;
      QuoRemUnique(i + c * (b * p), b, Quo(i, b) + c * p, Rem(i, b));
      ReversalIsPeriodic(Quo(i, b), c, b, k - 1);
    }
  }

  lemma ReversalOfResidue(i: nat, b: nat, k: nat)
    requires b >= 2
    ensures Pow(b, k) >= 1 && Reversed(Rem(i, Pow(b, k)), b, k) == Reversed(i, b, k)
  {
    PowPositive(b, k);
    var n := Pow(b, k);
    QuoRemSplit(i, n);
    ReversalIsPeriodic(Rem(i, n), Quo(i, n), b, k);
  }

  /** Stratification: among any `b^k` consecutive indices, every one of the `b^k` equal intervals
      receives exactly one value. */
  lemma Stratified(start: nat, b: nat, k: nat, j: nat) returns (i: nat)
    requires b >= 2 && j < Pow(b, k)
    ensures start <= i < start + Pow(b, k)
    ensures InStratum(Radical(i, b), j, Pow(b, k))
    ensures forall m: nat :: start <= m < start + Pow(b, k) && InStratum(Radical(m, b), j, Pow(b, k)) ==> m == i
  {
    var n := Pow(b, k);
    PowPositive(b, k);
    var t := Preimage(j, b, k);
    PreimageReverses(j, b, k);
    i := OneOfEachResidue(start, n, t);
    ReversalOfResidue(i, b, k);
    StratumIsReversal(i, b, k, j);
    forall m: nat | start <= m < start + n && InStratum(Radical(m, b), j, n)
      ensures m == i
    {
      StratumIsReversal(m, b, k, j);
      ReversalInjective(m, i, b, k);
    }
  }

  lemma {:induction false} DroppedSmall(i: nat, b: nat, k: nat)
    requires b >= 2 && i < Pow(b, k)
    ensures Dropped(i, b, k) == 0
  {
    if k > 0 {
      var p := Pow(b, k - 1);
      QuoRemSplit(i, b);
      if Quo(i, b) >= p {
        MulMonotone(p, Quo(i, b), b);
      }
      DroppedSmall(Quo(i, b), b, k - 1);
    }
  }

  /** Index `i` has the value `j / b^k`. */
  ghost predicate HasGridValue(i: nat, j: nat, b: nat, k: nat)
    requires b >= 2
  {
    (Pow(b, k) as real) * Radical(i, b) == j as real
  }

  /** Index `i` of the first `b^k` has one multiple of `b^-k` as its value, given by digit reversal. */
  lemma GridValue(i: nat, b: nat, k: nat)
    requires b >= 2 && i < Pow(b, k)
    ensures Reversed(i, b, k) < Pow(b, k)
    ensures forall j: nat :: HasGridValue(i, j, b, k) <==> j == Reversed(i, b, k)
  {
    hide Pow, Radical, Reversed, Dropped;
    ScaledRadical(i, b, k);
    DroppedSmall(i, b, k);
    RadicalOfZero(b);
    ReversedInRange(i, b, k);
  }

  /** The first `b^k` indices map one to one onto the multiples of `b^-k` below one: every multiple is the
      value of exactly one of them, the one with its digits reversed, and they have no other values. */
  lemma FirstIndicesAreGrid(j: nat, b: nat, k: nat) returns (i: nat)
    requires b >= 2 && j < Pow(b, k)
    ensures i < Pow(b, k) && Reversed(i, b, k) == j && HasGridValue(i, j, b, k)
    ensures forall m: nat :: m < Pow(b, k) && HasGridValue(m, j, b, k) ==> m == i
    ensures forall m: nat :: m < Pow(b, k) ==> Reversed(m, b, k) < Pow(b, k) && HasGridValue(m, Reversed(m, b, k), b, k)
  {
    hide *;
    i := Preimage(j, b, k);
    PreimageReverses(j, b, k);
    GridValue(i, b, k);
    forall m: nat | m < Pow(b, k)
      ensures Reversed(m, b, k) < Pow(b, k) && HasGridValue(m, Reversed(m, b, k), b, k)
      ensures HasGridValue(m, j, b, k) ==> m == i
    {
      GridValue(m, b, k);
      if HasGridValue(m, j, b, k) {
        ReversalInjective(m, i, b, k);
        SameResidueClose(m, i, Pow(b, k));
      }
    }
  }
}
