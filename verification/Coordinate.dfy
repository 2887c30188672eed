/** Coordinate proposals: a partial Fisher-Yates shuffle picks the dimensions to perturb. */
module Coordinate {
  import opened Types
  import Ladder

  function Swapped<T>(s: seq<T>, i: nat, j: nat): (r: seq<T>)
    requires i < |s| && j < |s|
    ensures |r| == |s|
  {
    s[i := s[j]][j := s[i]]
  }

  /** Where step `i` of the shuffle takes its element from. */
  function Source(draw: nat, i: nat, dim: nat): (j: nat)
    requires i < dim
    ensures i <= j < dim
  {
    i + draw % (dim - i)
  }

  /** The first `n` steps of the shuffle. */
  function Shuffled<T>(s: seq<T>, draws: seq<nat>, n: nat): (r: seq<T>)
    requires n <= |s| && n <= |draws|
    ensures |r| == |s|
  {
    if n == 0 then s
    else Swapped(Shuffled(s, draws, n - 1), n - 1, Source(draws[n - 1], n - 1, |s|))
  }

  method PartialShuffle(indices: array<nat>, draws: seq<nat>, n: nat)
    requires n <= indices.Length && n <= |draws|
    modifies indices
    ensures indices[..] == Shuffled(old(indices[..]), draws, n)
  {
    ghost var s := indices[..];
    for i := 0 to n
      invariant indices[..] == Shuffled(s, draws, i)
    {
      var j := Source(draws[i], i, indices.Length);
      indices[i], indices[j] := indices[j], indices[i];
    }
  }

  lemma SwapPermutes<T>(s: seq<T>, i: nat, j: nat)
    requires i < |s| && j < |s|
    ensures multiset(Swapped(s, i, j)) == multiset(s)
  {
  }

  /** The shuffle loses and duplicates nothing. */
  lemma {:induction false} ShufflePermutes<T>(s: seq<T>, draws: seq<nat>, n: nat)
    requires n <= |s| && n <= |draws|
    ensures multiset(Shuffled(s, draws, n)) == multiset(s)
  {
    hide Swapped;
    if n > 0 {
      ShufflePermutes(s, draws, n - 1);
      SwapPermutes(Shuffled(s, draws, n - 1), n - 1, Source(draws[n - 1], n - 1, |s|));
    }
  }

  /** From distinct elements the shuffle picks distinct elements. */
  lemma ShuffleKeepsDistinct<T>(s: seq<T>, draws: seq<nat>, n: nat)
    requires n <= |s| && n <= |draws| && Ladder.Distinct(s)
    ensures Ladder.Distinct(Shuffled(s, draws, n))
  {
    ShufflePermutes(s, draws, n);
    Ladder.DistinctCounts(s);
    Ladder.DistinctCounts(Shuffled(s, draws, n));
  }

  /** Only the first `n` draws matter. */
  lemma {:induction false} ShuffleIgnoresLater<T>(s: seq<T>, draws: seq<nat>, more: seq<nat>, n: nat)
    requires n <= |s| && n <= |draws|
    ensures Shuffled(s, draws + more, n) == Shuffled(s, draws, n)
  {
    if n > 0 {
      ShuffleIgnoresLater(s, draws, more, n - 1);
      assert (draws + more)[n - 1] == draws[n - 1];
    }
  }

  lemma PositionIn<T>(s: seq<T>, t: seq<T>, x: T) returns (j: nat)
    requires multiset(s) == multiset(t) && x in s
    ensures j < |t| && t[j] == x
  {
    assert x in multiset(t);
    j :| 0 <= j < |t| && t[j] == x;
  }

  lemma NotAmongFirst<T>(target: seq<T>, t: seq<T>, n: nat, j: nat)
    requires Ladder.Distinct(target) && n < |target| && n <= |t| && j < |t|
    requires t[..n] == target[..n] && t[j] == target[n]
    ensures n <= j
  {
    assert forall i :: 0 <= i < n ==> t[i] == t[..n][i] == target[..n][i] == target[i];
  }

  lemma SwapExtends<T>(t: seq<T>, n: nat, j: nat)
    requires n <= j < |t|
    ensures Swapped(t, n, j)[..n + 1] == t[..n] + [t[j]]
  {
  }

  /** Every choice of distinct elements, in every order, is the outcome of some draws. */
  lemma {:induction false} ShuffleReachesAll<T>(s: seq<T>, target: seq<T>) returns (draws: seq<nat>)
    requires Ladder.Distinct(s) && Ladder.Distinct(target) && |target| <= |s|
    requires forall x :: x in target ==> x in s
    ensures |draws| == |target|
    ensures Shuffled(s, draws, |target|)[..|target|] == target
    decreases |target|
  {
    hide Swapped;
    if target == [] {
      draws := [];
    } else {
      var n := |target| - 1;
      assert target == target[..n] + [target[n]];
      var before := ShuffleReachesAll(s, target[..n]);
      var t := Shuffled(s, before, n);
      ShufflePermutes(s, before, n);
      var j := PositionIn(s, t, target[n]);
      NotAmongFirst(target, t, n, j);
      draws := before + [j - n];
      ShuffleIgnoresLater(s, before, [j - n], n);
      SmallRemainder(j - n, |s| - n);
      SwapExtends(t, n, j);
    }
  }

  lemma SmallRemainder(a: nat, b: nat)
    requires a < b
    ensures a % b == a
  {
  }

  /** How far draw `m` and sign draw `sign` move a coordinate: one to four steps down or up. */
  function Move(m: nat, sign: nat, step: real): real {
    (if sign % 2 == 0 then -1.0 else 1.0) * ((1 + m % 4) as real) * step
  }

  /** Draws move a coordinate by one, two, three or four steps, up or down, and all of these occur. */
  lemma MoveRange(m: nat, sign: nat, step: real, n: nat)
    ensures Move(m, sign, step) in {step, 2.0 * step, 3.0 * step, 4.0 * step,
                                    -step, -2.0 * step, -3.0 * step, -4.0 * step}
    ensures 1 <= n <= 4 ==> Move(n - 1, 1, step) == (n as real) * step && Move(n - 1, 0, step) == -((n as real) * step)
  {
  }

  function Upto(n: nat): (r: seq<nat>)
    ensures |r| == n && forall i :: 0 <= i < n ==> r[i] == i
  {
    seq(n, i requires 0 <= i => i)
  }

  function Perturbations(dim: nat, draw: nat): (n: nat)
    requires dim >= 1
    ensures 1 <= n <= dim && n <= 6
  {
    1 + draw % MinInt(dim, 6)
  }

  /** The dimensions a proposal perturbs. */
  function Chosen(dim: nat, draws: seq<nat>): (r: seq<nat>)
    requires dim >= 1 && |draws| >= 7
    ensures |r| == Perturbations(dim, draws[0])
  {
    Shuffled(Upto(dim), draws[1..], Perturbations(dim, draws[0]))[..Perturbations(dim, draws[0])]
  }

  /** The chosen dimensions are different dimensions of the point. */
  lemma ChosenAreDistinct(dim: nat, draws: seq<nat>)
    requires dim >= 1 && |draws| >= 7
    ensures Ladder.Distinct(Chosen(dim, draws))
    ensures forall k :: k in Chosen(dim, draws) ==> k < dim
  {
    var n := Perturbations(dim, draws[0]);
    var t := Shuffled(Upto(dim), draws[1..], n);
    ShuffleKeepsDistinct(Upto(dim), draws[1..], n);
    ShufflePermutes(Upto(dim), draws[1..], n);
    forall k | k in t[..n]
      ensures k < dim
    {
      assert k in multiset(t);
      assert k in Upto(dim);
    }
  }

  /** The first `m` of the dimensions `dims` moved, each by its own draws, and nothing else did. */
  ghost predicate Moved(incumbent: seq<real>, x: seq<real>, dims: seq<nat>, m: nat, draws: seq<nat>, step: real)
    requires m <= |dims| && |draws| >= 1 + 3 * |dims|
  {
    && |x| == |incumbent|
    && (forall i :: 0 <= i < m ==> dims[i] < |x|)
    && (forall i :: 0 <= i < m ==>
          x[dims[i]] == incumbent[dims[i]] + Move(draws[1 + |dims| + 2 * i], draws[2 + |dims| + 2 * i], step))
    && (forall k :: 0 <= k < |x| && k !in dims[..m] ==> x[k] == incumbent[k])
  }

  lemma MoveOne(incumbent: seq<real>, x: seq<real>, dims: seq<nat>, m: nat, draws: seq<nat>, step: real)
    requires m < |dims| && |draws| >= 1 + 3 * |dims|
    requires Moved(incumbent, x, dims, m, draws, step) && Ladder.Distinct(dims) && dims[m] < |x|
    ensures Moved(incumbent,
                  x[dims[m] := x[dims[m]] + Move(draws[1 + |dims| + 2 * m], draws[2 + |dims| + 2 * m], step)],
                  dims, m + 1, draws, step)
  {
    hide Move;
    NotBefore(dims, m);
    assert dims[..m + 1] == dims[..m] + [dims[m]];
  }

  /** Exactly the chosen dimensions move, each once and by its own draws. */
  method ProposeCoordinate(incumbent: seq<real>, step: real, draws: seq<nat>) returns (x: seq<real>)
    requires |incumbent| >= 1 && |draws| >= 19
    ensures var dims := Chosen(|incumbent|, draws); Moved(incumbent, x, dims, |dims|, draws, step)
  {
    hide Move, Shuffled, Moved, Perturbations, Ladder.Distinct;
    var dim := |incumbent|;
    x := incumbent;
    var n := Perturbations(dim, draws[0]);
    var indices := new nat[dim](i => i);
    assert indices[..] == Upto(dim);
    PartialShuffle(indices, draws[1..], n);
    ghost var dims := Chosen(dim, draws);
    assert indices[..n] == dims;
    ChosenAreDistinct(dim, draws);
    NothingMoved(incumbent, dims, draws, step);
    for m := 0 to n
      invariant |x| == dim && indices[..n] == dims
      invariant Moved(incumbent, x, dims, m, draws, step)
    {
      var k := indices[m];
      assert k == dims[m] && k in dims;
      MoveOne(incumbent, x, dims, m, draws, step);
      x := x[k := x[k] + Move(draws[1 + n + 2 * m], draws[2 + n + 2 * m], step)];
    }
  }

  lemma NothingMoved(incumbent: seq<real>, dims: seq<nat>, draws: seq<nat>, step: real)
    requires |draws| >= 1 + 3 * |dims|
    ensures Moved(incumbent, incumbent, dims, 0, draws, step)
  {
  }

  lemma NotBefore(dims: seq<nat>, m: nat)
    requires Ladder.Distinct(dims) && m < |dims|
    ensures dims[m] !in dims[..m]
    ensures forall i :: 0 <= i < m ==> dims[i] != dims[m]
  {
  }
}
