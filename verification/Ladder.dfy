/** The staircase fidelity ladder and the paired checkpoints an audit visits on it. */
module Ladder {
  import opened Types
  import opened Sorting

  predicate GeNat(a: nat, b: nat) {
    b <= a
  }

  /** The tolerance levels from loosest to tightest. */
  function LooseToTight(tau: seq<nat>): (r: seq<nat>)
    ensures |r| == |tau|
  {
    Sort(tau, GeNat)
  }

  /** The sample sizes from smallest to largest. */
  function FewToMany(smc: seq<nat>): (r: seq<nat>)
    ensures |r| == |smc|
  {
    Sort(smc, LeNat)
  }

  /** How many sample increases have happened at rung `k`, for `m + 1` tolerances and `n + 1` sizes:
      every odd step raises the sample size until one axis is exhausted. */
  function SmcSteps(k: nat, m: nat, n: nat): nat
    requires k <= m + n
  {
    MinInt(n, MaxInt((k + 1) / 2, k - m))
  }

  /** The rung the staircase must have at position `k`. */
  function Rung(k: nat, tau: seq<nat>, smc: seq<nat>): Phi
    requires tau != [] && smc != []
    requires k < |tau| + |smc| - 1
  {
    var s := SmcSteps(k, |tau| - 1, |smc| - 1);
    Phi(LooseToTight(tau)[k - s], FewToMany(smc)[s])
  }

  method BuildLadder(tauLevels: seq<nat>, smcLevels: seq<nat>) returns (ladder: seq<Phi>)
    requires tauLevels != [] && smcLevels != []
    ensures |ladder| == |tauLevels| + |smcLevels| - 1
    ensures forall k :: 0 <= k < |ladder| ==> ladder[k] == Rung(k, tauLevels, smcLevels)
  {
    hide LooseToTight, FewToMany;
    var tau := LooseToTight(tauLevels);
    var smc := FewToMany(smcLevels);
    var iTau: nat, iS: nat := 0, 0;
    ladder := [Phi(tau[iTau], smc[iS])];
    while iTau + 1 < |tau| || iS + 1 < |smc|
      invariant iTau < |tau| && iS < |smc|
      invariant |ladder| == iTau + iS + 1
      invariant iS == SmcSteps(iTau + iS, |tau| - 1, |smc| - 1)
      invariant iTau == iS || iS + 1 == |smc| || iTau + 1 == |tau|
      invariant iTau + 1 < |tau| ==> iTau >= iS
      invariant iS + 1 < |smc| ==> iS >= iTau
      invariant forall k :: 0 <= k < |ladder| ==> ladder[k] == Rung(k, tauLevels, smcLevels)
      decreases |tau| - iTau + |smc| - iS
    {
      if iS + 1 < |smc| {
        iS := iS + 1;
        ladder := ladder + [Phi(tau[iTau], smc[iS])];
      }
      if iTau + 1 < |tau| {
        iTau := iTau + 1;
        ladder := ladder + [Phi(tau[iTau], smc[iS])];
      }
    }
  }

  ghost predicate IsStaircase(ladder: seq<Phi>, tau: seq<nat>, smc: seq<nat>)
  {
    && tau != [] && smc != []
    && |ladder| == |tau| + |smc| - 1
    && forall k :: 0 <= k < |ladder| ==> ladder[k] == Rung(k, tau, smc)
  }

  ghost predicate Distinct<T>(s: seq<T>) {
    forall i, j :: 0 <= i < j < |s| ==> s[i] != s[j]
  }

  lemma {:induction false} DistinctCounts<T>(s: seq<T>)
    ensures Distinct(s) <==> forall x :: multiset(s)[x] <= 1
  {
    if s != [] {
      assert s == [s[0]] + s[1..];
      assert multiset(s) == multiset{s[0]} + multiset(s[1..]);
      DistinctCounts(s[1..]);
      if s[0] in s[1..] {
        assert s[0] in multiset(s[1..]);
        assert multiset(s)[s[0]] >= 2;
        var j :| 0 <= j < |s[1..]| && s[1..][j] == s[0];
        assert s[0] == s[j + 1];
      } else {
        assert multiset(s[1..])[s[0]] == 0;
        forall x
          ensures multiset(s)[x] == if x == s[0] then 1 else multiset(s[1..])[x]
        {
        }
        assert Distinct(s) <==> Distinct(s[1..]) by {
          if Distinct(s[1..]) {
            forall i, j | 0 <= i < j < |s|
              ensures s[i] != s[j]
            {
              assert s[j] == s[1..][j - 1];
              if i > 0 {
                assert s[i] == s[1..][i - 1];
              }
            }
          }
        }
      }
    }
  }

  lemma LevelsSorted(tau: seq<nat>, smc: seq<nat>)
    ensures forall i, j :: 0 <= i <= j < |tau| ==> LooseToTight(tau)[j] <= LooseToTight(tau)[i]
    ensures forall i, j :: 0 <= i <= j < |smc| ==> FewToMany(smc)[i] <= FewToMany(smc)[j]
    ensures Distinct(tau) ==> Distinct(LooseToTight(tau))
    ensures Distinct(smc) ==> Distinct(FewToMany(smc))
  {
    SortSorts(tau, GeNat);
    SortSorts(smc, LeNat);
    SortPermutes(tau, GeNat);
    SortPermutes(smc, LeNat);
    DistinctCounts(tau);
    DistinctCounts(smc);
    DistinctCounts(LooseToTight(tau));
    DistinctCounts(FewToMany(smc));
    var t, s := LooseToTight(tau), FewToMany(smc);
    forall i, j | 0 <= i <= j < |tau|
      ensures t[j] <= t[i]
    {
      if i < j {
        assert GeNat(t[i], t[j]);
      }
    }
    forall i, j | 0 <= i <= j < |smc|
      ensures s[i] <= s[j]
    {
      if i < j {
        assert LeNat(s[i], s[j]);
      }
    }
  }

  /** The ladder runs from the loosest tolerance with the fewest samples to the tightest with the most. */
  lemma LadderEnds(ladder: seq<Phi>, tau: seq<nat>, smc: seq<nat>)
    requires IsStaircase(ladder, tau, smc)
    ensures ladder[0].tau in tau && forall t :: t in tau ==> t <= ladder[0].tau
    ensures ladder[0].smc in smc && forall s :: s in smc ==> ladder[0].smc <= s
    ensures var last := ladder[|ladder| - 1];
            && last.tau in tau && (forall t :: t in tau ==> last.tau <= t)
            && last.smc in smc && (forall s :: s in smc ==> s <= last.smc)
  {
    LevelsSorted(tau, smc);
    SortMembers(tau, GeNat);
    SortMembers(smc, LeNat);
    var t, s := LooseToTight(tau), FewToMany(smc);
    assert ladder[0] == Phi(t[0], s[0]);
    assert ladder[|ladder| - 1] == Phi(t[|t| - 1], s[|s| - 1]);
    forall x | x in tau
      ensures t[|t| - 1] <= x <= t[0]
    {
      assert x in t;
      var i :| 0 <= i < |t| && t[i] == x;
    }
    forall x | x in smc
      ensures s[0] <= x <= s[|s| - 1]
    {
      assert x in s;
      var i :| 0 <= i < |s| && s[i] == x;
    }
    assert t[0] in t && t[|t| - 1] in t && s[0] in s && s[|s| - 1] in s;
  }

  /** Every step moves exactly one axis to the next level of its sorted list: towards tighter tolerance or
      more samples, strictly so when no level is repeated. */
  lemma OneAxisPerStep(ladder: seq<Phi>, tau: seq<nat>, smc: seq<nat>, k: nat) returns (i: nat, j: nat)
    requires IsStaircase(ladder, tau, smc)
    requires k + 1 < |ladder|
    ensures i < |tau| && j < |smc| && i + j == k
    ensures ladder[k] == Phi(LooseToTight(tau)[i], FewToMany(smc)[j])
    ensures || (i + 1 < |tau| && ladder[k + 1] == Phi(LooseToTight(tau)[i + 1], FewToMany(smc)[j]))
            || (j + 1 < |smc| && ladder[k + 1] == Phi(LooseToTight(tau)[i], FewToMany(smc)[j + 1]))
    ensures ladder[k + 1].tau <= ladder[k].tau && ladder[k].smc <= ladder[k + 1].smc
    ensures Distinct(tau) && Distinct(smc) ==>
              || (ladder[k + 1].tau == ladder[k].tau && ladder[k].smc < ladder[k + 1].smc)
              || (ladder[k + 1].smc == ladder[k].smc && ladder[k + 1].tau < ladder[k].tau)
  {
    LevelsSorted(tau, smc);
    var t, s := LooseToTight(tau), FewToMany(smc);
    j := SmcSteps(k, |tau| - 1, |smc| - 1);
    i := k - j;
    assert ladder[k] == Phi(t[i], s[j]);
    if SmcSteps(k + 1, |tau| - 1, |smc| - 1) == j {
      assert ladder[k + 1] == Phi(t[i + 1], s[j]);
    } else {
      assert ladder[k + 1] == Phi(t[i], s[j + 1]);
    }
  }

  ghost predicate StepwiseRefining(ladder: seq<Phi>) {
    forall k {:trigger ladder[k]} :: 0 <= k && k + 1 < |ladder| ==>
      || (ladder[k + 1].tau == ladder[k].tau && ladder[k].smc < ladder[k + 1].smc)
      || (ladder[k + 1].smc == ladder[k].smc && ladder[k + 1].tau < ladder[k].tau)
  }

  lemma {:induction false} RefiningIsMonotone(ladder: seq<Phi>, i: nat, j: nat)
    requires StepwiseRefining(ladder)
    requires i < j < |ladder|
    ensures ladder[j].tau <= ladder[i].tau && ladder[i].smc <= ladder[j].smc
    ensures ladder[i] != ladder[j]
    ensures ladder[i].smc == ladder[j].smc ==> ladder[j].tau < ladder[i].tau
    decreases j - i
  {
    if j == i + 1 {
      assert ladder[i] == ladder[i];
    } else {
      RefiningIsMonotone(ladder, i, j - 1);
      assert ladder[j - 1] == ladder[j - 1];
    }
  }

  /** With distinct levels the staircase never repeats a fidelity. */
  lemma StaircaseDistinct(ladder: seq<Phi>, tau: seq<nat>, smc: seq<nat>)
    requires IsStaircase(ladder, tau, smc)
    requires Distinct(tau) && Distinct(smc)
    ensures StepwiseRefining(ladder)
    ensures Distinct(ladder)
  {
    forall k {:trigger ladder[k]} | 0 <= k && k + 1 < |ladder|
      ensures || (ladder[k + 1].tau == ladder[k].tau && ladder[k].smc < ladder[k + 1].smc)
              || (ladder[k + 1].smc == ladder[k].smc && ladder[k + 1].tau < ladder[k].tau)
    {
      var _, _ := OneAxisPerStep(ladder, tau, smc, k);
    }
    forall i, j | 0 <= i < j < |ladder|
      ensures ladder[i] != ladder[j]
    {
      RefiningIsMonotone(ladder, i, j);
    }
  }

  /** As long as both axes have levels left, the ladder takes them in turn: first more samples at the same
      tolerance, then a tighter tolerance with the same samples. Then the longer axis goes on alone. */
  lemma AxesTakeTurns(ladder: seq<Phi>, tau: seq<nat>, smc: seq<nat>, n: nat)
    requires IsStaircase(ladder, tau, smc)
    ensures n < |tau| && n < |smc| ==> ladder[2 * n] == Phi(LooseToTight(tau)[n], FewToMany(smc)[n])
    ensures n < |tau| && n + 1 < |smc| ==> ladder[2 * n + 1] == Phi(LooseToTight(tau)[n], FewToMany(smc)[n + 1])
    ensures |smc| <= |tau| && |smc| - 1 <= n < |tau| ==>
              ladder[n + |smc| - 1] == Phi(LooseToTight(tau)[n], FewToMany(smc)[|smc| - 1])
    ensures |tau| <= |smc| && |tau| - 1 <= n < |smc| ==>
              ladder[n + |tau| - 1] == Phi(LooseToTight(tau)[|tau| - 1], FewToMany(smc)[n])
  {
  }

  // ---------------------------------------------------------------- paired checkpoints

  /** The later rungs with the sample size of `cur` and a tighter tolerance, in ladder order. */
  function PairedFrom(ladder: seq<Phi>, cur: Phi, j: nat): seq<nat>
    decreases |ladder| - j
  {
    if j >= |ladder| then []
    else if ladder[j].smc == cur.smc && ladder[j].tau < cur.tau then [j] + PairedFrom(ladder, cur, j + 1)
    else PairedFrom(ladder, cur, j + 1)
  }

  function CollectPairedPhiIndices(ladder: seq<Phi>, cutIdx: nat): seq<nat> {
    if cutIdx >= |ladder| then [] else PairedFrom(ladder, ladder[cutIdx], cutIdx + 1)
  }

  lemma {:induction false} PairedFromSpec(ladder: seq<Phi>, cur: Phi, j: nat)
    ensures var r := PairedFrom(ladder, cur, j);
            && Ascending(r)
            && forall k :: k in r <==> j <= k < |ladder| && ladder[k].smc == cur.smc && ladder[k].tau < cur.tau
    decreases |ladder| - j
  {
    if j < |ladder| {
      PairedFromSpec(ladder, cur, j + 1);
      var t := PairedFrom(ladder, cur, j + 1);
      assert forall i :: 0 <= i < |t| ==> t[i] in t;
    }
  }

  /** The paired checkpoints are exactly the later same-sample, tighter rungs, in ascending order. */
  lemma PairedSpec(ladder: seq<Phi>, cut: nat)
    requires cut < |ladder|
    ensures var r := CollectPairedPhiIndices(ladder, cut);
            && Ascending(r)
            && forall k :: k in r <==>
                 cut < k < |ladder| && ladder[k].smc == ladder[cut].smc && ladder[k].tau < ladder[cut].tau
  {
    PairedFromSpec(ladder, ladder[cut], cut + 1);
  }

  /** The first rung from `j` on whose sample size differs from `s`. */
  function BlockEnd(ladder: seq<Phi>, s: nat, j: nat): (e: nat)
    requires j <= |ladder|
    ensures j <= e <= |ladder|
    ensures forall k :: j <= k < e ==> ladder[k].smc == s
    ensures e < |ladder| ==> ladder[e].smc != s
    decreases |ladder| - j
  {
    if j == |ladder| || ladder[j].smc != s then j else BlockEnd(ladder, s, j + 1)
  }

  function Range(a: nat, b: nat): (r: seq<nat>)
    requires a <= b
    ensures |r| == b - a
    ensures forall i :: 0 <= i < |r| ==> r[i] == a + i
  {
    seq(b - a, i requires 0 <= i => a + i)
  }

  lemma {:induction false} AscendingSameSet(s: seq<nat>, t: seq<nat>)
    requires Ascending(s) && Ascending(t)
    requires forall k :: k in s <==> k in t
    ensures s == t
  {
    assert s != [] ==> s[0] in t;
    assert t != [] ==> t[0] in s;
    if s != [] {
      assert s[0] == t[0];
      assert s == [s[0]] + s[1..] && t == [t[0]] + t[1..];
      forall k
        ensures k in s[1..] <==> k in t[1..]
      {
        if k in s[1..] {
          assert k in s && k in t && k != s[0];
        }
        if k in t[1..] {
          assert k in t && k in s && k != t[0];
        }
      }
      AscendingSameSet(s[1..], t[1..]);
    }
  }

  lemma RangeMembers(a: nat, b: nat, k: nat)
    requires a <= b
    ensures k in Range(a, b) <==> a <= k < b
  {
    if a <= k < b {
      assert Range(a, b)[k - a] == k;
    }
  }

  lemma InBlockIff(ladder: seq<Phi>, cut: nat, k: nat)
    requires StepwiseRefining(ladder) && cut < k < |ladder|
    ensures k < BlockEnd(ladder, ladder[cut].smc, cut + 1)
       <==> ladder[k].smc == ladder[cut].smc && ladder[k].tau < ladder[cut].tau
  {
    var e := BlockEnd(ladder, ladder[cut].smc, cut + 1);
    RefiningIsMonotone(ladder, cut, k);
    if e <= k {
      RefiningIsMonotone(ladder, cut, e);
      if e < k {
        RefiningIsMonotone(ladder, e, k);
      }
    }
  }

  /** On a staircase with distinct levels, the checkpoints of a cut are the contiguous block of
      same-sample rungs right behind it. */
  lemma PairedIsNextBlock(ladder: seq<Phi>, cut: nat)
    requires StepwiseRefining(ladder)
    requires cut < |ladder|
    ensures CollectPairedPhiIndices(ladder, cut)
         == Range(cut + 1, BlockEnd(ladder, ladder[cut].smc, cut + 1))
  {
    var r := CollectPairedPhiIndices(ladder, cut);
    var e := BlockEnd(ladder, ladder[cut].smc, cut + 1);
    var b := Range(cut + 1, e);
    PairedSpec(ladder, cut);
    forall k: nat
      ensures k in r <==> k in b
    {
      RangeMembers(cut + 1, e, k);
      if cut < k < |ladder| {
        InBlockIff(ladder, cut, k);
      }
    }
    AscendingSameSet(r, b);
  }

  // ---------------------------------------------------------------- audit targets

  /** The first index above `current` in `s`, if any. */
  function FirstAbove(s: seq<nat>, current: nat): Option<nat> {
    if s == [] then None
    else if s[0] > current then Some(s[0])
    else FirstAbove(s[1..], current)
  }

  lemma {:induction false} FirstAboveSpec(s: seq<nat>, current: nat)
    requires Ascending(s)
    ensures match FirstAbove(s, current)
            case None => forall k :: k in s ==> k <= current
            case Some(i) => i in s && current < i && forall k :: k in s && current < k ==> i <= k
  {
    if s != [] {
      assert s == [s[0]] + s[1..];
      if s[0] <= current {
        FirstAboveSpec(s[1..], current);
      }
    }
  }
}
