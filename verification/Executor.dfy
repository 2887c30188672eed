/** Executing one work item against the two caches, and the sequential executor. */
module Executor {
  import opened Types
  import opened Arithmetic
  import opened Mesh
  import opened Estimation

  /** What an evaluation depends on besides its cache key. `fits` says which reals are finite
      floating-point numbers. */
  datatype World = World(ev: Evaluator, sqrt: real -> real, fits: real -> bool)

  type EvalMap = map<EvalCacheKey, Estimates>
  type DecisionMap = map<DecisionCacheKey, JobResult>

  ghost predicate WorldOk(w: World) {
    w.ev.numObjectives >= 1 && IsSqrt(w.sqrt)
  }

  /** The real coordinates of a mesh point, unless one of them overflows. */
  function ToReal(w: World, x: XMesh, baseSteps: seq<real>): Option<seq<real>> {
    var r := MeshToReal(x, baseSteps);
    if forall i :: 0 <= i < |r| ==> w.fits(r[i]) then Some(r) else None
  }

  /** What evaluating a cache key yields, whoever does it and whenever. */
  ghost function Compute(w: World, k: EvalCacheKey): Option<Estimates>
    requires w.ev.numObjectives >= 1
  {
    match ToReal(w, k.x, k.envRev.baseSteps)
    case None => None
    case Some(xr) => Estimated(w.ev, w.sqrt, xr, k.phi, k.envRev.env)
  }

  /** The cheap gate, as a function of the key parts. */
  function CheapOk(w: World, x: XMesh, rev: EnvRev): bool {
    match ToReal(w, x, rev.baseSteps)
    case None => false
    case Some(xr) => w.ev.cheapConstraints(xr, rev.env)
  }

  /** Estimates are well shaped: one objective at least, and no negative standard error. */
  ghost predicate EstimatesOk(e: Estimates) {
    && |e.cSe| == |e.cHat| && |e.fSe| == |e.fHat| && e.tauScale >= 0.0 && e.tauScale == e.phi.tau as real
    && (forall j :: 0 <= j < |e.cSe| ==> e.cSe[j] >= 0.0)
    && (forall i :: 0 <= i < |e.fSe| ==> e.fSe[i] >= 0.0)
  }

  lemma ComputedEstimatesOk(w: World, k: EvalCacheKey)
    requires WorldOk(w) && Compute(w, k).Some?
    ensures EstimatesOk(Compute(w, k).value) && Compute(w, k).value.phi == k.phi
  {
    hide ObjectiveColumn, ConstraintColumn, FiniteEvaluation, StdErr, Mean;
    var e := Compute(w, k).value;
    var xr := ToReal(w, k.x, k.envRev.baseSteps).value;
    var n := SampleCount(k.phi);
    forall j | 0 <= j < |e.cSe|
      ensures e.cSe[j] >= 0.0
    {
      StdErrNonNegative(ConstraintColumn(w.ev, xr, k.phi, k.envRev.env, j, n), w.sqrt);
    }
    forall i | 0 <= i < |e.fSe|
      ensures e.fSe[i] >= 0.0
    {
      StdErrNonNegative(ObjectiveColumn(w.ev, xr, k.phi, k.envRev.env, i, n), w.sqrt);
    }
  }

  // ---------------------------------------------------------------- keys and answers

  function TagFor(phiIdx: nat, ladderLen: nat): CacheTag {
    if phiIdx + 1 == ladderLen then TruthTag else PartialTag
  }

  function DKey(wi: WorkItem, ladderLen: nat): DecisionCacheKey {
    DecisionCacheKey(wi.x, wi.phi, wi.envRev, wi.policyRev, TagFor(wi.phiIdx, ladderLen))
  }

  function EKey(wi: WorkItem): EvalCacheKey {
    EvalCacheKey(wi.x, wi.phi, wi.envRev)
  }

  function EKeyOf(k: DecisionCacheKey): EvalCacheKey {
    EvalCacheKey(k.x, k.phi, k.envRev)
  }

  /** The verdict on a point that cannot be evaluated; a failed conversion costs nothing. */
  function InvalidResult(w: World, x: XMesh, phi: Phi, rev: EnvRev, policyRev: nat): JobResult {
    RejectedInvalidEval(EvalMeta(phi, rev, policyRev, if ToReal(w, x, rev.baseSteps).None? then 0.0 else 1.0))
  }

  function InvalidFor(w: World, wi: WorkItem): JobResult {
    InvalidResult(w, wi.x, wi.phi, wi.envRev, wi.policyRev)
  }

  datatype WorkOutcome = WorkOutcome(
    item: WorkItem,
    cachedDecision: Option<JobResult>,
    estimates: Option<Estimates>,
    runtimeCost: real,
    hitDecisionCache: bool,
    hitEvalCache: bool,
    didCompute: bool)

  /** The part of an outcome that later decisions are made from. */
  datatype Answer = Known(result: JobResult) | Measured(est: Estimates) | NoAnswer

  function AnswerOf(o: WorkOutcome): Answer {
    if o.cachedDecision.Some? then Known(o.cachedDecision.value)
    else if o.estimates.Some? then Measured(o.estimates.value)
    else NoAnswer
  }

  /** The answer an item must get: a stored decision, or what its evaluation yields. */
  ghost function Denote(w: World, dc: DecisionMap, wi: WorkItem, ladderLen: nat): Answer
    requires w.ev.numObjectives >= 1
  {
    if DKey(wi, ladderLen) in dc then Known(dc[DKey(wi, ladderLen)])
    else
      match Compute(w, EKey(wi))
      case Some(e) => Measured(e)
      case None => Known(InvalidFor(w, wi))
  }

  /** Every cached estimate is what evaluating its key yields. */
  ghost predicate CoherentEval(w: World, ec: EvalMap)
    requires w.ev.numObjectives >= 1
  {
    forall k :: k in ec ==> Compute(w, k) == Some(ec[k])
  }

  ghost predicate OutcomeOk(w: World, dc: DecisionMap, wi: WorkItem, ladderLen: nat, o: WorkOutcome)
    requires w.ev.numObjectives >= 1
  {
    o.item == wi && AnswerOf(o) == Denote(w, dc, wi, ladderLen)
  }

  // ---------------------------------------------------------------- what a batch leaves in the caches

  ghost function EvalGain(w: World, dc: DecisionMap, items: seq<WorkItem>, ladderLen: nat, done: set<nat>): EvalMap
    requires w.ev.numObjectives >= 1
  {
    map i | i in done && i < |items| && DKey(items[i], ladderLen) !in dc && Compute(w, EKey(items[i])).Some?
      :: EKey(items[i]) := Compute(w, EKey(items[i])).value
  }

  ghost function DecisionGain(w: World, dc: DecisionMap, items: seq<WorkItem>, ladderLen: nat,
                              done: set<nat>): DecisionMap
    requires w.ev.numObjectives >= 1
  {
    map i | i in done && i < |items| && DKey(items[i], ladderLen) !in dc && Compute(w, EKey(items[i])).None?
      :: DKey(items[i], ladderLen) := InvalidFor(w, items[i])
  }

  lemma GainsOfNothing(w: World, dc: DecisionMap, items: seq<WorkItem>, ladderLen: nat)
    requires w.ev.numObjectives >= 1
    ensures EvalGain(w, dc, items, ladderLen, {}) == map[] && DecisionGain(w, dc, items, ladderLen, {}) == map[]
  {
  }

  /** One more executed item adds exactly its own contribution. */
  lemma GainsGrow(w: World, dc: DecisionMap, items: seq<WorkItem>, ladderLen: nat, done: set<nat>, i: nat)
    requires w.ev.numObjectives >= 1 && i < |items|
    ensures var k, e := DKey(items[i], ladderLen), EKey(items[i]);
      EvalGain(w, dc, items, ladderLen, done + {i})
      == if k !in dc && Compute(w, e).Some? then EvalGain(w, dc, items, ladderLen, done)[e := Compute(w, e).value]
         else EvalGain(w, dc, items, ladderLen, done)
    ensures var k, e := DKey(items[i], ladderLen), EKey(items[i]);
      DecisionGain(w, dc, items, ladderLen, done + {i})
      == if k !in dc && Compute(w, e).None?
         then DecisionGain(w, dc, items, ladderLen, done)[k := InvalidFor(w, items[i])]
         else DecisionGain(w, dc, items, ladderLen, done)
  {
    hide Compute;
    EvalGainGrows(w, dc, items, ladderLen, done, i);
    DecisionGainGrows(w, dc, items, ladderLen, done, i);
  }

  lemma EvalGainGrows(w: World, dc: DecisionMap, items: seq<WorkItem>, ladderLen: nat, done: set<nat>, i: nat)
    requires w.ev.numObjectives >= 1 && i < |items|
    ensures EvalGain(w, dc, items, ladderLen, done + {i})
         == if DKey(items[i], ladderLen) !in dc && Compute(w, EKey(items[i])).Some?
            then EvalGain(w, dc, items, ladderLen, done)[EKey(items[i]) := Compute(w, EKey(items[i])).value]
            else EvalGain(w, dc, items, ladderLen, done)
  {
    hide Compute, DKey, EKey;
  }

  lemma DecisionGainGrows(w: World, dc: DecisionMap, items: seq<WorkItem>, ladderLen: nat, done: set<nat>, i: nat)
    requires w.ev.numObjectives >= 1 && i < |items|
    ensures DecisionGain(w, dc, items, ladderLen, done + {i})
         == if DKey(items[i], ladderLen) !in dc && Compute(w, EKey(items[i])).None?
            then DecisionGain(w, dc, items, ladderLen, done)[DKey(items[i], ladderLen) := InvalidFor(w, items[i])]
            else DecisionGain(w, dc, items, ladderLen, done)
  {
    hide Compute, EKey, InvalidResult;
  }

  // ---------------------------------------------------------------- caches

  class MemoryEvalCache {
    var inner: EvalMap

    constructor ()
      ensures inner == map[]
    {
      inner := map[];
    }

    method Get(key: EvalCacheKey) returns (r: Option<Estimates>)
      ensures r == if key in inner then Some(inner[key]) else None
    {
      r := if key in inner then Some(inner[key]) else None;
    }

    method Put(key: EvalCacheKey, value: Estimates)
      modifies this
      ensures inner == old(inner)[key := value]
    {
      inner := inner[key := value];
    }
  }

  class MemoryDecisionCache {
    var inner: DecisionMap

    constructor ()
      ensures inner == map[]
    {
      inner := map[];
    }

    method Get(key: DecisionCacheKey) returns (r: Option<JobResult>)
      ensures r == if key in inner then Some(inner[key]) else None
    {
      r := if key in inner then Some(inner[key]) else None;
    }

    method Put(key: DecisionCacheKey, value: JobResult)
      modifies this
      ensures inner == old(inner)[key := value]
    {
      inner := inner[key := value];
    }
  }

  // ---------------------------------------------------------------- one item

  /** What executing one item adds to the evaluation cache. */
  ghost function EvalAfter(w: World, ec: EvalMap, dc: DecisionMap, wi: WorkItem, ladderLen: nat): EvalMap
    requires w.ev.numObjectives >= 1
  {
    if DKey(wi, ladderLen) !in dc && Compute(w, EKey(wi)).Some? then ec[EKey(wi) := Compute(w, EKey(wi)).value] else ec
  }

  /** What executing one item adds to the decision cache. */
  ghost function DecisionAfter(w: World, dc: DecisionMap, wi: WorkItem, ladderLen: nat): DecisionMap
    requires w.ev.numObjectives >= 1
  {
    if DKey(wi, ladderLen) !in dc && Compute(w, EKey(wi)).None?
    then dc[DKey(wi, ladderLen) := InvalidFor(w, wi)]
    else dc
  }

  method ExecuteOne(w: World, wi: WorkItem, ladderLen: nat, ec: MemoryEvalCache, dc: MemoryDecisionCache)
    returns (out: WorkOutcome)
    requires WorldOk(w) && CoherentEval(w, ec.inner)
    modifies ec, dc
    ensures OutcomeOk(w, old(dc.inner), wi, ladderLen, out)
    ensures out.hitDecisionCache <==> DKey(wi, ladderLen) in old(dc.inner)
    ensures out.hitEvalCache <==> DKey(wi, ladderLen) !in old(dc.inner) && EKey(wi) in old(ec.inner)
    ensures out.didCompute <==> !out.hitDecisionCache && !out.hitEvalCache && ToReal(w, wi.x, wi.envRev.baseSteps).Some?
    ensures out.runtimeCost == if out.didCompute then 1.0 else 0.0
    ensures ec.inner == EvalAfter(w, old(ec.inner), old(dc.inner), wi, ladderLen)
    ensures dc.inner == DecisionAfter(w, old(dc.inner), wi, ladderLen)
    ensures CoherentEval(w, ec.inner)
  {
    hide FiniteEvaluation, Estimated;
    var dkey := DKey(wi, ladderLen);
    var decision := dc.Get(dkey);
    if decision.Some? {
      return WorkOutcome(wi, decision, None, 0.0, true, false, false);
    }
    var ekey := EKey(wi);
    var cached := ec.Get(ekey);
    if cached.Some? {
      return WorkOutcome(wi, None, cached, 0.0, false, true, false);
    }
    var xr := ToReal(w, wi.x, wi.envRev.baseSteps);
    if xr.None? {
      var jr := RejectedInvalidEval(EvalMeta(wi.phi, wi.envRev, wi.policyRev, 0.0));
      dc.Put(dkey, jr);
      return WorkOutcome(wi, Some(jr), None, 0.0, false, false, false);
    }
    var est := ComputeEstimates(w.ev, w.sqrt, xr.value, wi.phi, wi.envRev.env);
    if est.None? {
      var jr := RejectedInvalidEval(EvalMeta(wi.phi, wi.envRev, wi.policyRev, 1.0));
      dc.Put(dkey, jr);
      return WorkOutcome(wi, Some(jr), None, 1.0, false, false, true);
    }
    ec.Put(ekey, est.value);
    return WorkOutcome(wi, None, est, 1.0, false, false, true);
  }

  // ---------------------------------------------------------------- batches

  /** One outcome per item, in submission order, with the answer fixed by the starting caches. */
  ghost predicate BatchOk(w: World, dc: DecisionMap, items: seq<WorkItem>, ladderLen: nat, outs: seq<WorkOutcome>)
    requires w.ev.numObjectives >= 1
  {
    |outs| == |items| && forall i :: 0 <= i < |items| ==> OutcomeOk(w, dc, items[i], ladderLen, outs[i])
  }

  ghost function UpTo(n: nat): (r: set<nat>)
    ensures forall i: nat :: i in r <==> i < n
    ensures |r| == n
  {
    if n == 0 then {} else UpTo(n - 1) + {n - 1}
  }

  /** The caches a batch leaves behind, whatever order its items run in. */
  ghost function EvalAfterBatch(w: World, ec: EvalMap, dc: DecisionMap, items: seq<WorkItem>, ladderLen: nat): EvalMap
    requires w.ev.numObjectives >= 1
  {
    ec + EvalGain(w, dc, items, ladderLen, UpTo(|items|))
  }

  ghost function DecisionAfterBatch(w: World, dc: DecisionMap, items: seq<WorkItem>, ladderLen: nat): DecisionMap
    requires w.ev.numObjectives >= 1
  {
    dc + DecisionGain(w, dc, items, ladderLen, UpTo(|items|))
  }

  /** Entries gained by other items of the batch change neither the answer of an item nor what it
      contributes: an answer found in the gain is the one the item would have computed. */
  lemma GainIsInvisible(w: World, dc: DecisionMap, items: seq<WorkItem>, ladderLen: nat, done: set<nat>, i: nat)
    requires w.ev.numObjectives >= 1 && i < |items|
    ensures Denote(w, dc + DecisionGain(w, dc, items, ladderLen, done), items[i], ladderLen)
         == Denote(w, dc, items[i], ladderLen)
  {
    hide Compute;
    var k := DKey(items[i], ladderLen);
    var gain := DecisionGain(w, dc, items, ladderLen, done);
    if k in gain {
      var j :| && j in done && j < |items| && DKey(items[j], ladderLen) == k && k !in dc
               && Compute(w, EKey(items[j])).None?;
      assert EKey(items[j]) == EKey(items[i]);
      assert gain[k] == InvalidFor(w, items[j]) == InvalidFor(w, items[i]);
    }
  }

  lemma GainCoherent(w: World, ec: EvalMap, dc: DecisionMap, items: seq<WorkItem>, ladderLen: nat, done: set<nat>)
    requires w.ev.numObjectives >= 1 && CoherentEval(w, ec)
    ensures CoherentEval(w, ec + EvalGain(w, dc, items, ladderLen, done))
  {
    hide Compute;
  }

  lemma AddToMap<K, V>(a: map<K, V>, b: map<K, V>, k: K, v: V)
    ensures (a + b)[k := v] == a + b[k := v]
  {
  }

  lemma KnownEntry<K, V>(a: map<K, V>, k: K, v: V)
    requires k in a && a[k] == v
    ensures a[k := v] == a
  {
  }

  /** Executing item `i` on caches that hold the gains of `done` yields the gains of `done + {i}`. */
  lemma ExecutionExtendsGains(w: World, ec: EvalMap, dc: DecisionMap, items: seq<WorkItem>, ladderLen: nat,
                              done: set<nat>, i: nat)
    requires w.ev.numObjectives >= 1 && i < |items|
    ensures EvalAfter(w, ec + EvalGain(w, dc, items, ladderLen, done),
                      dc + DecisionGain(w, dc, items, ladderLen, done), items[i], ladderLen)
         == ec + EvalGain(w, dc, items, ladderLen, done + {i})
    ensures DecisionAfter(w, dc + DecisionGain(w, dc, items, ladderLen, done), items[i], ladderLen)
         == dc + DecisionGain(w, dc, items, ladderLen, done + {i})
  {
    hide Compute, EvalGain, DecisionGain, InvalidResult, DKey, EKey;
    GainsGrow(w, dc, items, ladderLen, done, i);
    var k, e := DKey(items[i], ladderLen), EKey(items[i]);
    var gain := DecisionGain(w, dc, items, ladderLen, done);
    if k in gain {
      GainedKeyIsInvalid(w, dc, items, ladderLen, done, i);
      KnownEntry(gain, k, InvalidFor(w, items[i]));
    } else if k !in dc {
      if Compute(w, e).Some? {
        AddToMap(ec, EvalGain(w, dc, items, ladderLen, done), e, Compute(w, e).value);
      } else {
        AddToMap(dc, gain, k, InvalidFor(w, items[i]));
      }
    }
  }

  lemma GainedKeyIsInvalid(w: World, dc: DecisionMap, items: seq<WorkItem>, ladderLen: nat, done: set<nat>, i: nat)
    requires w.ev.numObjectives >= 1 && i < |items|
    requires DKey(items[i], ladderLen) in DecisionGain(w, dc, items, ladderLen, done)
    ensures DKey(items[i], ladderLen) !in dc && Compute(w, EKey(items[i])).None?
    ensures DecisionGain(w, dc, items, ladderLen, done)[DKey(items[i], ladderLen)] == InvalidFor(w, items[i])
  {
    hide Compute;
    var k := DKey(items[i], ladderLen);
    var j :| j in done && j < |items| && DKey(items[j], ladderLen) == k && k !in dc && Compute(w, EKey(items[j])).None?;
    assert EKey(items[j]) == EKey(items[i]);
  }

  lemma GainKeepsOutcome(w: World, dc: DecisionMap, items: seq<WorkItem>, ladderLen: nat, done: set<nat>, i: nat,
                         o: WorkOutcome)
    requires w.ev.numObjectives >= 1 && i < |items|
    requires OutcomeOk(w, dc + DecisionGain(w, dc, items, ladderLen, done), items[i], ladderLen, o)
    ensures OutcomeOk(w, dc, items[i], ladderLen, o)
  {
    hide Denote, DecisionGain, AnswerOf;
    GainIsInvisible(w, dc, items, ladderLen, done, i);
  }

  lemma NothingUpTo()
    ensures UpTo(0) == {}
  {
  }

  lemma NextUpTo(i: nat)
    ensures UpTo(i + 1) == UpTo(i) + {i}
  {
  }

  /** The sequential executor. */
  method InlineRunBatch(w: World, items: seq<WorkItem>, ladderLen: nat, ec: MemoryEvalCache, dc: MemoryDecisionCache)
    returns (outs: seq<WorkOutcome>)
    requires WorldOk(w) && CoherentEval(w, ec.inner)
    modifies ec, dc
    ensures BatchOk(w, old(dc.inner), items, ladderLen, outs)
    ensures ec.inner == EvalAfterBatch(w, old(ec.inner), old(dc.inner), items, ladderLen)
    ensures dc.inner == DecisionAfterBatch(w, old(dc.inner), items, ladderLen)
    ensures CoherentEval(w, ec.inner)
  {
    hide Compute, EvalGain, DecisionGain, Denote, OutcomeOk, EvalAfter, DecisionAfter, InvalidResult, DKey, EKey,
      CoherentEval, ToReal, UpTo;
    outs := [];
    ghost var ec0, dc0 := ec.inner, dc.inner;
    GainsOfNothing(w, dc0, items, ladderLen);
    NothingUpTo();
    for i := 0 to |items|
      invariant |outs| == i && CoherentEval(w, ec.inner)
      invariant forall k :: 0 <= k < i ==> OutcomeOk(w, dc0, items[k], ladderLen, outs[k])
      invariant ec.inner == ec0 + EvalGain(w, dc0, items, ladderLen, UpTo(i))
      invariant dc.inner == dc0 + DecisionGain(w, dc0, items, ladderLen, UpTo(i))
    {
      ExecutionExtendsGains(w, ec0, dc0, items, ladderLen, UpTo(i), i);
      NextUpTo(i);
      var out := ExecuteOne(w, items[i], ladderLen, ec, dc);
      GainKeepsOutcome(w, dc0, items, ladderLen, UpTo(i), i, out);
      outs := outs + [out];
    }
  }
}
