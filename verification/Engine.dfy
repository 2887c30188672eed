/** The engine's run: candidates are proposed, executed one fidelity step at a time in batches, and
    processed at a barrier; policies change only at batch boundaries. */
module Engine {
  import opened Types
  import opened Sorting
  import Arithmetic
  import opened Mesh
  import opened Ladder
  import opened Margin
  import opened Acceptance
  import opened Calibration
  import Calibrator
  import Dids
  import opened Executor
  import opened Lifecycle
  import opened StepLaws
  import opened Store
  import opened EngineLog
  import opened Tracks
  import opened Audits

  datatype RawCandidate = RawCandidate(id: nat, x: seq<real>)

  /** The part of the configuration that the run reads; levels and base steps are resolved. */
  datatype EngineConfig = EngineConfig(
    numConstraints: nat,
    tauLevels: seq<nat>,
    smcLevels: seq<nat>,
    baseSteps: seq<real>,
    meshMulInit: int,
    meshMulMin: int,
    meshRefineDiv: int,
    pollStepMult: int,
    calib: Calibrator.CalibratorConfig,
    accept: AcceptanceConfig,
    prune: PruneConfig,
    boundary: nat,
    maxStepsPerIter: Option<nat>)
  {
    ghost predicate Ok() {
      && tauLevels != [] && smcLevels != []
      && (forall i :: 0 <= i < |baseSteps| ==> baseSteps[i] > 0.0)
      && calib.deltaMin <= calib.deltaMax
    }

    /** The mesh built from the configuration contains every later one. */
    ghost predicate MeshNested() {
      baseSteps == [] || ChainNested(MaxInt(meshMulInit, 1), MaxInt(meshMulMin, 1), MaxInt(meshRefineDiv, 2))
    }
  }

  /** Identifiers of poll points have the high bit set. */
  function PollId(iter: nat, d: nat): nat {
    0x8000_0000_0000_0000 + iter * 0x1_0000_0000 + d
  }

  /** Proposals have the dimension of the search. */
  predicate Fitting(raw: seq<RawCandidate>, dim: nat) {
    forall i :: 0 <= i < |raw| ==> |raw[i].x| == dim
  }

  /** The candidate is a proposal moved to the nearest mesh point. */
  ghost predicate Snapped(raw: seq<RawCandidate>, c: Candidate, baseSteps: seq<real>, muls: seq<int>) {
    exists k :: 0 <= k < |raw| && c.id == raw[k].id && |raw[k].x| == |baseSteps| == |muls|
                && (forall i :: 0 <= i < |baseSteps| ==> baseSteps[i] > 0.0)
                && c.x == QuantizedAll(raw[k].x, baseSteps, muls)
  }

  /** The point is stored under `id`, unless the id was known before. */
  predicate Placed(cands: seq<Candidate>, index: Index, known: Index, id: nat, x: XMesh) {
    id in index && (id in known || (index[id] < |cands| && cands[index[id]].x == x))
  }

  /** Every poll point is stored under its id, unless the id was known before. */
  predicate AllPlaced(cands: seq<Candidate>, index: Index, known: Index, iter: nat, center: XMesh, steps: seq<int>) {
    forall d :: 0 <= d < 2 * |center| ==> Placed(cands, index, known, PollId(iter, d), PollPoint(center, steps, d))
  }

  /** Among the first `n` poll points a new one does not fit the mesh. */
  predicate StraysBelow(iter: nat, known: Index, center: XMesh, steps: seq<int>, muls: seq<int>, n: nat) {
    n > 0
    && (StraysBelow(iter, known, center, steps, muls, n - 1)
        || (PollId(iter, n - 1) !in known && n <= 2 * |center| && !PollFits(center, steps, muls, n - 1)))
  }

  predicate Strays(iter: nat, known: Index, center: XMesh, steps: seq<int>, muls: seq<int>) {
    StraysBelow(iter, known, center, steps, muls, 2 * |center|)
  }

  predicate Pickable(cands: seq<Candidate>, index: Index, id: nat) {
    id in index && index[id] < |cands| && cands[index[id]].status == Ready
  }

  /** The polls and best points so far, the barrier and the mesh. */
  datatype Standing = Standing(polls: nat, incumbentId: nat, h: real, muls: seq<int>)

  /** An iteration from `a` to `b` ends by what it did: barrier and mesh move exactly if it polled and found no
      better point. */
  predicate EndsBy(a: Standing, b: Standing, end: Op, acfg: AcceptanceConfig, mulMin: int, div: int) {
    var polled, improved := b.polls > a.polls, b.incumbentId > a.incumbentId;
    && end == IterationEnd(polled, improved)
    && b.h == (if polled && !improved then Max(a.h * Clamp(acfg.hShrink, 0.0, 1.0), Max(acfg.hMin, 0.0)) else a.h)
    && b.muls == if polled && !improved then RefinedAll(a.muls, mulMin, div) else a.muls
  }

  /** The first `n` poll ids are known. */
  predicate PollKnown(index: Index, iter: nat, n: nat) {
    forall d :: 0 <= d < n ==> PollId(iter, d) in index
  }

  /** What a dispatch of the items makes of a candidate. */
  function TakenOff(work: seq<WorkItem>, c: Candidate, policyRev: nat, incumbentId: nat): Candidate {
    if c.id in IdsOf(work) then Dispatched(c, policyRev, incumbentId) else c
  }

  /** The entry of an outcome in the assignment history. */
  function RecordOf(item: WorkItem, r: JobResult): Dids.DidsRecord {
    Dids.DidsRecord(item.x, item.phi, item.phiIdx, Dids.TagOf(r).0, Dids.TagOf(r).1)
  }

  /** The records of a log. */
  function RecordsOf(log: seq<Decision>): (r: seq<Dids.DidsRecord>)
    ensures |r| == |log|
  {
    seq(|log|, i requires 0 <= i < |log| => RecordOf(log[i].item, log[i].result))
  }

  lemma OneMoreRecord(log: seq<Decision>, d: Decision, cap: nat)
    requires cap >= 1
    ensures Dids.Recent(Dids.Recent(RecordsOf(log), cap) + [RecordOf(d.item, d.result)], cap)
         == Dids.Recent(RecordsOf(log + [d]), cap)
  {
    assert RecordsOf(log + [d]) == RecordsOf(log) + [RecordOf(d.item, d.result)];
  }

  /** Poll points of different iterations or directions have different ids, as long as there are fewer than 2^32
      directions, and their ids are not below 2^63. */
  lemma PollIdsAreDistinct(iter1: nat, d1: nat, iter2: nat, d2: nat)
    requires d1 < 0x1_0000_0000 && d2 < 0x1_0000_0000
    ensures PollId(iter1, d1) >= 0x8000_0000_0000_0000
    ensures PollId(iter1, d1) == PollId(iter2, d2) ==> iter1 == iter2 && d1 == d2
  {
  }

  predicate LeEvent(a: CalibEvent, b: CalibEvent) {
    a.id <= b.id
  }

  class EngineRun {
    const world: World
    const env: Env
    const ladder: seq<Phi>
    const cfg: EngineConfig
    const shouldAudit: (XMesh, Phi, EnvRev) -> bool
    const ec: MemoryEvalCache
    const dc: MemoryDecisionCache
    const calibrator: Calibrator.DeltaKCalibrator
    const dids: Dids.DefaultDids
    const accept: DefaultAcceptance
    const geo: AnisotropicMeshGeometry

    var cands: seq<Candidate>
    var index: Index
    var policyRev: nat
    var assignment: seq<nat>
    var incumbentId: nat
    var xBest: Option<XMesh>
    var fBest: Option<Objectives>

    /** The decision cache that the run started from. */
    ghost const start: DecisionMap
    /** Some poll point was stored whose step did not fit the mesh. */
    ghost var strayed: bool
    ghost var policies: map<nat, Policy>
    ghost var log: seq<Decision>
    /** The history of every candidate. */
    ghost var tracks: TrackMap
    /** How often poll points were added. */
    ghost var polls: nat
    /** What the calibrator has heard, in the order it was booked. */
    ghost var heard: seq<CalibEvent>
    ghost var ops: seq<Op>
    /** The mesh at the start of the run. */
    ghost const startMuls: seq<int>

    function Rev(): EnvRev {
      EnvRev(env, geo.baseSteps)
    }

    function CurrentPolicy(): Policy
      reads this`assignment, calibrator
    {
      Policy(calibrator.Policy(), assignment)
    }

    function Shared(): Setting {
      Setting(world, Rev(), ladder, cfg.prune)
    }

    ghost predicate Configured() {
      WorldOk(world) && ladder != []
    }

    /** Candidates and index are in order and on the mesh, every candidate has the history that the log tells,
        and the step budget holds. */
    ghost predicate StockOk()
      reads this`cands, this`index, this`xBest, this`log, this`tracks, this`strayed, geo
    {
      Stocked(cands, index, xBest, log, tracks, strayed)
    }

    ghost predicate Stocked(cands: seq<Candidate>, index: Index, xBest: Option<XMesh>, log: seq<Decision>,
                            tracks: TrackMap, strayed: bool)
      reads geo
    {
      && geo.Valid()
      && StoreOk(world, Rev(), ladder, cands, index)
      && TracksOk(Shared(), cands, index, log, tracks)
      && (cfg.MeshNested() && !strayed ==> OnMeshAll(geo.meshMuls, geo.meshMulMin, geo.refineDiv, cands, xBest))
      && WithinBudget(|log|, cands, |ladder|)
    }

    /** The policies in force are the published ones, and revisions identify policies. */
    ghost predicate PolicyOk()
      reads this`policies, this`policyRev, this`assignment, this`heard, calibrator, dids`assignment
    {
      && calibrator.Valid() && Tuned() && HeardOk()
      && assignment == dids.assignment
      && OutcomesDisjoint(calibrator.Book())
      && RevisionsOk(policies, policyRev, CurrentPolicy())
      && (cfg.calib.deltaMin >= 0.0 ==> forall r :: r in policies ==> NonNegative(policies[r].th))
    }

    /** The calibrator runs under the configuration of the run. */
    ghost predicate Tuned()
      reads calibrator`dcfg, calibrator`kcfg
    {
      && calibrator.dcfg == Calibrator.DeltaConfig(cfg.calib.targetFalse, cfg.calib.minAudits, cfg.calib.etaDelta,
                                                   cfg.calib.deltaMin, cfg.calib.deltaMax)
      && calibrator.kcfg.window == MaxInt(cfg.calib.kWindow, 1)
      && calibrator.kcfg.minPairs == MinInt(MaxInt(cfg.calib.kMinPairs, 1), MaxInt(cfg.calib.kWindow, 1))
      && calibrator.kcfg.quantile == Clamp(cfg.calib.kQuantile, 0.0, 1.0)
      && calibrator.kcfg.eta == Clamp(cfg.calib.kEta, 0.0, 1.0)
    }

    function NewLedger(): Ledger {
      Ledger(Fill(cfg.numConstraints, NO_COUNTS), map[])
    }

    /** The ledger holds what was heard, from nothing on, and the counters are shown. */
    ghost predicate HeardOk()
      reads this`heard, calibrator`counts, calibrator`pending, calibrator`shown
    {
      calibrator.Book() == BookedAll(NewLedger(), heard) && calibrator.shown == calibrator.counts
    }

    /** The assignment in force is the one for the evidence at hand. */
    ghost predicate AssignmentOk()
      reads this`assignment, calibrator, dids
    {
      && |assignment| == dids.m == cfg.numConstraints
      && forall j :: 0 <= j < |assignment| ==>
           var l := MaxInt(|ladder|, 1);
           assignment[j] == Dids.AssignmentOf(dids.CutsOf(j, l), calibrator.State(), j, l, dids.deltaBaseline, dids.num)
    }

    /** The audits pending with the calibrator are those of the candidates. */
    ghost predicate AuditsOk()
      reads this`cands, this`index, calibrator`counts, calibrator`pending
    {
      AuditsMatch(world, Rev(), ladder, cands, index, calibrator.Book())
    }

    /** Caches, log and best point are in order. */
    ghost predicate RecordOk()
      reads this`policies, this`log, this`ops, this`xBest, this`fBest, this`incumbentId, ec, dc, accept,
            dids`records, dids`maxRecords
    {
      && WorldOk(world) && dids.records == Dids.Recent(RecordsOf(log), MaxInt(dids.maxRecords, 1))
      && ContextsOk(cfg.prune, shouldAudit, log) && BestOf(log) == Best(xBest, fBest, incumbentId)
      && CachesOk(world, ladder, start, policies, ec.inner, dc.inner)
      && LogOk(world, Rev(), ladder, start, policies, log)
      && BestOk(accept.cfg, ops, log, accept.State(), xBest, fBest)
    }

    /** The mesh has been refined exactly at the failed polls. */
    ghost predicate MeshInStep()
      reads this`ops, geo
    {
      geo.meshMuls == MeshAfter(startMuls, geo.meshMulMin, geo.refineDiv, Ends(ops))
    }

    ghost predicate Valid()
      reads this, ec, dc, calibrator, dids, accept, geo
    {
      Configured() && StockOk() && PolicyOk() && RecordOk() && MeshInStep() && AuditsOk() && AssignmentOk()
    }

    /** Where the run stands. */
    ghost function Here(): Standing
      reads this`polls, this`incumbentId, accept`h, geo`meshMuls
    {
      Standing(polls, incumbentId, accept.h, geo.meshMuls)
    }

    /** Resets the policies, builds ladder, mesh and barrier, and computes the first assignment. The caches
        come from outside, with whatever earlier runs left in them. */
    constructor (world: World, env: Env, cfg: EngineConfig, shouldAudit: (XMesh, Phi, EnvRev) -> bool,
                 ec: MemoryEvalCache, dc: MemoryDecisionCache,
                 calibrator: Calibrator.DeltaKCalibrator, dids: Dids.DefaultDids)
      requires WorldOk(world) && cfg.Ok() && calibrator.Valid()
      requires CoherentEval(world, ec.inner) && DecisionsOk(world, dc.inner)
      modifies calibrator, dids
      ensures this.world == world && this.env == env && this.cfg == cfg
      ensures this.ec == ec && this.dc == dc && this.calibrator == calibrator && this.dids == dids
      ensures fresh(accept) && fresh(geo) && accept.cfg == cfg.accept && geo.baseSteps == cfg.baseSteps
      ensures IsStaircase(ladder, cfg.tauLevels, cfg.smcLevels)
      ensures start == dc.inner && (Distinct(cfg.tauLevels) && Distinct(cfg.smcLevels) ==> Distinct(ladder))
      ensures geo.meshMuls == startMuls == Fill(|cfg.baseSteps|, MaxInt(cfg.meshMulInit, 1))
      ensures geo.meshMulMin == MaxInt(cfg.meshMulMin, 1) && geo.refineDiv == MaxInt(cfg.meshRefineDiv, 2)
      ensures geo.pollStepMult == MaxInt(cfg.pollStepMult, 1)
      ensures cfg.MeshNested() <==> AllNested(geo.meshMuls, geo.meshMulMin, geo.refineDiv)
      ensures log == [] && ops == [] && cands == [] && policyRev == 0 && polls == 0 && heard == [] && !strayed
      ensures Unlearned() && dids.records == []
      ensures Valid()
    {
      hide Rung, DecisionsOk, Distinct, PolicyOk, StockOk, RecordOk, AllNested, CoherentEval, WorldOk,
        Calibrator.DeltaKCalibrator.Valid, MeshInStep, InitialBarrier, ChainNested, EngineConfig.MeshNested;
      ConfiguredMesh(cfg);
      var rungs := BuildLadder(cfg.tauLevels, cfg.smcLevels);
      LadderOf(rungs, cfg);
      hide IsStaircase;
      var barrier := new DefaultAcceptance(cfg.accept);
      var mesh := new AnisotropicMeshGeometry(
        cfg.baseSteps, cfg.meshMulInit, cfg.meshMulMin, cfg.meshRefineDiv, cfg.pollStepMult);
      this.world, this.env, this.cfg, this.shouldAudit := world, env, cfg, shouldAudit;
      this.ec, this.dc, this.calibrator, this.dids := ec, dc, calibrator, dids;
      ladder, accept, geo := rungs, barrier, mesh;
      cands, index, incumbentId, xBest, fBest := [], map[], 0, None, None;
      start := dc.inner;
      startMuls := mesh.meshMuls;
      strayed, policies, log, ops, tracks, polls, heard := false, map[], [], [], map[], 0, [];
      policyRev, assignment := 0, [];
      new;
      ResetPolicies();
      NothingYet();
      NothingAudited(world, Rev(), ladder, calibrator.counts);
    }

    lemma NothingYet()
      requires Configured() && geo.Valid() && cands == [] && index == map[] && xBest.None? && fBest.None?
      requires log == [] && ops == [] && geo.meshMuls == startMuls && incumbentId == 0 && dids.records == []
      requires cfg.MeshNested() ==> AllNested(geo.meshMuls, geo.meshMulMin, geo.refineDiv)
      requires accept.State() == AcceptState(InitialBarrier(accept.cfg), [], None)
      requires CoherentEval(world, ec.inner) && DecisionsOk(world, dc.inner) && dc.inner == start
      ensures StockOk() && RecordOk() && MeshInStep()
    {
      hide EntryOk, Distinct, CandidateOk, AllNested, CoherentEval, WorldOk, EngineConfig.MeshNested;
    }

    /** Forgets what earlier runs taught the policies, and computes the first assignment. */
    method ResetPolicies()
      requires calibrator.Valid() && cfg.calib.deltaMin <= cfg.calib.deltaMax
      requires policies == map[] && heard == []
      modifies this`policyRev, this`assignment, calibrator, dids
      ensures policyRev == 0 && calibrator.pending == map[] && dids.records == []
      ensures Unlearned()
      ensures PolicyOk() && AssignmentOk()
    {
      hide Dids.AssignmentOf, Dids.DefaultDids.CutsOf, Calibrator.DeltaKCalibrator.State, Unlearned, HeardOk, Tuned,
        OutcomesDisjoint;
      dids.Init(cfg.numConstraints);
      ResetCalibrator();
      policyRev := calibrator.policyRev;
      var delta;
      assignment, delta := dids.UpdateAssignment(|ladder|, calibrator.State());
    }

    /** No bound has been learned, and the slacks are the default ones within their limits. */
    ghost predicate Unlearned()
      reads calibrator
    {
      && calibrator.kF == 0.0 && calibrator.kC == Fill(cfg.numConstraints, 0.0) && calibrator.kByPhi == []
      && |calibrator.deltaRel| == cfg.numConstraints
      && forall j :: 0 <= j < |calibrator.deltaRel| ==>
           calibrator.deltaRel[j] == Clamp(0.005, cfg.calib.deltaMin, cfg.calib.deltaMax)
    }

    method ResetCalibrator()
      requires calibrator.Valid() && cfg.calib.deltaMin <= cfg.calib.deltaMax && heard == []
      modifies calibrator
      ensures calibrator.policyRev == 0 && calibrator.pending == map[] && calibrator.Valid()
      ensures Tuned() && HeardOk() && Unlearned() && OutcomesDisjoint(calibrator.Book())
    {
      calibrator.Init(cfg.numConstraints);
      calibrator.Configure(cfg.calib);
    }

    // -------------------------------------------------------------- proposals and poll points

    /** Stores a new candidate; `fits` tells whether its point can be relied on to lie on the mesh. */
    method AddCandidate(id: nat, x: XMesh, ghost fits: bool)
      requires Configured() && StockOk() && Quiet(cands) && id !in index
      requires cfg.MeshNested() && !strayed && fits ==> OnMesh(x, geo.meshMuls)
      requires AuditsOk()
      modifies this`cands, this`index, this`tracks, this`strayed
      ensures StockOk() && Quiet(cands) && AuditsOk() && strayed == (old(strayed) || !fits)
      ensures cands == old(cands) + [NewCandidate(id, x, policyRev, incumbentId)]
      ensures index == old(index)[id := |old(cands)|]
    {
      hide StoreOk, CandidateOk, OnMesh, AllNested, Capacity, Distinct, Remaining, TracksOk, TrackOk,
        EngineConfig.MeshNested, AuditsMatch;
      var c := NewCandidate(id, x, policyRev, incumbentId);
      NewCandidateOk(world, Rev(), ladder, id, x, policyRev, incumbentId);
      AddKeepsStore(world, Rev(), ladder, cands, index, c);
      StoreHasIndex(world, Rev(), ladder, cands, index);
      AddKeepsTracks(Shared(), cands, index, log, tracks, c);
      tracks := tracks[id := Track([c], [])];
      strayed := strayed || !fits;
      RemainingAdd(cands, |ladder|, c);
      CapacityGrows(|cands|, |ladder|);
      StoreHasIndex(world, Rev(), ladder, cands + [c], index[id := |cands|]);
      AddingKeepsAudits(world, Rev(), ladder, cands, index, cands + [c], index[id := |cands|], calibrator.Book());
      index := index[id := |cands|];
      cands := cands + [c];
    }

    /** Proposals are snapped to the mesh and stored unless their id is known. */
    method Ingest(raw: seq<RawCandidate>)
      requires Configured() && StockOk() && Quiet(cands) && AuditsOk()
      requires Fitting(raw, |geo.baseSteps|)
      modifies this`cands, this`index, this`tracks, this`strayed
      ensures StockOk() && Quiet(cands) && AuditsOk() && old(cands) <= cands && strayed == old(strayed)
      ensures forall id :: id in old(index) ==> id in index && index[id] == old(index)[id]
      ensures forall i :: 0 <= i < |raw| ==> raw[i].id in index
      ensures forall i :: |old(cands)| <= i < |cands| ==>
                Snapped(raw, cands[i], geo.baseSteps, geo.meshMuls)
    {
      hide StoreOk, OnMeshAll, WithinBudget, Configured, QuantizedAll, Quiet, OnMesh, TracksOk, EngineConfig.MeshNested,
        AuditsOk;
      for n := 0 to |raw|
        invariant StockOk() && Quiet(cands) && AuditsOk() && old(cands) <= cands && strayed == old(strayed)
        invariant forall id :: id in old(index) ==> id in index && index[id] == old(index)[id]
        invariant forall i :: 0 <= i < n ==> raw[i].id in index
        invariant forall i :: |old(cands)| <= i < |cands| ==>
            Snapped(raw, cands[i], geo.baseSteps, geo.meshMuls)
      {
        GeometryValid();
        var x := geo.QuantizeRealToAnisoMesh(raw[n].x);
        QuantizedAllOnMesh(raw[n].x, geo.baseSteps, geo.meshMuls);
        if raw[n].id !in index {
          AddCandidate(raw[n].id, x, true);
        }
      }
    }

    lemma GeometryValid()
      requires StockOk()
      ensures geo.Valid()
    {
    }

    /** When the search is exhausted, the poll points around the best point are stored. */
    method InjectPoll(iter: nat)
      requires Configured() && StockOk() && Quiet(cands) && NoneReady(cands) && AuditsOk() && xBest.Some?
      modifies this`cands, this`index, this`tracks, this`strayed, this`polls
      ensures StockOk() && Quiet(cands) && AuditsOk() && old(cands) <= cands
      ensures forall id :: id in old(index) ==> id in index
      ensures polls == old(polls) + 1
      ensures AllPlaced(cands, index, old(index), iter, old(xBest.value), geo.PollStepUnits())
      ensures strayed <==> old(strayed) || Strays(iter, old(index), old(xBest.value), geo.PollStepUnits(), geo.meshMuls)
    {
      hide StockOk, Configured, Quiet, OnMesh, PollPoint, PollFits, EngineConfig.MeshNested, AuditsOk;
      var center := xBest.value;
      var steps := geo.PollStepUnits();
      var points := GeneratePointsAniso(center, steps);
      polls := polls + 1;
      for d := 0 to |points|
        invariant StockOk() && Quiet(cands) && AuditsOk() && old(cands) <= cands
        invariant xBest == Some(center) && steps == geo.PollStepUnits() && polls == old(polls) + 1
        invariant forall id :: id in old(index) ==> id in index
        invariant forall id :: id in index && id !in old(index) ==> exists k :: 0 <= k < d && id == PollId(iter, k)
        invariant forall k :: 0 <= k < d ==>
            Placed(cands, index, old(index), PollId(iter, k), PollPoint(center, steps, k))
        invariant strayed <==> old(strayed) || StraysBelow(iter, old(index), center, steps, geo.meshMuls, d)
      {
        var id := PollId(iter, d);
        if id !in index {
          ghost var fits := PollFits(center, steps, geo.meshMuls, d);
          if cfg.MeshNested() && !strayed && fits {
            PollOnMesh(d);
          }
          AddCandidate(id, points[d], fits);
        }
      }
    }

    lemma PollOnMesh(d: nat)
      requires StockOk() && cfg.MeshNested() && !strayed && xBest.Some? && d < 2 * |xBest.value|
      requires PollFits(xBest.value, geo.PollStepUnits(), geo.meshMuls, d)
      ensures OnMesh(PollPoint(xBest.value, geo.PollStepUnits(), d), geo.meshMuls)
    {
      hide StoreOk, WithinBudget, AllNested, OnMesh, PollFits, TracksOk, EngineConfig.MeshNested;
      PollOnMeshIff(xBest.value, geo.meshMuls, MaxInt(geo.pollStepMult, 1), geo.PollStepUnits(), d);
    }

    // -------------------------------------------------------------- dispatch

    /** Marks one ready candidate as in flight and appends its work item. */
    method Mark(id: nat, work: seq<WorkItem>) returns (more: seq<WorkItem>)
      requires Configured() && StockOk() && WorkOk(cands, index, Rev(), ladder, policyRev, work)
      requires id in index && index[id] < |cands| && cands[index[id]].status == Ready
      requires AuditsOk()
      modifies this`cands
      ensures AuditsOk() && StockOk() && WorkOk(cands, index, Rev(), ladder, policyRev, more)
      ensures Remaining(cands, |ladder|) == Remaining(old(cands), |ladder|)
      ensures cands == old(cands)[index[id] := Dispatched(old(cands)[index[id]], policyRev, incumbentId)]
      ensures |more| == |work| + 1 && IdsOf(more) == IdsOf(work) + {id}
    {
      hide CandidateOk, Capacity, OnMesh, AllNested, Distinct, WorkOk, Remaining, IdsOf, TracksOk,
        EngineConfig.MeshNested, AuditsMatch;
      var c := cands[index[id]];
      DispatchKeepsCandidate(world, Rev(), ladder, c, policyRev, incumbentId);
      var item := WorkItem(id, c.x, c.nextPhiIdx, ladder[c.nextPhiIdx], Rev(), policyRev, incumbentId);
      DispatchKeepsWork(world, Rev(), ladder, cands, index, policyRev, work, index[id], incumbentId);
      MarkKeepsTracks(Shared(), cands, index, log, tracks, index[id], policyRev, incumbentId);
      MoreIds(work, item);
      DispatchKeepsAudits(world, Rev(), ladder, cands, cands[index[id] := Dispatched(c, policyRev, incumbentId)], index,
                          calibrator.Book());
      cands := cands[index[id] := Dispatched(c, policyRev, incumbentId)];
      more := work + [item];
    }

    /** Turns exactly the picked candidates that are ready into one-step work items. */
    method Dispatch(picked: seq<nat>) returns (work: seq<WorkItem>)
      requires Configured() && StockOk() && Quiet(cands) && AuditsOk()
      modifies this`cands
      ensures AuditsOk() && StockOk() && WorkOk(cands, index, Rev(), ladder, policyRev, work)
      ensures Remaining(cands, |ladder|) == Remaining(old(cands), |ladder|)
      ensures |work| <= |picked|
      ensures forall id :: id in IdsOf(work) <==> id in picked && Pickable(old(cands), index, id)
      ensures |cands| == |old(cands)|
      ensures forall k :: 0 <= k < |cands| ==> cands[k] == TakenOff(work, old(cands)[k], policyRev, incumbentId)
      ensures Evolved(old(cands), cands)
    {
      hide Evolved, StoreOk, OnMeshAll, WithinBudget, Configured, WorkOk, Remaining, IdsOf, TracksOk,
        EngineConfig.MeshNested, AuditsOk;
      QuietWork(cands, index, Rev(), ladder, policyRev);
      StoreHasIndex(world, Rev(), ladder, cands, index);
      NoItemsNoIds();
      work := [];
      for i := 0 to |picked|
        invariant AuditsOk() && StockOk() && WorkOk(cands, index, Rev(), ladder, policyRev, work) && |work| <= i
        invariant Remaining(cands, |ladder|) == Remaining(old(cands), |ladder|)
        invariant forall id :: id in IdsOf(work) <==> id in picked[..i] && Pickable(old(cands), index, id)
        invariant |cands| == |old(cands)|
        invariant forall k :: 0 <= k < |cands| ==> cands[k] == TakenOff(work, old(cands)[k], policyRev, incumbentId)
      {
        var id := picked[i];
        assert picked[..i + 1] == picked[..i] + [id];
        if id in index {
          IndexFits(id);
          var c := cands[index[id]];
          if c.status == Ready && c.nextPhiIdx < |ladder| {
            work := Mark(id, work);
          } else {
            ReadyIsOnLadder(id);
          }
        }
      }
      assert picked[..|picked|] == picked;
      TakeOffEvolves(old(cands), cands, index, work, policyRev, incumbentId);
    }

    lemma IndexFits(id: nat)
      requires StockOk() && id in index
      ensures index[id] < |cands| && cands[index[id]].id == id
      ensures forall k :: 0 <= k < |cands| && cands[k].id == id ==> k == index[id]
    {
      hide CandidateOk, TracksOk;
    }

    lemma ReadyIsOnLadder(id: nat)
      requires StockOk() && id in index && index[id] < |cands|
      ensures cands[index[id]].status == Ready ==> cands[index[id]].nextPhiIdx < |ladder|
    {
      hide CheapOk, OriginOk, AuditPath;
    }

    // -------------------------------------------------------------- completion

    /** The outcome was executed in good order, and a decision it replays is the policy's or was there at the
        start. */
    ghost predicate SoundFor(pol: Policy, out: WorkOutcome) {
      && world.ev.numObjectives >= 1
      && OutcomeSound(world, |ladder|, out)
      && (Inherited(start, |ladder|, out) || ReplaySound(ladder, pol, out))
    }

    function Ctx(th: Thresholds): StepContext
      reads this`assignment, this`policyRev, this`fBest
    {
      StepContext(world, Rev(), ladder, Policy(th, assignment), policyRev, fBest, cfg.prune, shouldAudit)
    }

    /** Acceptance sees truths only; an accepted one becomes the incumbent. */
    method Judge(x: XMesh, result: JobResult, ghost d: Decision) returns (accepted: bool)
      requires BestOk(accept.cfg, ops, log, accept.State(), xBest, fBest)
      requires ContextsOk(cfg.prune, shouldAudit, log) && BestOf(log) == Best(xBest, fBest, incumbentId)
      requires d.item.x == x && d.result == result && (result.Truth? ==> result.v >= 0.0)
      requires d.ctx.prune == cfg.prune && d.ctx.shouldAudit == shouldAudit && d.ctx.bestF == fBest
      requires d.accepted <==> result.Truth? && Accepts(accept.State(), result.f[0], result.v, accept.cfg)
      modifies this`xBest, this`fBest, this`incumbentId, this`log, this`ops, accept
      ensures BestOk(accept.cfg, ops, log, accept.State(), xBest, fBest)
      ensures ContextsOk(cfg.prune, shouldAudit, log) && BestOf(log) == Best(xBest, fBest, incumbentId)
      ensures log == old(log) + [d] && Ends(ops) == old(Ends(ops)) && old(ops) <= ops
      ensures accepted <==> result.Truth? && Accepts(old(accept.State()), result.f[0], result.v, accept.cfg)
      ensures if accepted then xBest == Some(x) && fBest == Some(result.f) && incumbentId == old(incumbentId) + 1
              else xBest == old(xBest) && fBest == old(fBest) && incumbentId == old(incumbentId)
    {
      hide BestOk, Accepts, Decided, Ends, ContextsOk, BestOf;
      OneMoreContext(cfg.prune, shouldAudit, log, d);
      accepted := false;
      if result.Truth? {
        BestAfterTruth(accept.cfg, ops, log, accept.State(), xBest, fBest, d);
        accepted := accept.DecideTruth(result.f[0], result.v);
        OneMoreEnd(ops, Result(result.f[0], result.v));
        ops := ops + [Result(result.f[0], result.v)];
        if accepted {
          incumbentId := incumbentId + 1;
          fBest := Some(result.f);
          xBest := Some(x);
        }
      } else {
        BestAfterOther(accept.cfg, ops, log, accept.State(), xBest, fBest, d);
      }
      log := log + [d];
    }

    /** The dispatched candidate, its outcome and the batch's policies make a step in order. */
    lemma FlyingIsStep(th: Thresholds, out: WorkOutcome)
      requires Configured() && StockOk() && Flying(cands, index, Rev(), ladder, policyRev, out.item)
      requires SoundFor(Policy(th, assignment), out)
      ensures StepPre(Ctx(th), cands[index[out.item.candId]], out)
      ensures cands[index[out.item.candId]].id == out.item.candId
    {
      hide CandidateOk, OutcomeSound, AllNested, OnMesh, Capacity, Distinct, TracksOk, EngineConfig.MeshNested;
    }

    /** Everything a step guarantees, gathered. */
    lemma StepGuarantees(th: Thresholds, out: WorkOutcome, c: Candidate, before: DecisionMap, accepted: bool)
      requires Configured() && StepPre(Ctx(th), c, out) && SoundFor(Policy(th, assignment), out)
      requires policyRev in policies && policies[policyRev] == Policy(th, assignment)
      requires CachesOk(world, ladder, start, policies, ec.inner, before)
      requires out.item.candId == c.id && (accepted ==> StepResult(Ctx(th), c, out).Truth?)
      ensures var ctx := Ctx(th);
        var after, r := StepCandidate(ctx, c, out), StepResult(ctx, c, out);
        && CachesOk(world, ladder, start, policies, ec.inner, Stored(ctx, c, out, StepVerdict(ctx, c, out), r, before))
        && DecisionOk(world, Rev(), ladder, start, Decision(ctx, c, out, r, accepted))
        && CandidateOk(world, Rev(), ladder, after) && after.id == c.id && after.x == c.x && EvolvedOne(c, after)
        && (after.status.Ready? ==> out.item.phiIdx < after.nextPhiIdx < |ladder|)
        && (!after.status.Ready? ==> Finished(after.status))
        && HonestFlag(r) && (r.Truth? ==> r.v >= 0.0)
    {
      hide Distinct, StepPre, StepCandidate, StepResult, StepVerdict, Stored, ReplaySound, MadeByPolicies,
        DecisionsOk, CoherentEval, DecisionOk, CandidateOk, IsTruthOf, Compute, HonestFlag;
      var ctx := Ctx(th);
      StepAdvances(ctx, c, out);
      InFlightForStep(Visit(ctx, out), c);
      StepDecides(ctx, c, out, start, accepted);
      StepKeepsDecisions(ctx, c, out, before);
      StepKeepsPolicies(ctx, c, out, policies, start, before);
      TruthResultHonest(ctx, c, out);
    }

    lemma TruthResultHonest(ctx: StepContext, c: Candidate, out: WorkOutcome)
      requires StepPre(ctx, c, out)
      ensures var r := StepResult(ctx, c, out); HonestFlag(r) && (r.Truth? ==> r.v >= 0.0)
    {
      hide StepPre, StepResult, StepVerdict, IsTruthOf, IsPartialOf, HonestFlag;
      ResultIsSound(ctx, c, out);
      var r := StepResult(ctx, c, out);
      if r.Truth? {
        WorldHasObjectives(ctx, c, out);
        TruthsAreHonest(ctx.world, EKey(out.item), r);
      } else {
        NoTruthIsHonest(r);
      }
    }

    /** The step of one candidate: it moves, its job is made and the decision cache filled, exactly as the
        laws of steps say. */
    method Settle(ctx: StepContext, pos: nat, out: WorkOutcome) returns (job: MaterializedJob)
      requires pos < |cands| && StepPre(ctx, cands[pos], out)
      modifies this`cands, dc
      ensures var c := old(cands)[pos];
        && cands == old(cands)[pos := StepCandidate(ctx, c, out)]
        && job == JobOf(cands[pos], out, StepVerdict(ctx, c, out), StepResult(ctx, c, out))
        && job.result == StepResult(ctx, c, out)
        && dc.inner == Stored(ctx, c, out, StepVerdict(ctx, c, out), StepResult(ctx, c, out), old(dc.inner))
    {
      hide StepPre, StepCandidate, StepResult, StepVerdict, Stored, JobOf, CandidateAfter, VerdictOf, ResultOf,
        Materializable;
      StepMaterializable(ctx, cands[pos], out);
      var c;
      c, job := MaterializeJobResult(ctx, cands[pos], out, dc);
      StepOkMeans(ctx, cands[pos], out, old(dc.inner), c, job, dc.inner);
      cands := cands[pos := c];
    }

    /** One completed outcome: the candidate takes its step, the assignment history and the acceptance see
        the result, and the event for the calibrator is made. */
    method ProcessOutcome(th: Thresholds, out: WorkOutcome, ghost rest: seq<WorkItem>)
      returns (e: CalibEvent, accepted: bool)
      requires Configured() && StockOk() && RecordOk()
      requires WorkOk(cands, index, Rev(), ladder, policyRev, [out.item] + rest)
      requires SoundFor(Policy(th, assignment), out)
      requires policyRev in policies && policies[policyRev] == Policy(th, assignment)
      modifies this`cands, this`xBest, this`fBest, this`incumbentId, this`log, this`ops, this`tracks, dc, dids`records,
        accept
      ensures |log| == |old(log)| + 1 && old(log) <= log
      ensures var d := log[|log| - 1];
        d.out == out && d.policy == Policy(th, assignment) && d.result == e.result && d.accepted == accepted
      ensures out.item.policyRev == policyRev && old(ops) <= ops
      ensures e.id == out.item.candId && HonestFlag(e.result)
      ensures dids.records
           == Dids.Recent(old(dids.records) + [RecordOf(out.item, e.result)], MaxInt(dids.maxRecords, 1))
      ensures incumbentId == old(incumbentId) + if accepted then 1 else 0
      ensures accepted ==> e.result.Truth? && xBest == Some(out.item.x) && fBest == Some(e.result.f)
      ensures !accepted ==> xBest == old(xBest) && fBest == old(fBest)
      ensures Ends(ops) == old(Ends(ops))
      ensures StockOk() && RecordOk()
      ensures WorkOk(cands, index, Rev(), ladder, policyRev, rest)
      ensures Remaining(cands, |ladder|) < Remaining(old(cands), |ladder|)
      ensures |cands| == |old(cands)| && Evolved(old(cands), cands)
      ensures out.item.candId in index && index[out.item.candId] < |cands|
      ensures var pos := index[out.item.candId];
        && cands == old(cands)[pos := cands[pos]]
        && StepOf(world, Rev(), ladder, old(cands)[pos], cands[pos], out.item.phiIdx, e)
    {
      hide Stocked, StoreOk, WorkOk, SoundFor, CachesOk, LogOk, BestOk, HonestFlag, WorldOk, Accepts, Ends, Evolved,
        Remaining, Configured, Dids.Recent, Dids.TagOf, ContextsOk, BestOf, StepOf;
      ghost var d;
      var job;
      job, d := Land(th, out, rest);
      OneMoreRecord(log, d, MaxInt(dids.maxRecords, 1));
      var pos := index[out.item.candId];
      dids.Record(cands[pos].x, out.item.phi, out.item.phiIdx, job.result);
      accepted := Judge(cands[pos].x, job.result, d);
      e := CalibEvent(out.item.candId, job.result, job.audited, job.auditOf, job.pairedSample);
    }

    /** The candidate of an outcome lands: it takes its step, and everything about the store is in order,
        whether or not its point becomes the best one. */
    method Land(th: Thresholds, out: WorkOutcome, ghost rest: seq<WorkItem>)
      returns (job: MaterializedJob, ghost d: Decision)
      requires Configured() && StockOk() && RecordOk()
      requires WorkOk(cands, index, Rev(), ladder, policyRev, [out.item] + rest)
      requires SoundFor(Policy(th, assignment), out)
      requires policyRev in policies && policies[policyRev] == Policy(th, assignment)
      modifies this`cands, this`tracks, dc
      ensures d.out == out && d.policy == Policy(th, assignment) && d.result == job.result
      ensures d.accepted <==> d.result.Truth? && Accepts(accept.State(), d.result.f[0], d.result.v, accept.cfg)
      ensures d.ctx.prune == cfg.prune && d.ctx.shouldAudit == shouldAudit && d.ctx.bestF == fBest
      ensures out.item.policyRev == policyRev && HonestFlag(job.result) && (job.result.Truth? ==> job.result.v >= 0.0)
      ensures out.item.candId in index && index[out.item.candId] < |cands| == |old(cands)|
      ensures var pos := index[out.item.candId];
        && cands == old(cands)[pos := cands[pos]] && cands[pos].x == out.item.x
        && StepOf(world, Rev(), ladder, old(cands)[pos], cands[pos], out.item.phiIdx,
                  CalibEvent(out.item.candId, job.result, job.audited, job.auditOf, job.pairedSample))
      ensures Evolved(old(cands), cands)
      ensures WorldOk(world) && CachesOk(world, ladder, start, policies, ec.inner, dc.inner)
      ensures LogOk(world, Rev(), ladder, start, policies, log + [d])
      ensures Stocked(cands, index, xBest, log + [d], tracks, strayed)
      ensures Stocked(cands, index, Some(out.item.x), log + [d], tracks, strayed)
      ensures WorkOk(cands, index, Rev(), ladder, policyRev, rest)
      ensures Remaining(cands, |ladder|) < Remaining(old(cands), |ladder|)
    {
      hide Stocked, CandidateOk, StoreOk, WorkOk, StepPre, ReplaySound, CachesOk, LogOk, BestOk, DecisionOk,
        HonestFlag, Finished, Distinct, WorldOk, Flying, Accepts, StepCandidate, StepResult, StepVerdict, Stored,
        JobOf, SoundFor, Evolved, Remaining, Configured, DistinctIds, IdsOf, ResultOf, VerdictOf, CandidateAfter,
        IsPairedCheckpoint, ContextsOk, BestOf, StepOf;
      FirstFlies(out.item, rest);
      FlyingIsStep(th, out);
      var pos := index[out.item.candId];
      var ctx := Ctx(th);
      ghost var next;
      d, next := StepKeepsStock(th, out, rest, dc.inner);
      StepIsReported(ctx, cands[pos], out);
      job := Settle(ctx, pos, out);
      tracks := next;
    }

    /** The step of the first outcome keeps everything about the store in order, whether or not its point
        becomes the best one. */
    lemma StepKeepsStock(th: Thresholds, out: WorkOutcome, rest: seq<WorkItem>, before: DecisionMap)
      returns (d: Decision, next: TrackMap)
      requires Configured() && StockOk() && WorkOk(cands, index, Rev(), ladder, policyRev, [out.item] + rest)
      requires SoundFor(Policy(th, assignment), out)
      requires policyRev in policies && policies[policyRev] == Policy(th, assignment)
      requires CachesOk(world, ladder, start, policies, ec.inner, before)
      requires LogOk(world, Rev(), ladder, start, policies, log)
      requires out.item.candId in index && index[out.item.candId] < |cands|
      requires StepPre(Ctx(th), cands[index[out.item.candId]], out)
      ensures var ctx, pos := Ctx(th), index[out.item.candId];
        var c := cands[pos];
        var after, r := StepCandidate(ctx, c, out), StepResult(ctx, c, out);
        var moved := cands[pos := after];
        && d == Decision(ctx, c, out, r, r.Truth? && Accepts(accept.State(), r.f[0], r.v, accept.cfg))
        && CachesOk(world, ladder, start, policies, ec.inner, Stored(ctx, c, out, StepVerdict(ctx, c, out), r, before))
        && LogOk(world, Rev(), ladder, start, policies, log + [d])
        && Stocked(moved, index, xBest, log + [d], next, strayed)
        && Stocked(moved, index, Some(out.item.x), log + [d], next, strayed)
        && WorkOk(moved, index, Rev(), ladder, policyRev, rest)
        && Remaining(moved, |ladder|) < Remaining(cands, |ladder|) && Evolved(cands, moved)
        && after.x == out.item.x && HonestFlag(r) && (r.Truth? ==> r.v >= 0.0)
    {
      hide StockOk, Stocked, CandidateOk, StoreOk, WorkOk, StepPre, CachesOk, LogOk, DecisionOk, HonestFlag, Finished,
        Distinct, WorldOk, Flying, StepCandidate, StepResult, StepVerdict, Stored, SoundFor, TracksOk, Evolved,
        EvolvedOne, Remaining, Accepts;
      FirstFlies(out.item, rest);
      FlyingIsStep(th, out);
      var ctx, pos := Ctx(th), index[out.item.candId];
      var c := cands[pos];
      var after := StepCandidate(ctx, c, out);
      var r := StepResult(ctx, c, out);
      var accepted := r.Truth? && Accepts(accept.State(), r.f[0], r.v, accept.cfg);
      d := Decision(ctx, c, out, r, accepted);
      StepGuarantees(th, out, c, before, accepted);
      LogGrows(world, Rev(), ladder, start, policies, log, d);
      EvolvedUpdate(cands, pos, after);
      next := LandsInOrder(th, out, rest, d);
    }

    lemma LandsInOrder(th: Thresholds, out: WorkOutcome, rest: seq<WorkItem>, d: Decision) returns (next: TrackMap)
      requires Configured() && StockOk() && WorkOk(cands, index, Rev(), ladder, policyRev, [out.item] + rest)
      requires out.item.candId in index && index[out.item.candId] < |cands|
      requires StepPre(Ctx(th), cands[index[out.item.candId]], out) && d.item == out.item
      ensures var pos := index[out.item.candId];
        var moved := cands[pos := StepCandidate(Ctx(th), cands[pos], out)];
        && Stocked(moved, index, xBest, log + [d], next, strayed)
        && Stocked(moved, index, Some(out.item.x), log + [d], next, strayed)
        && WorkOk(moved, index, Rev(), ladder, policyRev, rest)
        && Remaining(moved, |ladder|) < Remaining(cands, |ladder|)
    {
      hide CandidateOk, StoreOk, WorkOk, StepPre, Flying, StepCandidate, TracksOk, Remaining, OnMesh, AllNested,
        Finished, Capacity, EngineConfig.MeshNested;
      FirstFlies(out.item, rest);
      var pos := index[out.item.candId];
      var c := cands[pos];
      var after := StepCandidate(Ctx(th), c, out);
      StepAdvances(Ctx(th), c, out);
      StoreHasIndex(world, Rev(), ladder, cands, index);
      CompletionKeepsWork(world, Rev(), ladder, cands, index, policyRev, [out.item] + rest, after);
      next := LandKeepsTracks(Shared(), cands, index, log, tracks, pos, Visit(Ctx(th), out), d);
    }

    lemma FirstFlies(item: WorkItem, rest: seq<WorkItem>)
      requires Configured() && StockOk() && WorkOk(cands, index, Rev(), ladder, policyRev, [item] + rest)
      ensures world.ev.numObjectives >= 1 && item.candId in index && index[item.candId] < |cands|
      ensures Flying(cands, index, Rev(), ladder, policyRev, item)
      ensures ([item] + rest)[0] == item && ([item] + rest)[1..] == rest
      ensures var c := cands[index[item.candId]];
        && c.id == item.candId && c.x == item.x && item.policyRev == policyRev
        && item.policyRev == c.submittedPolicyRev && item.incumbentId == c.submittedIncumbentId
    {
      hide CandidateOk, DistinctIds, TracksOk, EngineConfig.MeshNested;
      assert ([item] + rest)[0] == item;
    }

    // -------------------------------------------------------------- batches

    /** The policy in force is put on record under the current revision. A revision that was dispatched
        under before stood for the same policy then. */
    ghost method OpenBatch()
      requires Configured() && PolicyOk() && RecordOk()
      modifies this`policies
      ensures PolicyOk() && RecordOk()
      ensures policies == old(policies)[policyRev := CurrentPolicy()]
      ensures policyRev in old(policies) ==> old(policies)[policyRev] == CurrentPolicy()
    {
      hide LogOk, CachesOk, BestOk, NonNegative, Distinct;
      if cfg.calib.deltaMin >= 0.0 {
        calibrator.PolicyNonNegative();
      }
      PoliciesGrow(world, Rev(), ladder, start, policies, policyRev, CurrentPolicy(), log, ec.inner, dc.inner);
      policies := policies[policyRev := CurrentPolicy()];
    }

    ghost predicate AllSound(pol: Policy, outs: seq<WorkOutcome>) {
      forall i :: 0 <= i < |outs| ==> SoundFor(pol, outs[i])
    }

    /** Executes the work and sorts its outcomes by candidate. */
    method ExecuteBatch(work: seq<WorkItem>) returns (outs: seq<WorkOutcome>)
      requires Configured() && RecordOk()
      requires WorkOk(cands, index, Rev(), ladder, policyRev, work) && policyRev in policies
      modifies ec, dc
      ensures RecordOk() && |outs| == |work|
      ensures SortedBy(outs, LeId) && multiset(ItemsOf(outs)) == multiset(work)
      ensures WorkOk(cands, index, Rev(), ladder, policyRev, ItemsOf(outs))
      ensures AllSound(policies[policyRev], outs)
    {
      hide WorkOk, LogOk, BestOk, OutcomeSound, ReplaySound, MadeByPolicies, DecisionsOk, Distinct, EvalAfterBatch,
        DecisionAfterBatch,
        OutcomeOk, LeId;
      ghost var dc0 := dc.inner;
      var done := InlineRunBatch(world, work, |ladder|, ec, dc);
      BatchKeepsDecisions(world, dc0, work, |ladder|);
      BatchKeepsPolicies(world, ladder, policies, start, dc0, work, |ladder|);
      BatchIsSound(dc0, work, done);
      assert ItemsOf(done) == work by {
        BatchItems(dc0, work, done);
      }
      SortKeepsWork(cands, index, Rev(), ladder, policyRev, done);
      outs := Sort(done, LeId);
      IdOrder();
      SortSorts(done, LeId);
      SortKeepsItems(done);
      SortedIsSound(policies[policyRev], done);
    }

    lemma BatchItems(dc0: DecisionMap, work: seq<WorkItem>, done: seq<WorkOutcome>)
      requires Configured() && BatchOk(world, dc0, work, |ladder|, done)
      ensures ItemsOf(done) == work
    {
      hide Denote, AnswerOf;
    }

    /** Outcomes answered from caches in order are sound. */
    lemma BatchIsSound(dc0: DecisionMap, work: seq<WorkItem>, done: seq<WorkOutcome>)
      requires Configured() && BatchOk(world, dc0, work, |ladder|, done) && DecisionsOk(world, dc0)
      requires WorkOk(cands, index, Rev(), ladder, policyRev, work) && policyRev in policies
      requires MadeByPolicies(ladder, policies, start, dc0)
      ensures AllSound(policies[policyRev], done)
    {
      hide OutcomeSound, ReplaySound, MadeByPolicies, DecisionsOk, Distinct, OutcomeOk, DistinctIds;
      forall i | 0 <= i < |done|
        ensures SoundFor(policies[policyRev], done[i])
      {
        OutcomesAreSound(world, dc0, work[i], |ladder|, done[i]);
        assert Flying(cands, index, Rev(), ladder, policyRev, work[i]);
        ReplaysAreSound(world, ladder, policies, start, dc0, work[i], done[i]);
      }
    }

    lemma SortedIsSound(pol: Policy, done: seq<WorkOutcome>)
      requires Configured() && AllSound(pol, done)
      ensures AllSound(pol, Sort(done, LeId))
    {
      hide OutcomeSound, ReplaySound;
      var outs := Sort(done, LeId);
      SortMembers(done, LeId);
      forall i | 0 <= i < |outs|
        ensures SoundFor(pol, outs[i])
      {
        assert outs[i] in outs;
        var k :| 0 <= k < |done| && done[k] == outs[i];
      }
    }

    /** Processes the sorted outcomes one after the other. */
    method ProcessAll(th: Thresholds, outs: seq<WorkOutcome>) returns (events: seq<CalibEvent>, improved: bool)
      requires Configured() && StockOk() && RecordOk()
      requires policyRev in policies && policies[policyRev] == Policy(th, assignment)
      requires WorkOk(cands, index, Rev(), ladder, policyRev, ItemsOf(outs)) && AllSound(Policy(th, assignment), outs)
      modifies this`cands, this`xBest, this`fBest, this`incumbentId, this`log, this`ops, this`tracks, dc, dids`records,
        accept
      ensures old(log) <= log && old(ops) <= ops && |events| == |outs|
      ensures Recorded(log, |old(log)|, outs, Policy(th, assignment), policyRev, events)
      ensures improved <==> incumbentId > old(incumbentId)
      ensures incumbentId >= old(incumbentId) && Ends(ops) == old(Ends(ops))
      ensures !improved ==> xBest == old(xBest) && fBest == old(fBest)
      ensures StockOk() && RecordOk() && Quiet(cands)
      ensures Remaining(cands, |ladder|) + |outs| <= Remaining(old(cands), |ladder|)
      ensures |cands| == |old(cands)| && Evolved(old(cands), cands)
      ensures Landed(world, Rev(), ladder, old(cands), cands, events)
    {
      hide StockOk, RecordOk, WorkOk, SoundFor, Remaining, HonestFlag, Configured, Ends, Accepts, Evolved, Recorded,
        Landed, StepOf, IndexOk;
      IndexInOrder();
      DistinctOuts(outs);
      NothingLanded(world, Rev(), ladder, cands);
      EvolvedTrivially(cands);
      NothingRecorded(log, outs, Policy(th, assignment), policyRev);
      events, improved := [], false;
      assert outs[0..] == outs;
      for i := 0 to |outs|
        invariant StockOk() && RecordOk()
        invariant WorkOk(cands, index, Rev(), ladder, policyRev, ItemsOf(outs[i..]))
        invariant Remaining(cands, |ladder|) + i <= Remaining(old(cands), |ladder|)
        invariant |cands| == |old(cands)| && Evolved(old(cands), cands)
        invariant old(log) <= log && old(ops) <= ops && |events| == i
        invariant Recorded(log, |old(log)|, outs, Policy(th, assignment), policyRev, events)
        invariant forall k :: 0 <= k < i ==> events[k].id == outs[k].item.candId
        invariant Landed(world, Rev(), ladder, old(cands), cands, events)
        invariant improved <==> incumbentId > old(incumbentId)
        invariant incumbentId >= old(incumbentId) && Ends(ops) == old(Ends(ops))
        invariant !improved ==> xBest == old(xBest) && fBest == old(fBest)
      {
        assert ItemsOf(outs[i..]) == [outs[i].item] + ItemsOf(outs[i + 1..]);
        ghost var before, logBefore := cands, log;
        assert forall k :: 0 <= k < i ==> outs[k].item.candId != outs[i].item.candId;
        var e, accepted := ProcessOutcome(th, outs[i], ItemsOf(outs[i + 1..]));
        EvolvedTransitive(old(cands), before, cands);
        RecordOneMore(logBefore, |old(log)|, outs, Policy(th, assignment), policyRev, events, log, e);
        ghost var pos := index[outs[i].item.candId];
        OneMoreLanded(world, Rev(), ladder, old(cands), before, index, events, pos, cands[pos], outs[i].item.phiIdx, e);
        events := events + [e];
        improved := improved || accepted;
      }
      assert ItemsOf(outs[|outs|..]) == [];
      NoWorkIsQuiet(cands, index, Rev(), ladder, policyRev);
    }

    /** Policies learn at the boundary only, and every change of them raises the revision. */
    method BatchBoundary(events: seq<CalibEvent>)
      requires PolicyOk() && forall i :: 0 <= i < |events| ==> HonestFlag(events[i].result)
      requires |assignment| == dids.m == cfg.numConstraints
      modifies this`policyRev, this`assignment, this`heard, calibrator, dids`assignment, dids`deltaBaseline
      ensures policyRev >= old(policyRev)
      ensures policyRev == old(policyRev) ==> CurrentPolicy() == old(CurrentPolicy())
      ensures heard == old(heard) + Sort(events, LeEvent) && AssignmentOk()
      ensures dids.deltaBaseline == Dids.NextBaseline(old(dids.deltaBaseline), calibrator.State().deltaRel)
      ensures calibrator.Book() == BookedAll(old(calibrator.Book()), Sort(events, LeEvent))
      ensures PolicyOk()
    {
      hide HonestFlag, OutcomesDisjoint, BookedAll, NonNegative, RevisionsOk, AssignmentOk, Dids.NextBaseline,
        Calibrator.DeltaKCalibrator.State;
      SortedHonest(events);
      BookedTogether(NewLedger(), heard, Sort(events, LeEvent));
      var delta := Learn(Sort(events, LeEvent));
      heard := heard + Sort(events, LeEvent);
      if delta != 0 {
        policyRev := policyRev + delta;
      }
      var aDelta := Reassign();
      if aDelta != 0 {
        policyRev := policyRev + aDelta;
      }
      NewerRevision(policies, old(policyRev), old(CurrentPolicy()), policyRev, CurrentPolicy());
    }

    /** The assignment for the evidence at hand. */
    method Reassign() returns (delta: nat)
      requires assignment == dids.assignment && dids.m == cfg.numConstraints
      modifies this`assignment, dids`assignment, dids`deltaBaseline
      ensures AssignmentOk() && assignment == dids.assignment
      ensures dids.deltaBaseline == Dids.NextBaseline(old(dids.deltaBaseline), calibrator.State().deltaRel)
      ensures delta == if assignment == old(assignment) then 0 else 1
    {
      hide Dids.AssignmentOf, Dids.DefaultDids.CutsOf, Calibrator.DeltaKCalibrator.State, Dids.NextBaseline;
      var newA;
      newA, delta := dids.UpdateAssignment(|ladder|, calibrator.State());
      assignment := newA;
    }

    /** The calibrator's update, which keeps its own invariants and those of the audit ledger. */
    method Learn(events: seq<CalibEvent>) returns (delta: nat)
      requires calibrator.Valid() && OutcomesDisjoint(calibrator.Book())
      requires forall i :: 0 <= i < |events| ==> HonestFlag(events[i].result)
      modifies calibrator
      ensures calibrator.Valid() && OutcomesDisjoint(calibrator.Book())
      ensures calibrator.dcfg == old(calibrator.dcfg) && calibrator.kcfg == old(calibrator.kcfg)
      ensures calibrator.shown == calibrator.counts
      ensures delta == 0 ==> calibrator.Policy() == old(calibrator.Policy())
      ensures calibrator.Book() == BookedAll(old(calibrator.Book()), events)
    {
      hide HonestFlag, OutcomesDisjoint, BookedAll;
      AuditOutcomesDisjoint(calibrator.Book(), events);
      delta := calibrator.Update(events);
    }

    /** One batch: the work is executed and processed under the policy in force, then the policies learn. */
    method RunBatch(work: seq<WorkItem>) returns (improved: bool)
      requires Valid() && WorkOk(cands, index, Rev(), ladder, policyRev, work)
      modifies this`cands, this`xBest, this`fBest, this`incumbentId, this`log, this`ops, this`tracks, this`policies,
        this`policyRev, this`assignment, this`heard, ec, dc, calibrator, dids, accept
      ensures |log| == |old(log)| + |work| && old(log) <= log && old(ops) <= ops
      ensures multiset(ItemsDecided(log[|old(log)|..])) == multiset(work)
      ensures policyRev >= old(policyRev)
      ensures forall i :: |old(log)| <= i < |log| ==>
                log[i].item.policyRev == old(policyRev) && log[i].policy == old(CurrentPolicy())
      ensures policyRev == old(policyRev) ==> CurrentPolicy() == old(CurrentPolicy())
      ensures improved <==> incumbentId > old(incumbentId)
      ensures incumbentId >= old(incumbentId) && Ends(ops) == old(Ends(ops))
      ensures !improved ==> xBest == old(xBest) && fBest == old(fBest)
      ensures Valid() && Quiet(cands)
      ensures Remaining(cands, |ladder|) + |work| <= Remaining(old(cands), |ladder|)
      ensures |cands| == |old(cands)| && Evolved(old(cands), cands)
    {
      hide MeshAfter, Ends, StockOk, RecordOk, PolicyOk, WorkOk, OutcomeSound, AllSound, Remaining, HonestFlag,
        Configured, LeEvent, BookedAll, Evolved, LeId, Recorded, ItemsDecided, ItemsOf, Accepts, AuditsMatch, Landed,
        AssignmentOk, IndexOk;
      IndexInOrder();
      SizesMatch();
      OpenBatch();
      var th := calibrator.Policy();
      var outs := ExecuteBatch(work);
      OutsKnown(outs);
      var events;
      events, improved := ProcessAll(th, outs);
      RecordedBatch(log, |old(log)|, outs, Policy(th, assignment), policyRev, events);
      CloseBatch(events, old(cands));
    }

    /** After the boundary the pending audits are again those of the candidates. */
    method CloseBatch(events: seq<CalibEvent>, ghost before: seq<Candidate>)
      requires StockOk() && PolicyOk() && forall i :: 0 <= i < |events| ==> HonestFlag(events[i].result)
      requires |assignment| == dids.m == cfg.numConstraints
      requires IndexOk(before, index) && AuditsMatch(world, Rev(), ladder, before, index, calibrator.Book())
      requires Landed(world, Rev(), ladder, before, cands, events)
      requires forall i :: 0 <= i < |events| ==> events[i].id in index
      modifies this`policyRev, this`assignment, this`heard, calibrator, dids`assignment, dids`deltaBaseline
      ensures policyRev >= old(policyRev)
      ensures policyRev == old(policyRev) ==> CurrentPolicy() == old(CurrentPolicy())
      ensures heard == old(heard) + Sort(events, LeEvent)
      ensures PolicyOk() && AssignmentOk() && AuditsOk()
    {
      hide StockOk, PolicyOk, HonestFlag, IndexOk, AuditsMatch, Landed, AssignmentOk, LeEvent, BookedAll;
      IndexInOrder();
      SortPermutes(events, LeEvent);
      BatchKeepsAudits(world, Rev(), ladder, before, cands, index, events, Sort(events, LeEvent), calibrator.Book());
      BatchBoundary(events);
    }

    lemma SizesMatch()
      requires AssignmentOk()
      ensures |assignment| == dids.m == cfg.numConstraints
    {
      hide Dids.AssignmentOf, Dids.DefaultDids.CutsOf;
    }

    lemma IndexInOrder()
      requires StockOk()
      ensures IndexOk(cands, index)
    {
      hide CandidateOk, TracksOk, EngineConfig.MeshNested;
    }

    lemma DistinctOuts(outs: seq<WorkOutcome>)
      requires WorkOk(cands, index, Rev(), ladder, policyRev, ItemsOf(outs))
      ensures forall i, k :: 0 <= i < k < |outs| ==> outs[i].item.candId != outs[k].item.candId
    {
      hide Flying, IdsOf;
      assert forall i :: 0 <= i < |outs| ==> ItemsOf(outs)[i] == outs[i].item;
    }

    lemma OutsKnown(outs: seq<WorkOutcome>)
      requires WorkOk(cands, index, Rev(), ladder, policyRev, ItemsOf(outs))
      ensures forall i :: 0 <= i < |outs| ==> outs[i].item.candId in index
    {
      hide DistinctIds, IdsOf;
      forall i | 0 <= i < |outs|
        ensures outs[i].item.candId in index
      {
        assert Flying(cands, index, Rev(), ladder, policyRev, ItemsOf(outs)[i]);
      }
    }

    // -------------------------------------------------------------- iterations

    /** The steps of one iteration: pick, dispatch, run and learn until nothing is ready, nothing is picked
        or the step limit is used up; poll points are added at most once. The scheduler may pick
        anything. The loop ends without any step limit. */
    method Steps(iter: nat) returns (improved: bool, polled: bool, ghost exhausted: bool)
      requires Valid() && Quiet(cands)
      modifies this, ec, dc, calibrator, dids, accept
      ensures old(log) <= log && old(ops) <= ops && policyRev >= old(policyRev)
      ensures polls == old(polls) + if polled then 1 else 0
      ensures (old(strayed) ==> strayed) && (!polled ==> strayed == old(strayed))
      ensures forall id :: id in old(index) ==> id in index
      ensures improved <==> incumbentId > old(incumbentId)
      ensures incumbentId >= old(incumbentId) && Ends(ops) == old(Ends(ops))
      ensures !improved ==> xBest == old(xBest) && fBest == old(fBest)
      ensures polled ==> old(xBest).Some? && PollKnown(index, iter, 2 * |old(xBest).value|)
      ensures exhausted ==> NoneReady(cands) && (polled || improved || xBest.None?) && Remaining(cands, |ladder|) == 0
      ensures cfg.maxStepsPerIter.Some? ==> |log| <= |old(log)| + cfg.maxStepsPerIter.value
      ensures Valid() && Quiet(cands) && Evolved(old(cands), cands)
    {
      hide Ends, MeshAfter, StockOk, RecordOk, PolicyOk, WorkOk, Remaining, Configured, Pickable, IdsOf, PollPoint,
        PollFits, PollId, AllPlaced, PollKnown, Evolved, EvolvedOne, TakenOff, Strays, AuditsOk, AssignmentOk;
      EvolvedTrivially(cands);
      improved, polled, exhausted := false, false, false;
      var used: nat := 0;
      while cfg.maxStepsPerIter.None? || used < cfg.maxStepsPerIter.value
        invariant Valid() && Quiet(cands) && Evolved(old(cands), cands)
        invariant old(log) <= log && old(ops) <= ops && policyRev >= old(policyRev)
        invariant polls == old(polls) + if polled then 1 else 0
        invariant (old(strayed) ==> strayed) && (!polled ==> strayed == old(strayed))
        invariant forall id :: id in old(index) ==> id in index
        invariant improved <==> incumbentId > old(incumbentId)
        invariant incumbentId >= old(incumbentId) && Ends(ops) == old(Ends(ops))
        invariant !improved ==> xBest == old(xBest) && fBest == old(fBest)
        invariant polled ==> old(xBest).Some? && PollKnown(index, iter, 2 * |old(xBest).value|)
        invariant !exhausted
        invariant used == |log| - |old(log)|
        invariant cfg.maxStepsPerIter.Some? ==> used <= cfg.maxStepsPerIter.value
        decreases if polled then 0 else 1, Remaining(cands, |ladder|)
      {
        ghost var before := cands;
        if NoneReady(cands) {
          if !polled && !improved && xBest.Some? {
            ghost var known := index;
            InjectPoll(iter);
            PlacedIsKnown(cands, index, known, iter, xBest.value, geo.PollStepUnits());
            PrefixEvolves(old(cands), before, cands);
            polled := true;
            continue;
          }
          exhausted := true;
          QuietAndUnready(cands, |ladder|);
          break;
        }
        var picked: seq<nat> := *;
        var limit := MaxInt(cfg.boundary, 1);
        if cfg.maxStepsPerIter.Some? {
          limit := MinInt(limit, cfg.maxStepsPerIter.value - used);
        }
        var progress, accepted := Advance(picked[..MinInt(limit, |picked|)]);
        EvolvedTransitive(old(cands), before, cands);
        improved := improved || accepted;
        used := used + progress;
        if progress == 0 {
          break;
        }
      }
    }

    /** One batch of the picked candidates: those that are ready make one step each. */
    method Advance(picked: seq<nat>) returns (progress: nat, improved: bool)
      requires Valid() && Quiet(cands) && |picked| <= MaxInt(cfg.boundary, 1)
      modifies this`cands, this`xBest, this`fBest, this`incumbentId, this`log, this`ops, this`tracks, this`policies,
        this`policyRev, this`assignment, this`heard, ec, dc, calibrator, dids, accept
      ensures |log| == |old(log)| + progress && old(log) <= log && old(ops) <= ops && policyRev >= old(policyRev)
      ensures forall id :: Decides(log[|old(log)|..], id) <==> id in picked && Pickable(old(cands), index, id)
      ensures improved <==> incumbentId > old(incumbentId)
      ensures incumbentId >= old(incumbentId) && Ends(ops) == old(Ends(ops))
      ensures !improved ==> xBest == old(xBest) && fBest == old(fBest)
      ensures Valid() && Quiet(cands)
      ensures |cands| == |old(cands)| && Evolved(old(cands), cands)
      ensures Remaining(cands, |ladder|) + progress <= Remaining(old(cands), |ladder|) && progress <= |picked|
    {
      hide Ends, MeshAfter, StockOk, RecordOk, PolicyOk, WorkOk, Remaining, Configured, Pickable, IdsOf, Evolved,
        TakenOff, ItemsDecided, Decides, AuditsOk, AssignmentOk;
      var work := Dispatch(picked);
      ghost var flying := cands;
      progress, improved := |work|, false;
      if work == [] {
        NoWorkIsQuiet(cands, index, Rev(), ladder, policyRev);
      } else {
        improved := RunBatch(work);
        EvolvedTransitive(old(cands), flying, cands);
      }
      DecidedIds(log[|old(log)|..], work);
    }

    /** The end of an iteration: a failed poll tightens the barrier and refines the mesh. */
    method EndIteration(improved: bool, polled: bool)
      requires Valid()
      modifies this`ops, accept, geo
      ensures Valid()
      ensures geo.meshMuls == if polled && !improved then RefinedAll(old(geo.meshMuls), geo.meshMulMin, geo.refineDiv)
                              else old(geo.meshMuls)
      ensures accept.h == if polled && !improved then Tightened(old(accept.h), accept.cfg) else old(accept.h)
      ensures Ends(ops) == old(Ends(ops)) + [IterationEnd(polled, improved)] && old(ops) <= ops
    {
      hide Ends, MeshAfter, StoreOk, PolicyOk, WithinBudget, Configured, AllNested, OnMesh, BestOk, LogOk, CachesOk,
        RefinedAll, OnMeshAll, Tightened, TracksOk, EngineConfig.MeshNested, AuditsOk, AssignmentOk, ContextsOk, BestOf;
      OneMoreEnd(ops, IterationEnd(polled, improved));
      OneMoreRefinement(startMuls, geo.meshMulMin, geo.refineDiv, Ends(ops), IterationEnd(polled, improved));
      BestAfterEnd(accept.cfg, ops, log, accept.State(), xBest, fBest, polled, improved);
      accept.OnIterationEnd(polled, improved);
      ops := ops + [IterationEnd(polled, improved)];
      if !improved && polled {
        if cfg.MeshNested() && !strayed {
          RefineKeepsAll(geo.meshMuls, geo.meshMulMin, geo.refineDiv, cands, xBest);
        }
        geo.Refine();
      }
    }

    /** One iteration: proposals, steps, and the end that they lead to. */
    method Iterate(raw: seq<RawCandidate>, iter: nat)
      requires Valid() && Quiet(cands) && Fitting(raw, |geo.baseSteps|)
      modifies this, ec, dc, calibrator, dids, accept, geo
      ensures old(log) <= log && old(ops) <= ops && policyRev >= old(policyRev)
      ensures old(polls) <= polls <= old(polls) + 1 && incumbentId >= old(incumbentId)
      ensures Ends(ops) == old(Ends(ops)) + [IterationEnd(polls > old(polls), incumbentId > old(incumbentId))]
      ensures EndsBy(old(Here()), Here(), IterationEnd(polls > old(polls), incumbentId > old(incumbentId)), accept.cfg,
                     geo.meshMulMin, geo.refineDiv)
      ensures forall id :: id in old(index) ==> id in index
      ensures forall i :: 0 <= i < |raw| ==> raw[i].id in index
      ensures Valid() && Quiet(cands) && Evolved(old(cands), cands)
    {
      hide Ends, MeshAfter, StockOk, RecordOk, PolicyOk, Configured, Evolved, Snapped, AuditsOk, AssignmentOk,
        RefinedAll, PollKnown, Acceptance.Run;
      EvolvedTrivially(cands);
      BarrierOnRecord();
      BarrierOfEnds(ops, accept.cfg);
      Ingest(raw);
      PrefixEvolves(old(cands), old(cands), cands);
      ghost var ingested := cands;
      var improved, polled, _ := Steps(iter);
      EvolvedTransitive(old(cands), ingested, cands);
      BarrierOnRecord();
      BarrierOfEnds(ops, accept.cfg);
      EndIteration(improved, polled);
    }

    /** A whole run, one list of proposals per iteration. */
    method Run(proposals: seq<seq<RawCandidate>>) returns (ghost marks: seq<Standing>)
      requires Valid() && Quiet(cands)
      requires forall n :: 0 <= n < |proposals| ==> Fitting(proposals[n], |geo.baseSteps|)
      modifies this, ec, dc, calibrator, dids, accept, geo
      ensures old(log) <= log && old(ops) <= ops && policyRev >= old(policyRev)
      ensures accept.cfg.Floor() <= accept.h <= old(accept.h)
      ensures polls <= old(polls) + |proposals|
      ensures |Ends(ops)| == |old(Ends(ops))| + |proposals|
      ensures |marks| == |proposals| + 1 && marks[0] == old(Here()) && marks[|proposals|] == Here()
      ensures forall n :: 0 <= n < |proposals| ==>
                EndsBy(marks[n], marks[n + 1], Ends(ops)[|old(Ends(ops))| + n], accept.cfg, geo.meshMulMin,
                       geo.refineDiv)
      ensures forall n, i :: 0 <= n < |proposals| && 0 <= i < |proposals[n]| ==> proposals[n][i].id in index
      ensures Valid() && Quiet(cands) && Evolved(old(cands), cands)
    {
      hide Ends, MeshAfter, StockOk, RecordOk, PolicyOk, Configured, Evolved, AuditsOk, AssignmentOk, EndsBy;
      EvolvedTrivially(cands);
      BarrierOnRecord();
      ghost var ops0, h0 := ops, accept.h;
      marks := [Here()];
      for iter := 0 to |proposals|
        invariant Valid() && Quiet(cands) && Evolved(old(cands), cands)
        invariant old(log) <= log && old(ops) <= ops && policyRev >= old(policyRev)
        invariant polls <= old(polls) + iter
        invariant |Ends(ops)| == |old(Ends(ops))| + iter
        invariant |marks| == iter + 1 && marks[0] == old(Here()) && marks[iter] == Here()
        invariant forall n :: 0 <= n < iter ==>
            EndsBy(marks[n], marks[n + 1], Ends(ops)[|old(Ends(ops))| + n], accept.cfg, geo.meshMulMin, geo.refineDiv)
        invariant forall n, i :: 0 <= n < iter && 0 <= i < |proposals[n]| ==> proposals[n][i].id in index
      {
        ghost var before := cands;
        Iterate(proposals[iter], iter);
        EvolvedTransitive(old(cands), before, cands);
        marks := marks + [Here()];
      }
      BarrierOnRecord();
      BarrierMonotone(ops, accept.cfg, |ops0|);
      assert ops[..|ops0|] == ops0;
    }

    lemma BarrierOnRecord()
      requires Valid()
      ensures accept.h == Acceptance.Run(ops, accept.cfg).h
    {
      hide StockOk, PolicyOk, LogOk, CachesOk, Acceptance.Run, ViolationFree, LastAccepted, FromLog, ResultsOf,
        TruthPoints, FreeObjectives, Acceptances, AcceptedTruths, ContextsOk, BestOf, AuditsOk, AssignmentOk;
      assert accept.State() == Acceptance.Run(ops, accept.cfg);
    }

    // -------------------------------------------------------------- what holds at every point of every run

    /** Policy-revision soundness. */
    lemma RevisionsIdentifyPolicies(i: nat, j: nat)
      requires Valid() && i < |log| && j < |log| && log[i].item.policyRev == log[j].item.policyRev
      ensures log[i].policy == log[j].policy
    {
      hide DecisionOk;
      SameRevisionSamePolicy(world, Rev(), ladder, start, policies, log, i, j);
    }

    /** Every cut that was not in the decision cache at the start, fresh or replayed, is justified: it names the
        first constraint that meets the margin inequality of its batch, at a level of its batch. With
        non-negative slack limits a justified cut never names a constraint whose estimate is satisfied. */
    lemma EveryCutIsJustified(i: nat)
      requires Valid() && Distinct(ladder) && i < |log| && log[i].result.EarlyInfeasible?
      ensures Replayed(start, |ladder|, log[i]) || Justified(i)
      ensures Justified(i) && cfg.calib.deltaMin >= 0.0 ==>
                var r := log[i].result; r.violatedJ < |r.estimates.cHat| && r.estimates.cHat[r.violatedJ] > 0.0
    {
      hide Compute, StockOk, BestOk, CachesOk, NonNegative, Distinct, Exceeds;
      var d := log[i];
      assert DecisionOk(world, Rev(), ladder, start, d);
      if Justified(i) && cfg.calib.deltaMin >= 0.0 {
        ComputedEstimatesOk(world, EvalCacheKey(d.item.x, ladder[d.item.phiIdx], Rev()));
        ExceedingIsViolated(d.result.estimates, d.policy.th, d.result.violatedJ);
      }
    }

    ghost predicate Justified(i: nat)
      requires i < |log|
      reads this`log
    {
      JustifiedCut(log[i].policy, |ladder|, log[i].item.phiIdx, log[i].result)
    }

    /** The cut under `k` was there at the start, and the run replayed it. */
    ghost predicate ReplayedCutOf(k: DecisionCacheKey)
      reads this`log
    {
      exists i :: 0 <= i < |log| && log[i].result.EarlyInfeasible? && DKey(log[i].item, |ladder|) == k
                  && FoundIn(start, k, log[i].result)
    }

    /** All cuts of a run on distinct rungs are justified, if and only if the cuts it found at the start and
        replayed are those that the policies of their revisions in this run make. */
    lemma AllCutsJustifiedIff()
      requires Valid() && Distinct(ladder)
      ensures (forall i :: 0 <= i < |log| && log[i].result.EarlyInfeasible? ==> Justified(i))
         <==> (forall k :: k in start && ReplayedCutOf(k) ==>
                 k.policyRev in policies && PolicyMade(ladder, policies[k.policyRev], k.phi, start[k]))
    {
      hide Compute, StockOk, PolicyOk, BestOk, CachesOk, Distinct, JustifiedCut, PolicyMade, CheapOk, IsTruthOf,
        IsPartialOf;
      forall i | 0 <= i < |log| && log[i].result.EarlyInfeasible?
        ensures log[i].item.policyRev in policies && policies[log[i].item.policyRev] == log[i].policy
        ensures Justified(i) <==> PolicyMade(ladder, log[i].policy, log[i].item.phi, log[i].result)
        ensures Justified(i) || Replayed(start, |ladder|, log[i])
      {
        assert DecisionOk(world, Rev(), ladder, start, log[i]);
        JustifiedIffMade(ladder, log[i].policy, log[i].item.phiIdx, log[i].result);
      }
      forall i | 0 <= i < |log| && log[i].result.EarlyInfeasible? && Replayed(start, |ladder|, log[i])
        ensures ReplayedCutOf(DKey(log[i].item, |ladder|))
      {
      }
    }

    /** Every decision of a run read the best objectives of its moment and the configuration of the run, and
        stopped its candidate, if and only if it was freshly evaluated, passed the gate, and need not go on. */
    lemma EveryStopIsJustified(i: nat)
      requires Valid() && i < |log|
      ensures var d := log[i];
        && d.ctx.bestF == BestOf(log[..i]).f && d.ctx.prune == cfg.prune
        && (Stops(d) <==> d.out.cachedDecision.None? && MayStop(world, Rev(), d))
    {
      hide Compute, StockOk, PolicyOk, BestOk, CachesOk, CheapOk, IsTruthOf, IsPartialOf, AuditsOk, AssignmentOk,
        BestOf, StepPre, StepResult, StepCandidate, StopDue, JustifiedCut, Replayed, Distinct;
      var d := log[i];
      assert DecisionOk(world, Rev(), ladder, start, d);
      StopsIff(d.ctx, d.cand, d.out);
      StepPoint(d);
    }

    /** An audit of a run starts, if and only if its audit policy selects a cut at a level from which the constraint
        may cut. */
    lemma EveryAuditIsSelected(i: nat)
      requires Valid() && i < |log| && !log[i].cand.auditRequired
      ensures var d := log[i];
        StartsAuditing(d) <==>
          && d.result.EarlyInfeasible?
          && d.item.phiIdx + 1 >= GetOr(d.policy.assignment, d.result.violatedJ, |ladder|)
          && shouldAudit(d.item.x, ladder[d.item.phiIdx], Rev())
    {
      hide Compute, StockOk, PolicyOk, BestOk, CachesOk, CheapOk, IsTruthOf, IsPartialOf, AuditsOk, AssignmentOk,
        BestOf, StepPre, StepResult, StepCandidate, JustifiedCut, Replayed, Distinct, JustAudited;
      var d := log[i];
      assert DecisionOk(world, Rev(), ladder, start, d);
      AuditStarts(d.ctx, d.cand, d.out);
      StepPoint(d);
    }

    /** From what was heard to the assignment in force: a constraint of whose audits at a level, if there were
        enough, more than 1.15 times the target rate turned out feasible, may not cut at that level or below. */
    lemma FalseAlarmsRaiseLevel(j: nat, lvl: nat)
      requires Valid() && Arithmetic.IsSqrt(dids.num.sqrt) && j < cfg.numConstraints && lvl + 2 <= |ladder|
      requires var audits, falses := |Counting(NewLedger(), heard, Audits, j, Some(lvl))|,
                                     |Counting(NewLedger(), heard, FalseAlarms, j, Some(lvl))|;
        audits >= MaxInt(cfg.calib.minAudits, 1)
        && (falses as real) > Dids.TargetRate(cfg.calib.targetFalse) * 1.15 * (audits as real)
      ensures j < |assignment| && assignment[j] >= lvl + 2
    {
      hide StockOk, RecordOk, AuditsOk, Counting, BookedAll, Dids.AssignmentOf, Dids.TargetRate,
        Dids.DefaultDids.CutsOf, Calibrator.DeltaKCalibrator.State, MeshInStep, RevisionsOk, OutcomesDisjoint,
        Calibrator.DeltaKCalibrator.Valid;
      Dids.FalseAlarmsForbidCut(calibrator, NewLedger(), heard, j, lvl, dids.CutsOf(j, MaxInt(|ladder|, 1)), |ladder|,
                                dids.deltaBaseline, dids.num);
    }

    /** Between batches an audit is pending with the calibrator, if and only if its candidate is under audit and has
        not ended as a truth; it is the audit of the candidate's cut, and the estimates kept for it, at the cut and
        at paired checkpoints, have the values of the evaluator. */
    lemma PendingAuditsAreThoseOfCandidates(pos: nat)
      requires Valid() && pos < |cands|
      ensures cands[pos].id in calibrator.pending <==> cands[pos].auditRequired && cands[pos].status != DoneTruth
      ensures cands[pos].id in calibrator.pending ==>
                AuditOk(world, Rev(), ladder, cands[pos], calibrator.pending[cands[pos].id])
    {
      hide StockOk, PolicyOk, RecordOk, AssignmentOk, AuditOk;
      assert AuditMatches(world, Rev(), ladder, cands[pos], PendingOf(calibrator.Book(), cands[pos].id));
    }

    /** Cache transparency: a last-level result is what the evaluator says about the point. */
    lemma EveryTruthIsTransparent(i: nat)
      requires Valid() && i < |log| && log[i].item.phiIdx + 1 == |ladder|
      ensures EssenceOf(log[i].result) == TruthAbout(world, log[i].item.x, ladder[|ladder| - 1], Rev())
    {
      hide Compute, CheapOk, StockOk, BestOk, CachesOk, Distinct;
      assert DecisionOk(world, Rev(), ladder, start, log[i]);
    }

    /** Near-optimal output: with a zero barrier a best point exists exactly when a violation-free truth
        has been processed. It is a feasible point, its objectives are the evaluator's at the last level,
        and its primary objective is within the slack of every violation-free truth processed. */
    lemma BestPointIsNearOptimal()
      requires Valid() && ZeroBarrier(accept.cfg)
      ensures xBest.Some? <==> fBest.Some?
      ensures fBest.Some? <==> exists i :: 0 <= i < |log| && FreeTruth(log[i])
      ensures fBest.Some? ==> Optimum(world, Rev(), ladder, log, accept.cfg.epsF, xBest, fBest)
    {
      hide Compute, CheapOk, StockOk, CachesOk, Distinct, BestOk, AllSatisfied, Violation, PolicyOk, AuditsOk,
        AssignmentOk, ContextsOk, BestOf, IsStep;
      BestIsNearOptimal(accept.cfg, ops, log, accept.State(), xBest, fBest);
      assert xBest.Some? <==> fBest.Some? by {
        BestPair(accept.cfg, ops, log, accept.State(), xBest, fBest);
      }
      if fBest.Some? {
        var i :| 0 <= i < |log| && log[i].item.x == xBest.value && log[i].result.Truth?
                 && log[i].result.f == fBest.value && log[i].result.v == 0.0;
        assert DecisionOk(world, Rev(), ladder, start, log[i]);
        TruthsAreHonest(world, EvalCacheKey(xBest.value, ladder[|ladder| - 1], Rev()), log[i].result);
      }
    }

    /** No candidate is executed twice at a rung, and its levels only ascend, so none is executed more often
        than the ladder has rungs. */
    lemma CandidateStepsAscend(id: nat)
      requires Valid()
      ensures Ascending(LevelsIn(log, id)) && |LevelsIn(log, id)| <= |ladder|
      ensures forall i, j :: 0 <= i < j < |log| && log[i].item.candId == id && log[j].item.candId == id ==>
                log[i].item.phiIdx < log[j].item.phiIdx
    {
      hide TracksOk, RecordOk, PolicyOk, LevelsIn, Ascending;
      StoreHasIndex(world, Rev(), ladder, cands, index);
      LevelsOfRunAscend(Shared(), cands, index, log, tracks, id);
      forall i, j | 0 <= i < j < |log| && log[i].item.candId == id && log[j].item.candId == id
        ensures log[i].item.phiIdx < log[j].item.phiIdx
      {
        LaterIsHigher(log, i, j);
      }
    }

    /** The run makes no more steps than candidates and rungs allow, and between batches no candidate waits
        beyond the ladder. */
    lemma StepsAreBounded()
      requires Valid() && Quiet(cands)
      ensures |log| <= |cands| * |ladder|
      ensures forall i :: 0 <= i < |cands| ==> (cands[i].status.Ready? && cands[i].nextPhiIdx < |ladder|)
                                               || Finished(cands[i].status)
    {
      hide RecordOk, PolicyOk, OnMeshAll, TracksOk, Distinct, CheapOk, OriginOk, AuditPath, Remaining;
      forall i | 0 <= i < |cands|
        ensures (cands[i].status.Ready? && cands[i].nextPhiIdx < |ladder|) || Finished(cands[i].status)
      {
        assert CandidateOk(world, Rev(), ladder, cands[i]);
      }
    }

    /** With pruning off for audits, the run has taken every audited candidate, since the level of its cut,
        exactly along the path of its audit: it is ready at the next level of the path, or it ended as an
        invalid evaluation, or it ended as a truth after the whole path. */
    lemma AuditsFollowTheirPaths(pos: nat) returns (k: nat)
      requires Valid() && Quiet(cands) && cfg.prune.disableForAudit && pos < |cands| && cands[pos].auditRequired
      ensures AuditTrail(ladder, cands[pos], LevelsIn(log, cands[pos].id), k)
    {
      hide TracksOk, RecordOk, PolicyOk, AuditTrail;
      k := AuditOfRunFollowsPath(Shared(), cands, index, log, tracks, pos);
    }

    /** Whole-run mesh invariant: for a nested configuration, and as long as no poll point was stored whose
        step did not fit the mesh, every stored point and the best point lie on the current mesh, and
        snapping one of them again changes nothing. */
    lemma StoredPointsAreOnMesh(i: nat)
      requires Valid() && cfg.MeshNested() && !strayed && i < |cands|
      ensures OnMesh(cands[i].x, geo.meshMuls)
      ensures xBest.Some? ==> OnMesh(xBest.value, geo.meshMuls)
      ensures (forall k :: 0 <= k < |cands[i].x| ==> IsI64(cands[i].x[k])) ==>
                |cands[i].x| == |geo.baseSteps| == |geo.meshMuls|
                && QuantizedAll(MeshToReal(cands[i].x, geo.baseSteps), geo.baseSteps, geo.meshMuls) == cands[i].x
    {
      hide RecordOk, PolicyOk, StoreOk, TracksOk, WithinBudget, Distinct, AllNested, QuantizedAll, MeshToReal,
        EngineConfig.MeshNested;
      assert OnMesh(cands[i].x, geo.meshMuls);
      if forall k :: 0 <= k < |cands[i].x| ==> IsI64(cands[i].x[k]) {
        QuantizeIsIdentityOnMesh(cands[i].x, geo.baseSteps, geo.meshMuls);
      }
    }

    /** The filter of the run never holds two points of which one dominates the other. With zero slacks, and
        as long as the cap cut nothing off, it is the Pareto front of the truths of the run that passed the
        barrier. */
    lemma FilterAndBarrier()
      requires Valid()
      ensures NonDominated(accept.points, accept.cfg) && accept.h >= accept.cfg.Floor()
      ensures accept.cfg.epsF <= 0.0 && accept.cfg.epsV <= 0.0 && CapNeverExceeded(ops, accept.cfg) ==>
                IsFrontOf(accept.points, Passed(ops, accept.cfg), accept.cfg)
      ensures forall p :: p in Passed(ops, accept.cfg) ==> p in TruthPoints(log)
    {
      hide LogOk, CachesOk, StockOk, PolicyOk, NonDominated, Acceptance.Run, ViolationFree, LastAccepted, FromLog,
        CapNeverExceeded, IsFrontOf, Passed, ResultsOf, TruthPoints, FreeObjectives, Covers;
      FilterStaysNonDominated(ops, accept.cfg);
      BarrierMonotone(ops, accept.cfg, |ops|);
      PassedAreResults(ops, accept.cfg);
      assert accept.State() == Acceptance.Run(ops, accept.cfg);
      if accept.cfg.epsF <= 0.0 && accept.cfg.epsV <= 0.0 && CapNeverExceeded(ops, accept.cfg) {
        FilterIsParetoFront(ops, accept.cfg);
      }
    }
  }

  /** A start that is the minimum times a power of the divisor configures a nested mesh. */
  lemma PowerConfigIsNested(cfg: EngineConfig, k: nat)
    requires MaxInt(cfg.meshMulInit, 1) == MaxInt(cfg.meshMulMin, 1) * Arithmetic.Pow(MaxInt(cfg.meshRefineDiv, 2), k)
    ensures cfg.MeshNested()
  {
    hide ChainNested, Arithmetic.Pow;
    PowerGeometryIsNested(|cfg.baseSteps|, cfg.meshMulInit, cfg.meshMulMin, cfg.meshRefineDiv, k);
    BuiltGeometryNestedIff(|cfg.baseSteps|, cfg.meshMulInit, cfg.meshMulMin, cfg.meshRefineDiv);
  }

  lemma ConfiguredMesh(cfg: EngineConfig)
    ensures cfg.MeshNested() <==>
      AllNested(Fill(|cfg.baseSteps|, MaxInt(cfg.meshMulInit, 1)),
                MaxInt(cfg.meshMulMin, 1), MaxInt(cfg.meshRefineDiv, 2))
  {
    hide ChainNested, AllNested;
    BuiltGeometryNestedIff(|cfg.baseSteps|, cfg.meshMulInit, cfg.meshMulMin, cfg.meshRefineDiv);
  }

  lemma LadderOf(ladder: seq<Phi>, cfg: EngineConfig)
    requires cfg.Ok() && IsStaircase(ladder, cfg.tauLevels, cfg.smcLevels)
    ensures ladder != [] && (Distinct(cfg.tauLevels) && Distinct(cfg.smcLevels) ==> Distinct(ladder))
  {
    if Distinct(cfg.tauLevels) && Distinct(cfg.smcLevels) {
      StaircaseDistinct(ladder, cfg.tauLevels, cfg.smcLevels);
    }
  }

  lemma StoreHasIndex(w: World, rev: EnvRev, ladder: seq<Phi>, cands: seq<Candidate>, index: Index)
    requires StoreOk(w, rev, ladder, cands, index)
    ensures IndexOk(cands, index)
  {
    hide CandidateOk;
  }

  /** The decision and the event tell the same of an outcome. */
  ghost predicate Tells(d: Decision, out: WorkOutcome, pol: Policy, policyRev: nat, e: CalibEvent) {
    && d.policy == pol && d.out == out && d.result == e.result
    && out.item.policyRev == policyRev && e.id == out.item.candId && HonestFlag(e.result)
  }

  /** The events of the first outcomes and, from position `start` on, the log tell the same. */
  ghost predicate Recorded(log: seq<Decision>, start: nat, outs: seq<WorkOutcome>, pol: Policy, policyRev: nat,
                           events: seq<CalibEvent>)
  {
    && |events| <= |outs| && |log| == start + |events|
    && forall i :: 0 <= i < |events| ==> Tells(log[start + i], outs[i], pol, policyRev, events[i])
  }

  lemma NothingRecorded(log: seq<Decision>, outs: seq<WorkOutcome>, pol: Policy, policyRev: nat)
    ensures Recorded(log, |log|, outs, pol, policyRev, [])
  {
  }

  lemma RecordOneMore(log: seq<Decision>, start: nat, outs: seq<WorkOutcome>, pol: Policy, policyRev: nat,
                      events: seq<CalibEvent>, more: seq<Decision>, e: CalibEvent)
    requires Recorded(log, start, outs, pol, policyRev, events) && |events| < |outs|
    requires |more| == |log| + 1 && log <= more && Tells(more[|log|], outs[|events|], pol, policyRev, e)
    ensures Recorded(more, start, outs, pol, policyRev, events + [e])
  {
    hide Tells;
    var now := events + [e];
    assert more[..|log|] == log;
    forall i | 0 <= i < |now|
      ensures Tells(more[start + i], outs[i], pol, policyRev, now[i])
    {
      if i < |events| {
        assert more[start + i] == log[start + i] && now[i] == events[i];
      }
    }
  }

  lemma RecordedBatch(log: seq<Decision>, start: nat, outs: seq<WorkOutcome>, pol: Policy, policyRev: nat,
                      events: seq<CalibEvent>)
    requires Recorded(log, start, outs, pol, policyRev, events) && |events| == |outs|
    ensures start <= |log| && ItemsDecided(log[start..]) == ItemsOf(outs)
    ensures forall i :: start <= i < |log| ==> log[i].item.policyRev == policyRev && log[i].policy == pol
    ensures forall i :: 0 <= i < |events| ==> HonestFlag(events[i].result) && events[i].id == outs[i].item.candId
  {
    hide HonestFlag;
    forall i | start <= i < |log|
      ensures log[i].item.policyRev == policyRev && log[i].policy == pol && log[i].item == outs[i - start].item
    {
      assert Tells(log[start + (i - start)], outs[i - start], pol, policyRev, events[i - start]);
    }
  }

  /** The step ends its candidate as stopped. */
  ghost predicate Stops(d: Decision) {
    StepPre(d.ctx, d.cand, d.out) && StepCandidate(d.ctx, d.cand, d.out).status == DoneStoppedPartial(d.item.phiIdx)
  }

  /** The step leaves its candidate under audit. */
  ghost predicate StartsAuditing(d: Decision) {
    StepPre(d.ctx, d.cand, d.out) && StepCandidate(d.ctx, d.cand, d.out).auditRequired
  }

  /** The point can be evaluated, passes the gate, and with its estimates need not go on. */
  ghost predicate MayStop(w: World, rev: EnvRev, d: Decision) {
    && w.ev.numObjectives >= 1
    && var e := Compute(w, EKey(d.item));
       e.Some? && CheapOk(w, d.item.x, rev) && StopDue(d.ctx, d.cand.auditRequired, d.item.phiIdx, e.value)
  }

  lemma StepPoint(d: Decision)
    requires StepPre(d.ctx, d.cand, d.out)
    ensures d.item.x == d.cand.x && d.item.phi == d.ctx.ladder[d.item.phiIdx] && d.item.envRev == d.ctx.rev
  {
    hide CandidateOk, OutcomeSound;
  }

  /** A truth free of violation. */
  predicate FreeTruth(d: Decision) {
    d.result.Truth? && d.result.v == 0.0
  }

  /** The point is feasible, its objectives are the evaluator's at the last rung, and the primary one is within
      the slack of every violation-free truth of the log. */
  ghost predicate Optimum(w: World, rev: EnvRev, ladder: seq<Phi>, log: seq<Decision>, epsF: real,
                          xBest: Option<XMesh>, fBest: Option<Objectives>)
  {
    && w.ev.numObjectives >= 1 && ladder != [] && xBest.Some? && fBest.Some?
    && (forall i :: 0 <= i < |log| && FreeTruth(log[i]) ==> fBest.value[0] <= log[i].result.f[0] + Max(epsF, 0.0))
    && var e := Compute(w, EvalCacheKey(xBest.value, ladder[|ladder| - 1], rev));
       && e.Some? && CheapOk(w, xBest.value, rev)
       && fBest.value == e.value.fHat && AllSatisfied(e.value.cHat)
  }

  /** The log decides a step of candidate `id`. */
  ghost predicate Decides(log: seq<Decision>, id: nat) {
    exists i :: 0 <= i < |log| && log[i].item.candId == id
  }

  lemma DecidedIds(log: seq<Decision>, work: seq<WorkItem>)
    requires multiset(ItemsDecided(log)) == multiset(work)
    ensures forall id :: id in IdsOf(work) <==> Decides(log, id)
  {
    var items := ItemsDecided(log);
    forall id
      ensures id in IdsOf(work) <==> Decides(log, id)
    {
      if i :| 0 <= i < |work| && work[i].candId == id {
        assert work[i] in multiset(items);
        var k :| 0 <= k < |items| && items[k] == work[i];
        assert log[k].item.candId == id;
      }
      if i :| 0 <= i < |log| && log[i].item.candId == id {
        assert items[i] in multiset(work);
        var k :| 0 <= k < |work| && work[k] == items[i];
        assert work[k].candId == id;
      }
    }
  }

  lemma PlacedIsKnown(cands: seq<Candidate>, index: Index, known: Index, iter: nat, center: XMesh, steps: seq<int>)
    requires AllPlaced(cands, index, known, iter, center, steps)
    ensures PollKnown(index, iter, 2 * |center|)
  {
    hide PollId, PollPoint;
    forall d | 0 <= d < 2 * |center|
      ensures PollId(iter, d) in index
    {
      assert Placed(cands, index, known, PollId(iter, d), PollPoint(center, steps, d));
    }
  }

  lemma StepIsReported(ctx: StepContext, c: Candidate, out: WorkOutcome)
    requires StepPre(ctx, c, out) && out.item.candId == c.id
    ensures StepOf(ctx.world, ctx.rev, ctx.ladder, c, StepCandidate(ctx, c, out), out.item.phiIdx,
                   StepEvent(ctx, c, out))
  {
    hide StepPre, StepCandidate, StepEvent, EventMeans;
    StepReports(ctx, c, out);
    StepAdvances(ctx, c, out);
    InFlightForStep(Visit(ctx, out), c);
  }

  lemma {:induction false} BookedTogether(l: Ledger, a: seq<CalibEvent>, b: seq<CalibEvent>)
    ensures BookedAll(BookedAll(l, a), b) == BookedAll(l, a + b)
  {
    hide Booked;
    if b == [] {
      assert a + b == a;
    } else {
      var n := |b| - 1;
      BookedTogether(l, a, b[..n]);
      assert (a + b)[..|a + b| - 1] == a + b[..n];
    }
  }

  lemma NoItemsNoIds()
    ensures IdsOf([]) == {}
  {
  }

  lemma EvolvedTrivially(cands: seq<Candidate>)
    ensures Evolved(cands, cands)
  {
  }

  lemma PrefixEvolves(a: seq<Candidate>, b: seq<Candidate>, c: seq<Candidate>)
    requires Evolved(a, b) && b <= c
    ensures Evolved(a, c)
  {
    hide EvolvedOne;
    assert forall i :: 0 <= i < |a| ==> c[i] == b[i];
  }

  lemma TakeOffEvolves(a: seq<Candidate>, b: seq<Candidate>, index: Index, work: seq<WorkItem>,
                       policyRev: nat, incumbentId: nat)
    requires IndexOk(a, index) && forall id :: id in IdsOf(work) ==> Pickable(a, index, id)
    requires |a| == |b| && forall k :: 0 <= k < |a| ==> b[k] == TakenOff(work, a[k], policyRev, incumbentId)
    ensures Evolved(a, b)
  {
    hide IdsOf;
  }

  lemma SortedHonest(events: seq<CalibEvent>)
    requires forall i :: 0 <= i < |events| ==> HonestFlag(events[i].result)
    ensures forall i :: 0 <= i < |Sort(events, LeEvent)| ==> HonestFlag(Sort(events, LeEvent)[i].result)
  {
    hide HonestFlag;
    var s := Sort(events, LeEvent);
    SortMembers(events, LeEvent);
    forall i | 0 <= i < |s|
      ensures HonestFlag(s[i].result)
    {
      assert s[i] in s;
      var k :| 0 <= k < |events| && events[k] == s[i];
    }
  }

  /** A policy may replace another only under a newer revision. */
  lemma NewerRevision(policies: map<nat, Policy>, r: nat, p: Policy, s: nat, q: Policy)
    requires RevisionsOk(policies, r, p) && r <= s && (r == s ==> p == q)
    ensures RevisionsOk(policies, s, q)
  {
  }

  lemma NoTruthIsHonest(r: JobResult)
    requires !r.Truth?
    ensures HonestFlag(r)
  {
  }

  lemma WorldHasObjectives(ctx: StepContext, c: Candidate, out: WorkOutcome)
    requires StepPre(ctx, c, out)
    ensures ctx.world.ev.numObjectives >= 1
  {
  }

  /** The margin inequality under non-negative thresholds. */
  lemma ExceedingIsViolated(est: Estimates, th: Thresholds, j: nat)
    requires NonNegative(th) && EstimatesOk(est) && Exceeds(est, th, j)
    ensures j < |est.cHat| && est.cHat[j] > 0.0
  {
    assert KCFor(th, est.phi, j) >= 0.0;
    Arithmetic.MulNonNegative(KCFor(th, est.phi, j), est.tauScale);
  }

  lemma BestPair(cfg: AcceptanceConfig, ops: seq<Op>, log: seq<Decision>, s: AcceptState,
                 xBest: Option<XMesh>, fBest: Option<Objectives>)
    requires BestOk(cfg, ops, log, s, xBest, fBest)
    ensures xBest.Some? <==> fBest.Some?
  {
    hide Run, ViolationFree, LastAccepted, FromLog;
  }

  /** Any two runs, of any lengths and on any caches, agree on the truth of a point they both took to the
      same last rung under the same environment. */
  lemma RunsAgreeOnTruths(r1: EngineRun, r2: EngineRun, i: nat, j: nat)
    requires r1.Valid() && r2.Valid() && r1.world == r2.world && r1.Rev() == r2.Rev()
    requires r1.ladder[|r1.ladder| - 1] == r2.ladder[|r2.ladder| - 1]
    requires i < |r1.log| && j < |r2.log| && r1.log[i].item.x == r2.log[j].item.x
    requires r1.log[i].item.phiIdx + 1 == |r1.ladder| && r2.log[j].item.phiIdx + 1 == |r2.ladder|
    ensures EssenceOf(r1.log[i].result) == EssenceOf(r2.log[j].result)
  {
    hide EngineRun.Valid, EssenceOf, TruthAbout;
    r1.EveryTruthIsTransparent(i);
    r2.EveryTruthIsTransparent(j);
  }
}
