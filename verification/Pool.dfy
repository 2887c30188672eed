/** The worker pool as a step system: a shared queue, worker-local rings, write-once slots and an
    atomic counter. Cache reads, cache writes, slot writes and counting are separate steps, so every
    interleaving of the workers is a run. */
module Pool {
  import opened Types
  import opened Executor

  datatype Phase =
    | Asleep
    | Looking
    | Asking(task: nat)
    | Probing(task: nat)
    | Computing(task: nat)
    | Writing(task: nat, out: WorkOutcome)
    | Counting(task: nat)

  datatype Worker = Worker(ring: seq<nat>, phase: Phase)

  /** What stays fixed during a batch. */
  datatype Batch = Batch(world: World, items: seq<WorkItem>, ladderLen: nat, workers: nat, chunkBase: nat,
                         ec0: EvalMap, dc0: DecisionMap)
  {
    /** Tasks a worker takes per refill. */
    function Chunk(): (c: nat)
      requires workers >= 1
      ensures c >= 1
    {
      var share := (|items| + workers - 1) / workers;
      MinInt(MaxInt(chunkBase, 1), MaxInt(share, 1))
    }
  }

  /** `counted` and `performed` record which tasks were counted and which finished their cache work. */
  datatype State = State(
    queue: seq<nat>,
    workers: seq<Worker>,
    slots: seq<Option<WorkOutcome>>,
    done: nat,
    notified: bool,
    ec: EvalMap,
    dc: DecisionMap,
    counted: set<nat>,
    performed: set<nat>)

  predicate IsIdle(w: Worker) {
    w.ring == [] && (w.phase == Asleep || w.phase == Looking)
  }

  ghost predicate BatchValid(b: Batch) {
    b.workers >= 1 && WorldOk(b.world) && CoherentEval(b.world, b.ec0)
  }

  lemma BatchWorld(b: Batch)
    requires BatchValid(b)
    ensures b.workers >= 1 && b.world.ev.numObjectives >= 1
  {
  }

  /** The batch has just been queued; every worker is idle, asleep or about to look for work. */
  ghost predicate Init(b: Batch, s: State)
  {
    && |s.workers| == b.workers
    && (forall k :: 0 <= k < |s.workers| ==> IsIdle(s.workers[k]))
    && |s.queue| == |b.items| && (forall i :: 0 <= i < |s.queue| ==> s.queue[i] == i)
    && s.slots == Fill(|b.items|, None)
    && s.done == 0 && !s.notified && s.counted == {} && s.performed == {}
    && s.ec == b.ec0 && s.dc == b.dc0
  }

  function WithWorker(s: State, k: nat, w: Worker): State
    requires k < |s.workers|
  {
    s.(workers := s.workers[k := w])
  }

  /** The ring first, then a refill from the queue, else to sleep; all under the queue's lock. */
  function LookStep(b: Batch, s: State, k: nat): State
    requires b.workers >= 1 && k < |s.workers|
  {
    var ring := s.workers[k].ring;
    if ring != [] then WithWorker(s, k, Worker(ring[1..], Asking(ring[0])))
    else if s.queue != [] then
      var n := MinInt(b.Chunk(), |s.queue|);
      WithWorker(s, k, Worker(s.queue[1..n], Asking(s.queue[0]))).(queue := s.queue[n..])
    else WithWorker(s, k, Worker([], Asleep))
  }

  /** The worker has its answer for task `i` and goes on to write it. */
  function Finish(s: State, k: nat, i: nat, out: WorkOutcome): State
    requires k < |s.workers|
  {
    WithWorker(s, k, Worker(s.workers[k].ring, Writing(i, out))).(performed := s.performed + {i})
  }

  function AskStep(b: Batch, s: State, k: nat, i: nat): State
    requires k < |s.workers| && i < |b.items|
  {
    var key := DKey(b.items[i], b.ladderLen);
    if key in s.dc then Finish(s, k, i, WorkOutcome(b.items[i], Some(s.dc[key]), None, 0.0, true, false, false))
    else WithWorker(s, k, Worker(s.workers[k].ring, Probing(i)))
  }

  function ProbeStep(b: Batch, s: State, k: nat, i: nat): State
    requires k < |s.workers| && i < |b.items|
  {
    var key := EKey(b.items[i]);
    if key in s.ec then Finish(s, k, i, WorkOutcome(b.items[i], None, Some(s.ec[key]), 0.0, false, true, false))
    else WithWorker(s, k, Worker(s.workers[k].ring, Computing(i)))
  }

  ghost function ComputeStep(b: Batch, s: State, k: nat, i: nat): State
    requires BatchValid(b) && k < |s.workers| && i < |b.items|
  {
    var wi := b.items[i];
    var converted := ToReal(b.world, wi.x, wi.envRev.baseSteps).Some?;
    var cost := if converted then 1.0 else 0.0;
    match Compute(b.world, EKey(wi))
    case None =>
      var jr := InvalidFor(b.world, wi);
      Finish(s, k, i, WorkOutcome(wi, Some(jr), None, cost, false, false, converted))
        .(dc := s.dc[DKey(wi, b.ladderLen) := jr])
    case Some(e) =>
      Finish(s, k, i, WorkOutcome(wi, None, Some(e), cost, false, false, converted))
        .(ec := s.ec[EKey(wi) := e])
  }

  function WriteStep(s: State, k: nat, i: nat, out: WorkOutcome): State
    requires k < |s.workers| && i < |s.slots|
  {
    WithWorker(s, k, Worker(s.workers[k].ring, Counting(i))).(slots := s.slots[i := Some(out)])
  }

  function CountStep(s: State, k: nat, i: nat): State
    requires k < |s.workers|
  {
    WithWorker(s, k, Worker(s.workers[k].ring, Looking)).(done := s.done + 1, counted := s.counted + {i})
  }

  predicate HasTask(p: Phase) {
    p.Asking? || p.Probing? || p.Computing? || p.Writing? || p.Counting?
  }

  ghost predicate Enabled(b: Batch, s: State, k: nat) {
    && k < |s.workers| && s.workers[k].phase != Asleep
    && |s.slots| == |b.items|
    && (HasTask(s.workers[k].phase) ==> s.workers[k].phase.task < |b.items|)
  }

  /** The step worker `k` takes next. */
  ghost function StepWorker(b: Batch, s: State, k: nat): State
    requires BatchValid(b) && Enabled(b, s, k)
  {
    match s.workers[k].phase
    case Looking => LookStep(b, s, k)
    case Asking(i) => AskStep(b, s, k, i)
    case Probing(i) => ProbeStep(b, s, k, i)
    case Computing(i) => ComputeStep(b, s, k, i)
    case Writing(i, out) => WriteStep(s, k, i, out)
    case Counting(i) => CountStep(s, k, i)
  }

  /** The engine thread wakes all sleeping workers. */
  function Wake(ws: seq<Worker>): (r: seq<Worker>)
    ensures |r| == |ws|
    ensures forall k :: 0 <= k < |ws| ==> r[k] == if ws[k].phase == Asleep then ws[k].(phase := Looking) else ws[k]
  {
    seq(|ws|, k requires 0 <= k < |ws| => if ws[k].phase == Asleep then ws[k].(phase := Looking) else ws[k])
  }

  function Notified(s: State): State {
    s.(workers := Wake(s.workers), notified := true)
  }

  /** A sleeping worker wakes up by itself, as condition variables permit. */
  function WokenOne(s: State, k: nat): State
    requires k < |s.workers|
  {
    WithWorker(s, k, s.workers[k].(phase := Looking))
  }

  /** The engine thread's wake-up, or a step of a worker. */
  ghost predicate Progress(b: Batch, s: State, t: State)
    requires BatchValid(b)
  {
    || (!s.notified && t == Notified(s))
    || exists k :: Enabled(b, s, k) && t == StepWorker(b, s, k)
  }

  ghost predicate Spurious(s: State, t: State) {
    exists k :: 0 <= k < |s.workers| && s.workers[k].phase == Asleep && t == WokenOne(s, k)
  }

  ghost predicate Next(b: Batch, s: State, t: State)
    requires BatchValid(b)
  {
    Progress(b, s, t) || Spurious(s, t)
  }

  // ---------------------------------------------------------------- conservation of tasks

  function Holds(p: Phase, i: nat): nat {
    if HasTask(p) && p.task == i then 1 else 0
  }

  function Occurrences(s: seq<nat>, i: nat): nat {
    if s == [] then 0 else (if s[0] == i then 1 else 0) + Occurrences(s[1..], i)
  }

  function AtWorker(w: Worker, i: nat): nat {
    Occurrences(w.ring, i) + Holds(w.phase, i)
  }

  function AtWorkers(ws: seq<Worker>, i: nat): nat {
    if ws == [] then 0 else AtWorker(ws[0], i) + AtWorkers(ws[1..], i)
  }

  /** In how many places a task is: the queue, a ring, in the hands of a worker, or counted. */
  ghost function Places(s: State, i: nat): nat {
    Occurrences(s.queue, i) + AtWorkers(s.workers, i) + (if i in s.counted then 1 else 0)
  }

  lemma {:induction false} OccurrencesOfConcat(s: seq<nat>, t: seq<nat>, i: nat)
    ensures Occurrences(s + t, i) == Occurrences(s, i) + Occurrences(t, i)
  {
    if s == [] {
      assert s + t == t;
    } else {
      assert (s + t)[1..] == s[1..] + t;
      OccurrencesOfConcat(s[1..], t, i);
    }
  }

  lemma {:induction false} OccurrencesPositive(s: seq<nat>, i: nat)
    ensures Occurrences(s, i) > 0 <==> i in s
  {
    if s != [] {
      OccurrencesPositive(s[1..], i);
    }
  }

  lemma {:induction false} AtWorkersUpdate(ws: seq<Worker>, k: nat, w: Worker, i: nat)
    requires k < |ws|
    ensures AtWorkers(ws[k := w], i) + AtWorker(ws[k], i) == AtWorkers(ws, i) + AtWorker(w, i)
    ensures AtWorker(ws[k], i) <= AtWorkers(ws, i)
  {
    var t := ws[k := w];
    if k == 0 {
      assert t[1..] == ws[1..];
    } else {
      assert t[1..] == ws[1..][k - 1 := w];
      AtWorkersUpdate(ws[1..], k - 1, w, i);
    }
  }

  /** Two different workers contribute separately. */
  lemma AtTwoWorkers(ws: seq<Worker>, k: nat, l: nat, i: nat)
    requires k < |ws| && l < |ws| && k != l
    ensures AtWorker(ws[k], i) + AtWorker(ws[l], i) <= AtWorkers(ws, i)
  {
    var idle := Worker([], Asleep);
    AtWorkersUpdate(ws, k, idle, i);
    AtWorkersUpdate(ws[k := idle], l, idle, i);
  }

  lemma {:induction false} SomeWorkerHas(ws: seq<Worker>, i: nat)
    requires AtWorkers(ws, i) > 0
    ensures exists k :: 0 <= k < |ws| && AtWorker(ws[k], i) > 0
  {
    if AtWorker(ws[0], i) == 0 {
      SomeWorkerHas(ws[1..], i);
      var k :| 0 <= k < |ws[1..]| && AtWorker(ws[1..][k], i) > 0;
      assert AtWorker(ws[k + 1], i) > 0;
    }
  }

  /** `us` is `ws` with some sleepers woken. */
  ghost predicate Roused(ws: seq<Worker>, us: seq<Worker>) {
    |us| == |ws| && forall k :: 0 <= k < |ws| ==>
      us[k] == ws[k] || (ws[k].phase == Asleep && us[k] == ws[k].(phase := Looking))
  }

  lemma {:induction false} RousingKeepsTasks(ws: seq<Worker>, us: seq<Worker>, i: nat)
    requires Roused(ws, us)
    ensures AtWorkers(us, i) == AtWorkers(ws, i)
  {
    if ws != [] {
      RousingKeepsTasks(ws[1..], us[1..], i);
    }
  }

  /** Replacing one worker changes the place count by that worker's difference. */
  lemma PlacesAfterWorker(s: State, k: nat, w: Worker, i: nat)
    requires k < |s.workers|
    ensures Places(WithWorker(s, k, w), i) + AtWorker(s.workers[k], i) == Places(s, i) + AtWorker(w, i)
  {
    AtWorkersUpdate(s.workers, k, w, i);
  }

  lemma RefillKeepsTasks(queue: seq<nat>, n: nat, i: nat)
    requires 1 <= n <= |queue|
    ensures Occurrences(queue, i)
         == (if queue[0] == i then 1 else 0) + Occurrences(queue[1..n], i) + Occurrences(queue[n..], i)
  {
    assert queue[1..] == queue[1..n] + queue[n..];
    OccurrencesOfConcat(queue[1..n], queue[n..], i);
  }

  lemma LookKeepsPlaces(b: Batch, s: State, k: nat, i: nat)
    requires b.workers >= 1 && k < |s.workers| && s.workers[k].phase == Looking
    ensures Places(LookStep(b, s, k), i) == Places(s, i)
  {
    var ring, n := s.workers[k].ring, MinInt(b.Chunk(), |s.queue|);
    if ring != [] {
      PlacesAfterWorker(s, k, Worker(ring[1..], Asking(ring[0])), i);
    } else if s.queue != [] {
      RefillKeepsTasks(s.queue, n, i);
      PlacesAfterWorker(s, k, Worker(s.queue[1..n], Asking(s.queue[0])), i);
    } else {
      PlacesAfterWorker(s, k, Worker([], Asleep), i);
    }
  }

  // ---------------------------------------------------------------- the invariant

  ghost predicate Shape(b: Batch, s: State) {
    && |s.workers| == b.workers && |s.slots| == |b.items|
    && s.counted <= UpTo(|b.items|) && s.performed <= UpTo(|b.items|)
    && s.done == |s.counted|
    && (forall k :: 0 <= k < |s.workers| && HasTask(s.workers[k].phase) ==> s.workers[k].phase.task < |b.items|)
  }

  /** Every task of the batch is in exactly one place. */
  ghost predicate Conserved(b: Batch, s: State) {
    forall i: nat :: Places(s, i) == if i < |b.items| then 1 else 0
  }

  ghost predicate Written(s: State, i: nat) {
    i in s.counted || exists k :: 0 <= k < |s.workers| && s.workers[k].phase == Counting(i)
  }

  /** A slot is filled exactly when its task is written or counted. */
  ghost predicate SlotsMatch(b: Batch, s: State)
    requires |s.slots| == |b.items|
  {
    forall i :: 0 <= i < |b.items| ==> (s.slots[i].Some? <==> Written(s, i))
  }

  /** Every outcome, in a slot or about to be written, carries the answer of its item. */
  ghost predicate AnswersRight(b: Batch, s: State)
    requires BatchValid(b) && Shape(b, s)
  {
    && (forall i :: 0 <= i < |b.items| && s.slots[i].Some? ==>
          OutcomeOk(b.world, b.dc0, b.items[i], b.ladderLen, s.slots[i].value))
    && (forall k :: 0 <= k < |s.workers| && s.workers[k].phase.Writing? ==>
          OutcomeOk(b.world, b.dc0, b.items[s.workers[k].phase.task], b.ladderLen, s.workers[k].phase.out))
  }

  /** The caches hold their starting contents and the gains of the performed tasks, no more. */
  ghost predicate CachesExact(b: Batch, s: State)
    requires BatchValid(b)
  {
    && s.ec == b.ec0 + EvalGain(b.world, b.dc0, b.items, b.ladderLen, s.performed)
    && s.dc == b.dc0 + DecisionGain(b.world, b.dc0, b.items, b.ladderLen, s.performed)
  }

  ghost predicate PastAsking(b: Batch, s: State)
    requires Shape(b, s)
  {
    forall k :: 0 <= k < |s.workers| && (s.workers[k].phase.Probing? || s.workers[k].phase.Computing?) ==>
      DKey(b.items[s.workers[k].phase.task], b.ladderLen) !in b.dc0
  }

  ghost predicate PerformedFirst(s: State) {
    && s.counted <= s.performed
    && (forall k :: 0 <= k < |s.workers| && (s.workers[k].phase.Writing? || s.workers[k].phase.Counting?) ==>
          s.workers[k].phase.task in s.performed)
  }

  /** Sleepers hold nothing, and after the wake-up nobody sleeps while there is queued work. */
  ghost predicate SleepersIdle(s: State) {
    && (forall k :: 0 <= k < |s.workers| && s.workers[k].phase == Asleep ==> s.workers[k].ring == [])
    && (s.notified && s.queue != [] ==> forall k :: 0 <= k < |s.workers| ==> s.workers[k].phase != Asleep)
  }

  ghost predicate Inv(b: Batch, s: State) {
    && BatchValid(b) && Shape(b, s) && Conserved(b, s) && SlotsMatch(b, s) && AnswersRight(b, s)
    && CachesExact(b, s) && PastAsking(b, s) && PerformedFirst(s) && SleepersIdle(s)
  }

  /** A task in a worker's hands is not counted, and no other worker holds it. */
  lemma HeldOnce(b: Batch, s: State, k: nat)
    requires Shape(b, s) && Conserved(b, s) && k < |s.workers| && HasTask(s.workers[k].phase)
    ensures s.workers[k].phase.task !in s.counted
    ensures forall l :: 0 <= l < |s.workers| && l != k && HasTask(s.workers[l].phase) ==>
              s.workers[l].phase.task != s.workers[k].phase.task
  {
    var i := s.workers[k].phase.task;
    assert Places(s, i) == 1;
    AtWorkersUpdate(s.workers, k, s.workers[k], i);
    forall l | 0 <= l < |s.workers| && l != k && HasTask(s.workers[l].phase)
      ensures s.workers[l].phase.task != i
    {
      AtTwoWorkers(s.workers, k, l, i);
    }
  }

  /** Write-once: a worker about to write finds its slot empty. */
  lemma WritesOnce(b: Batch, s: State, k: nat)
    requires Inv(b, s) && k < |s.workers| && s.workers[k].phase.Writing?
    ensures s.slots[s.workers[k].phase.task].None?
  {
    HeldOnce(b, s, k);
  }

  // ---------------------------------------------------------------- preservation, one conjunct at a time

  /** What worker `k` is doing. */
  function PhaseAt(s: State, k: nat): Phase {
    if k < |s.workers| then s.workers[k].phase else Asleep
  }

  predicate UsesCaches(p: Phase) {
    p.Asking? || p.Probing? || p.Computing?
  }

  /** `t` is `s` after a cache step of worker `k` on task `i`: nothing but the worker's phase, the
      caches and the record of performed tasks moved. */
  ghost predicate OnlyCachesMoved(s: State, t: State, k: nat, i: nat)
    requires k < |s.workers|
  {
    && |t.workers| == |s.workers|
    && var p := t.workers[k].phase;
    && t.queue == s.queue && t.slots == s.slots && t.done == s.done && t.counted == s.counted
    && t.notified == s.notified
    && t.workers == s.workers[k := Worker(s.workers[k].ring, p)]
    && (p.Probing? || p.Computing? || p.Writing?) && p.task == i
    && t.performed == (if p.Writing? then s.performed + {i} else s.performed)
    && (!p.Writing? ==> t.ec == s.ec && t.dc == s.dc)
  }

  lemma AskFacts(b: Batch, s: State, k: nat, i: nat)
    requires k < |s.workers| && i < |b.items|
    ensures OnlyCachesMoved(s, AskStep(b, s, k, i), k, i)
    ensures AskStep(b, s, k, i).workers[k].phase.Writing? <==> DKey(b.items[i], b.ladderLen) in s.dc
  {
    hide DKey;
  }

  lemma ProbeFacts(b: Batch, s: State, k: nat, i: nat)
    requires k < |s.workers| && i < |b.items|
    ensures OnlyCachesMoved(s, ProbeStep(b, s, k, i), k, i)
    ensures ProbeStep(b, s, k, i).workers[k].phase.Writing? <==> EKey(b.items[i]) in s.ec
  {
    hide EKey;
  }

  lemma ComputeFacts(b: Batch, s: State, k: nat, i: nat)
    requires BatchValid(b) && k < |s.workers| && i < |b.items|
    ensures OnlyCachesMoved(s, ComputeStep(b, s, k, i), k, i)
    ensures ComputeStep(b, s, k, i).workers[k].phase.Writing?
  {
    hide DKey, EKey, Compute, ToReal, InvalidResult;
  }

  lemma CacheStepFacts(b: Batch, s: State, k: nat)
    requires BatchValid(b) && Enabled(b, s, k) && UsesCaches(s.workers[k].phase)
    ensures OnlyCachesMoved(s, StepWorker(b, s, k), k, s.workers[k].phase.task)
  {
    hide AskStep, ProbeStep, ComputeStep, LookStep, OnlyCachesMoved;
    var i := s.workers[k].phase.task;
    match s.workers[k].phase
    case Asking(_) => AskFacts(b, s, k, i);
    case Probing(_) => ProbeFacts(b, s, k, i);
    case Computing(_) => ComputeFacts(b, s, k, i);
  }

  /** Steps around the caches leave them, and the record of performed tasks, alone. */
  lemma PlainStepFacts(b: Batch, s: State, k: nat)
    requires BatchValid(b) && Enabled(b, s, k) && !UsesCaches(s.workers[k].phase)
    ensures var t, p := StepWorker(b, s, k), s.workers[k].phase;
      && t.ec == s.ec && t.dc == s.dc && t.performed == s.performed && t.notified == s.notified
      && |t.slots| == |s.slots| && |t.workers| == |s.workers|
      && (forall l :: 0 <= l < |s.workers| && l != k ==> t.workers[l] == s.workers[l])
      && (p == Looking ==> t.workers[k].phase == Asleep || t.workers[k].phase.Asking?)
      && (p == Looking ==> t == LookStep(b, s, k) && t.slots == s.slots && t.counted == s.counted)
      && (p != Looking ==> t.queue == s.queue && t.workers[k].ring == s.workers[k].ring)
      && (p.Writing? ==> t.workers[k].phase == Counting(p.task) && t.slots == s.slots[p.task := Some(p.out)]
                         && t.counted == s.counted)
      && (p.Counting? ==> t.workers[k].phase == Looking && t.slots == s.slots && t.counted == s.counted + {p.task})
  {
    hide AskStep, ProbeStep, ComputeStep;
  }

  lemma CacheStepKeepsPlaces(b: Batch, s: State, k: nat, i: nat)
    requires BatchValid(b) && Enabled(b, s, k) && UsesCaches(s.workers[k].phase)
    ensures Places(StepWorker(b, s, k), i) == Places(s, i)
  {
    hide StepWorker;
    var t := StepWorker(b, s, k);
    CacheStepFacts(b, s, k);
    PlacesAfterWorker(s, k, t.workers[k], i);
  }

  /** Conservation: no step loses or duplicates a task. */
  lemma StepKeepsPlaces(b: Batch, s: State, k: nat, i: nat)
    requires BatchValid(b) && Enabled(b, s, k)
    requires s.workers[k].phase.Counting? ==> s.workers[k].phase.task !in s.counted
    ensures Places(StepWorker(b, s, k), i) == Places(s, i)
  {
    hide LookStep, AskStep, ProbeStep, ComputeStep;
    if s.workers[k].phase == Looking {
      LookKeepsPlaces(b, s, k, i);
    } else if UsesCaches(s.workers[k].phase) {
      CacheStepKeepsPlaces(b, s, k, i);
    } else {
      PlacesAfterWorker(s, k, StepWorker(b, s, k).workers[k], i);
    }
  }

  lemma ConservedStep(b: Batch, s: State, k: nat)
    requires Inv(b, s) && Enabled(b, s, k)
    ensures Conserved(b, StepWorker(b, s, k))
  {
    hide Compute, InvalidResult, DKey, EKey, ToReal, LookStep, AskStep, ProbeStep, ComputeStep, Places,
      AnswersRight, CachesExact, PastAsking, PerformedFirst, SleepersIdle, SlotsMatch, StepWorker;
    if HasTask(s.workers[k].phase) {
      HeldOnce(b, s, k);
    }
    forall i: nat
      ensures Places(StepWorker(b, s, k), i) == if i < |b.items| then 1 else 0
    {
      StepKeepsPlaces(b, s, k, i);
    }
  }

  lemma QueuedInRange(b: Batch, s: State, i: nat)
    requires Conserved(b, s)
    requires i in s.queue || exists k :: 0 <= k < |s.workers| && i in s.workers[k].ring
    ensures i < |b.items|
  {
    OccurrencesPositive(s.queue, i);
    if k :| 0 <= k < |s.workers| && i in s.workers[k].ring {
      OccurrencesPositive(s.workers[k].ring, i);
      AtWorkersUpdate(s.workers, k, s.workers[k], i);
    }
    assert Places(s, i) >= 1;
  }

  lemma LookShape(b: Batch, s: State, k: nat)
    requires Inv(b, s) && Enabled(b, s, k) && s.workers[k].phase == Looking
    ensures Shape(b, LookStep(b, s, k))
  {
    hide Places, AnswersRight, CachesExact, PastAsking, PerformedFirst, SleepersIdle, SlotsMatch;
    if s.workers[k].ring != [] {
      QueuedInRange(b, s, s.workers[k].ring[0]);
    } else if s.queue != [] {
      QueuedInRange(b, s, s.queue[0]);
    }
  }

  lemma ShapeStep(b: Batch, s: State, k: nat)
    requires Inv(b, s) && Enabled(b, s, k)
    ensures Shape(b, StepWorker(b, s, k))
  {
    hide Places, Written, OutcomeOk, Conserved, SlotsMatch, AnswersRight, CachesExact, PastAsking,
      PerformedFirst, SleepersIdle, EvalGain, DecisionGain, LookStep, AskStep, ProbeStep, ComputeStep;
    if s.workers[k].phase == Looking {
      LookShape(b, s, k);
    } else {
      HeldOnce(b, s, k);
      if UsesCaches(s.workers[k].phase) {
        CacheStepFacts(b, s, k);
      }
    }
  }

  /** Only writing and counting steps change which tasks are written. */
  lemma WrittenStep(b: Batch, s: State, k: nat, i: nat)
    requires Inv(b, s) && Enabled(b, s, k)
    ensures Written(StepWorker(b, s, k), i)
       <==> Written(s, i) || (s.workers[k].phase.Writing? && s.workers[k].phase.task == i)
  {
    hide StepWorker, Places, OutcomeOk, Conserved, SlotsMatch, AnswersRight, CachesExact, PastAsking,
      PerformedFirst, SleepersIdle, EvalGain, DecisionGain;
    var t := StepWorker(b, s, k);
    if UsesCaches(s.workers[k].phase) {
      CacheStepFacts(b, s, k);
    } else {
      PlainStepFacts(b, s, k);
    }
    if Written(s, i) && i !in s.counted {
      var l :| 0 <= l < |s.workers| && s.workers[l].phase == Counting(i);
      if l != k {
        assert t.workers[l].phase == Counting(i);
      }
    }
    if s.workers[k].phase.Writing? && s.workers[k].phase.task == i {
      assert t.workers[k].phase == Counting(i);
    }
    if Written(t, i) && i !in t.counted {
      var l :| 0 <= l < |t.workers| && t.workers[l].phase == Counting(i);
      if l != k {
        assert s.workers[l].phase == Counting(i);
      }
    }
  }

  lemma SlotsStep(b: Batch, s: State, k: nat)
    requires Inv(b, s) && Enabled(b, s, k)
    ensures |StepWorker(b, s, k).slots| == |b.items| && SlotsMatch(b, StepWorker(b, s, k))
  {
    hide StepWorker, Places, Written, OutcomeOk, Conserved, AnswersRight, CachesExact, PastAsking,
      PerformedFirst, SleepersIdle, EvalGain, DecisionGain;
    var t := StepWorker(b, s, k);
    if UsesCaches(s.workers[k].phase) {
      CacheStepFacts(b, s, k);
    } else {
      PlainStepFacts(b, s, k);
    }
    forall i | 0 <= i < |b.items|
      ensures t.slots[i].Some? <==> Written(t, i)
    {
      WrittenStep(b, s, k, i);
    }
  }

  /** The caches seen by task `i` give it the answer fixed by the starting caches. */
  lemma SeenAnswer(b: Batch, s: State, i: nat)
    requires Inv(b, s) && i < |b.items|
    ensures Denote(b.world, s.dc, b.items[i], b.ladderLen) == Denote(b.world, b.dc0, b.items[i], b.ladderLen)
    ensures CoherentEval(b.world, s.ec)
  {
    hide Compute, Places, AnswersRight, PastAsking, PerformedFirst, SleepersIdle, SlotsMatch, Denote, EvalGain,
      DecisionGain;
    GainIsInvisible(b.world, b.dc0, b.items, b.ladderLen, s.performed, i);
    GainCoherent(b.world, b.ec0, b.dc0, b.items, b.ladderLen, s.performed);
  }

  lemma AskedAnswer(b: Batch, s: State, k: nat, i: nat)
    requires Inv(b, s) && k < |s.workers| && i < |b.items|
    requires AskStep(b, s, k, i).workers[k].phase.Writing?
    ensures OutcomeOk(b.world, b.dc0, b.items[i], b.ladderLen, AskStep(b, s, k, i).workers[k].phase.out)
  {
    hide Places, Conserved, SlotsMatch, AnswersRight, CachesExact, PastAsking, PerformedFirst, SleepersIdle,
      Compute, InvalidResult, DKey, EKey;
    SeenAnswer(b, s, i);
  }

  lemma ProbedAnswer(b: Batch, s: State, k: nat, i: nat)
    requires Inv(b, s) && k < |s.workers| && s.workers[k].phase == Probing(i)
    requires i < |b.items| && ProbeStep(b, s, k, i).workers[k].phase.Writing?
    ensures OutcomeOk(b.world, b.dc0, b.items[i], b.ladderLen, ProbeStep(b, s, k, i).workers[k].phase.out)
  {
    hide Places, Conserved, SlotsMatch, AnswersRight, CachesExact, PerformedFirst, SleepersIdle,
      Compute, InvalidResult, DKey, EKey;
    SeenAnswer(b, s, i);
  }

  lemma ComputedAnswer(b: Batch, s: State, k: nat, i: nat)
    requires Inv(b, s) && k < |s.workers| && s.workers[k].phase == Computing(i) && i < |b.items|
    ensures ComputeStep(b, s, k, i).workers[k].phase.Writing?
    ensures OutcomeOk(b.world, b.dc0, b.items[i], b.ladderLen, ComputeStep(b, s, k, i).workers[k].phase.out)
  {
    hide Places, Conserved, SlotsMatch, AnswersRight, CachesExact, PerformedFirst, SleepersIdle,
      Compute, InvalidResult, DKey, EKey, ToReal;
  }

  /** What a worker is about to write after a cache or compute step is right. */
  lemma FinishedAnswer(b: Batch, s: State, k: nat)
    requires BatchValid(b) && Inv(b, s) && Enabled(b, s, k)
    requires UsesCaches(s.workers[k].phase) && PhaseAt(StepWorker(b, s, k), k).Writing?
    ensures OutcomeOk(b.world, b.dc0, b.items[s.workers[k].phase.task], b.ladderLen,
                      PhaseAt(StepWorker(b, s, k), k).out)
  {
    hide Inv, OutcomeOk, AskStep, ProbeStep, ComputeStep, LookStep, BatchValid, WorldOk;
    BatchWorld(b);
    var i := s.workers[k].phase.task;
    match s.workers[k].phase
    case Asking(_) => AskedAnswer(b, s, k, i);
    case Probing(_) => ProbedAnswer(b, s, k, i);
    case Computing(_) => ComputedAnswer(b, s, k, i);
  }

  lemma AnswersStep(b: Batch, s: State, k: nat)
    requires Inv(b, s) && Enabled(b, s, k) && Shape(b, StepWorker(b, s, k))
    ensures AnswersRight(b, StepWorker(b, s, k))
  {
    hide StepWorker, Places, Written, OutcomeOk, Conserved, SlotsMatch, CachesExact, PastAsking, PerformedFirst,
      SleepersIdle, EvalGain, DecisionGain;
    var t := StepWorker(b, s, k);
    if UsesCaches(s.workers[k].phase) {
      CacheStepFacts(b, s, k);
    } else {
      PlainStepFacts(b, s, k);
    }
    if t.workers[k].phase.Writing? {
      FinishedAnswer(b, s, k);
    }
  }

  /** After a miss in the current decision cache the key is missing in the starting one. */
  lemma MissedInStart(b: Batch, s: State, k: nat)
    requires Inv(b, s) && Enabled(b, s, k) && s.workers[k].phase.Asking?
    requires !AskStep(b, s, k, s.workers[k].phase.task).workers[k].phase.Writing?
    ensures DKey(b.items[s.workers[k].phase.task], b.ladderLen) !in b.dc0
  {
    hide Places, Written, OutcomeOk, Conserved, SlotsMatch, AnswersRight, PastAsking, PerformedFirst, SleepersIdle,
      EvalGain, DecisionGain, DKey, EKey;
  }

  lemma PastAskingStep(b: Batch, s: State, k: nat)
    requires Inv(b, s) && Enabled(b, s, k) && Shape(b, StepWorker(b, s, k))
    ensures PastAsking(b, StepWorker(b, s, k))
  {
    hide Places, Written, OutcomeOk, Conserved, SlotsMatch, AnswersRight, CachesExact, PerformedFirst,
      SleepersIdle, EvalGain, DecisionGain, LookStep, AskStep, ProbeStep, ComputeStep, DKey;
    if UsesCaches(s.workers[k].phase) {
      CacheStepFacts(b, s, k);
    } else {
      PlainStepFacts(b, s, k);
    }
    if s.workers[k].phase.Asking? && !StepWorker(b, s, k).workers[k].phase.Writing? {
      MissedInStart(b, s, k);
    }
  }

  lemma AskContributes(b: Batch, s: State, k: nat, i: nat)
    requires BatchValid(b) && k < |s.workers| && i < |b.items|
    requires DKey(b.items[i], b.ladderLen) in s.dc
    ensures var t := AskStep(b, s, k, i);
      && t.ec == EvalAfter(b.world, s.ec, s.dc, b.items[i], b.ladderLen)
      && t.dc == DecisionAfter(b.world, s.dc, b.items[i], b.ladderLen)
  {
    hide Compute, DKey, EKey, InvalidResult;
  }

  /** A key that is in the current but not in the starting decision cache was gained in this batch. */
  lemma GainedSince(b: Batch, s: State, i: nat)
    requires Inv(b, s) && i < |b.items|
    requires DKey(b.items[i], b.ladderLen) in s.dc && DKey(b.items[i], b.ladderLen) !in b.dc0
    ensures Compute(b.world, EKey(b.items[i])).None?
    ensures s.dc[DKey(b.items[i], b.ladderLen)] == InvalidFor(b.world, b.items[i])
  {
    hide Places, Conserved, SlotsMatch, AnswersRight, PerformedFirst, SleepersIdle, PastAsking,
      Compute, DKey, EKey, InvalidResult, DecisionGain, EvalGain;
    GainedKeyIsInvalid(b.world, b.dc0, b.items, b.ladderLen, s.performed, i);
  }

  lemma ProbeContributes(b: Batch, s: State, k: nat, i: nat)
    requires Inv(b, s) && k < |s.workers| && i < |b.items| && s.workers[k].phase == Probing(i)
    requires EKey(b.items[i]) in s.ec
    ensures var t := ProbeStep(b, s, k, i);
      && t.ec == EvalAfter(b.world, s.ec, s.dc, b.items[i], b.ladderLen)
      && t.dc == DecisionAfter(b.world, s.dc, b.items[i], b.ladderLen)
  {
    hide Places, Conserved, SlotsMatch, AnswersRight, PerformedFirst, SleepersIdle, CachesExact,
      Compute, DKey, EKey, InvalidResult;
    SeenAnswer(b, s, i);
    if DKey(b.items[i], b.ladderLen) !in s.dc {
      KnownEntry(s.ec, EKey(b.items[i]), Compute(b.world, EKey(b.items[i])).value);
    }
  }

  lemma ComputeContributes(b: Batch, s: State, k: nat, i: nat)
    requires Inv(b, s) && k < |s.workers| && i < |b.items| && s.workers[k].phase == Computing(i)
    ensures var t := ComputeStep(b, s, k, i);
      && t.ec == EvalAfter(b.world, s.ec, s.dc, b.items[i], b.ladderLen)
      && t.dc == DecisionAfter(b.world, s.dc, b.items[i], b.ladderLen)
  {
    hide Places, Conserved, SlotsMatch, AnswersRight, PerformedFirst, SleepersIdle, CachesExact,
      Compute, DKey, EKey, InvalidResult, ToReal;
    if DKey(b.items[i], b.ladderLen) in s.dc {
      GainedSince(b, s, i);
      KnownEntry(s.dc, DKey(b.items[i], b.ladderLen), InvalidFor(b.world, b.items[i]));
    }
  }

  /** A finishing step changes the caches exactly as executing the item atomically would. */
  lemma ContributionMade(b: Batch, s: State, k: nat)
    requires BatchValid(b) && Inv(b, s) && Enabled(b, s, k)
    requires UsesCaches(s.workers[k].phase) && PhaseAt(StepWorker(b, s, k), k).Writing?
    ensures var i, t := s.workers[k].phase.task, StepWorker(b, s, k);
      && t.ec == EvalAfter(b.world, s.ec, s.dc, b.items[i], b.ladderLen)
      && t.dc == DecisionAfter(b.world, s.dc, b.items[i], b.ladderLen)
  {
    hide Inv, EvalAfter, DecisionAfter, AskStep, ProbeStep, ComputeStep, LookStep, OnlyCachesMoved;
    var i := s.workers[k].phase.task;
    match s.workers[k].phase
    case Asking(_) =>
      AskFacts(b, s, k, i);
      AskContributes(b, s, k, i);
    case Probing(_) =>
      ProbeFacts(b, s, k, i);
      ProbeContributes(b, s, k, i);
    case Computing(_) => ComputeContributes(b, s, k, i);
  }

  lemma CachesStep(b: Batch, s: State, k: nat)
    requires Inv(b, s) && Enabled(b, s, k)
    ensures CachesExact(b, StepWorker(b, s, k))
  {
    hide EvalAfter, DecisionAfter, StepWorker, Places, Written, OutcomeOk, Conserved, SlotsMatch, AnswersRight,
      PastAsking, PerformedFirst, SleepersIdle, EvalGain, DecisionGain;
    if !UsesCaches(s.workers[k].phase) {
      PlainStepFacts(b, s, k);
    } else {
      CacheStepFacts(b, s, k);
      if StepWorker(b, s, k).workers[k].phase.Writing? {
        ContributionMade(b, s, k);
        ExecutionExtendsGains(b.world, b.ec0, b.dc0, b.items, b.ladderLen, s.performed, s.workers[k].phase.task);
      }
    }
  }

  lemma PerformedStep(b: Batch, s: State, k: nat)
    requires Inv(b, s) && Enabled(b, s, k)
    ensures PerformedFirst(StepWorker(b, s, k))
  {
    hide StepWorker, Places, Written, OutcomeOk, Conserved, SlotsMatch, AnswersRight, CachesExact, PastAsking,
      SleepersIdle, EvalGain, DecisionGain;
    if UsesCaches(s.workers[k].phase) {
      CacheStepFacts(b, s, k);
    } else {
      PlainStepFacts(b, s, k);
    }
  }

  lemma SleepStep(b: Batch, s: State, k: nat)
    requires Inv(b, s) && Enabled(b, s, k)
    ensures SleepersIdle(StepWorker(b, s, k))
  {
    hide Places, Shape, Conserved, PerformedFirst, SlotsMatch, AnswersRight, CachesExact, PastAsking, StepWorker;
    if UsesCaches(s.workers[k].phase) {
      CacheStepFacts(b, s, k);
    } else {
      PlainStepFacts(b, s, k);
    }
  }

  /** Waking workers keeps the invariant. */
  lemma RousingKeepsInv(b: Batch, s: State, t: State)
    requires Inv(b, s) && Roused(s.workers, t.workers) && t == s.(workers := t.workers, notified := t.notified)
    requires t.notified && !s.notified ==> forall k :: 0 <= k < |t.workers| ==> t.workers[k].phase != Asleep
    ensures Inv(b, t)
  {
    hide OutcomeOk, Compute, EvalGain, DecisionGain, DKey, Places, Written;
    forall i: nat
      ensures Places(t, i) == Places(s, i) && (Written(t, i) <==> Written(s, i))
    {
      RousingKeepsTask(s, t, i);
    }
  }

  lemma RousingKeepsTask(s: State, t: State, i: nat)
    requires Roused(s.workers, t.workers) && t == s.(workers := t.workers, notified := t.notified)
    ensures Places(t, i) == Places(s, i)
    ensures Written(t, i) <==> Written(s, i)
  {
    RousingKeepsTasks(s.workers, t.workers, i);
    if Written(s, i) && i !in s.counted {
      var l :| 0 <= l < |s.workers| && s.workers[l].phase == Counting(i);
      assert t.workers[l].phase == Counting(i);
    }
    if Written(t, i) && i !in t.counted {
      var l :| 0 <= l < |t.workers| && t.workers[l].phase == Counting(i);
      assert s.workers[l].phase == Counting(i);
    }
  }

  lemma InvNeedsBatch(b: Batch, s: State)
    requires Inv(b, s)
    ensures BatchValid(b)
  {
  }

  lemma ProgressKeepsInv(b: Batch, s: State, t: State)
    requires Inv(b, s) && Progress(b, s, t)
    ensures Inv(b, t)
  {
    hide Inv, StepWorker, Enabled;
    InvNeedsBatch(b, s);
    if !s.notified && t == Notified(s) {
      RousingKeepsInv(b, s, t);
    } else {
      var k :| Enabled(b, s, k) && t == StepWorker(b, s, k);
      StepKeepsInv(b, s, k);
    }
  }

  /** Every step of a worker, of the engine thread and every spurious wake-up keeps the invariant. */
  lemma NextKeepsInv(b: Batch, s: State, t: State)
    requires Inv(b, s) && Next(b, s, t)
    ensures Inv(b, t)
  {
    hide Inv, Progress;
    InvNeedsBatch(b, s);
    if Progress(b, s, t) {
      ProgressKeepsInv(b, s, t);
    } else {
      RousingKeepsInv(b, s, t);
    }
  }

  lemma StepKeepsInv(b: Batch, s: State, k: nat)
    requires Inv(b, s) && Enabled(b, s, k)
    ensures Inv(b, StepWorker(b, s, k))
  {
    hide Shape, Conserved, SlotsMatch, AnswersRight, CachesExact, PastAsking, PerformedFirst, SleepersIdle,
      StepWorker, Enabled;
    ShapeStep(b, s, k);
    ConservedStep(b, s, k);
    SlotsStep(b, s, k);
    AnswersStep(b, s, k);
    CachesStep(b, s, k);
    PastAskingStep(b, s, k);
    PerformedStep(b, s, k);
    SleepStep(b, s, k);
  }

  // ---------------------------------------------------------------- starting

  lemma {:induction false} IdleHoldNothing(ws: seq<Worker>, i: nat)
    requires forall k :: 0 <= k < |ws| ==> IsIdle(ws[k])
    ensures AtWorkers(ws, i) == 0
  {
    if ws != [] {
      IdleHoldNothing(ws[1..], i);
    }
  }

  /** The tasks `lo, lo + 1, ...` queued in order. */
  lemma {:induction false} OccurrencesOfRange(queue: seq<nat>, lo: nat, i: nat)
    requires forall k :: 0 <= k < |queue| ==> queue[k] == lo + k
    ensures Occurrences(queue, i) == if lo <= i < lo + |queue| then 1 else 0
  {
    if queue != [] {
      OccurrencesOfRange(queue[1..], lo + 1, i);
    }
  }

  lemma InitPlaces(b: Batch, s: State, i: nat)
    requires Init(b, s)
    ensures Places(s, i) == if i < |b.items| then 1 else 0
  {
    OccurrencesOfRange(s.queue, 0, i);
    IdleHoldNothing(s.workers, i);
  }

  lemma InitInv(b: Batch, s: State)
    requires BatchValid(b) && Init(b, s)
    ensures Inv(b, s)
  {
    hide OutcomeOk, CoherentEval, EvalGain, DecisionGain, Places;
    forall i: nat
      ensures Places(s, i) == if i < |b.items| then 1 else 0
    {
      InitPlaces(b, s, i);
    }
    BatchWorld(b);
    GainsOfNothing(b.world, b.dc0, b.items, b.ladderLen);
  }

  // ---------------------------------------------------------------- termination and progress

  function PhaseWork(p: Phase): nat {
    match p
    case Asleep => 0
    case Looking => 1
    case Counting(_) => 2
    case Writing(_, _) => 3
    case Computing(_) => 4
    case Probing(_) => 5
    case Asking(_) => 6
  }

  function WorkOf(w: Worker): nat {
    7 * |w.ring| + PhaseWork(w.phase)
  }

  function WorkOfAll(ws: seq<Worker>): nat {
    if ws == [] then 0 else WorkOf(ws[0]) + WorkOfAll(ws[1..])
  }

  /** An upper bound on the steps left in a state. */
  function Measure(s: State): nat {
    8 * |s.queue| + WorkOfAll(s.workers) + if s.notified then 0 else |s.workers| + 1
  }

  lemma {:induction false} WorkOfAllUpdate(ws: seq<Worker>, k: nat, w: Worker)
    requires k < |ws|
    ensures WorkOfAll(ws[k := w]) + WorkOf(ws[k]) == WorkOfAll(ws) + WorkOf(w)
  {
    var t := ws[k := w];
    if k == 0 {
      assert t[1..] == ws[1..];
    } else {
      assert t[1..] == ws[1..][k - 1 := w];
      WorkOfAllUpdate(ws[1..], k - 1, w);
    }
  }

  lemma {:induction false} WakeCosts(ws: seq<Worker>)
    ensures WorkOfAll(Wake(ws)) <= WorkOfAll(ws) + |ws|
  {
    if ws != [] {
      assert Wake(ws)[1..] == Wake(ws[1..]);
      WakeCosts(ws[1..]);
    }
  }

  lemma LookDecreases(b: Batch, s: State, k: nat)
    requires b.workers >= 1 && k < |s.workers| && s.workers[k].phase == Looking
    ensures Measure(LookStep(b, s, k)) < Measure(s)
  {
    var n := MinInt(b.Chunk(), |s.queue|);
    var ring := s.workers[k].ring;
    if ring != [] {
      WorkOfAllUpdate(s.workers, k, Worker(ring[1..], Asking(ring[0])));
    } else if s.queue != [] {
      WorkOfAllUpdate(s.workers, k, Worker(s.queue[1..n], Asking(s.queue[0])));
    } else {
      WorkOfAllUpdate(s.workers, k, Worker([], Asleep));
    }
  }

  lemma CacheStepDecreases(b: Batch, s: State, k: nat)
    requires BatchValid(b) && Enabled(b, s, k) && UsesCaches(s.workers[k].phase)
    ensures Measure(StepWorker(b, s, k)) < Measure(s)
  {
    hide AskStep, ProbeStep, ComputeStep;
    var i := s.workers[k].phase.task;
    match s.workers[k].phase
    case Asking(_) =>
      AskFacts(b, s, k, i);
      AskMovesOn(b, s, k, i);
      WorkOfAllUpdate(s.workers, k, AskStep(b, s, k, i).workers[k]);
    case Probing(_) =>
      ProbeFacts(b, s, k, i);
      ProbeMovesOn(b, s, k, i);
      WorkOfAllUpdate(s.workers, k, ProbeStep(b, s, k, i).workers[k]);
    case Computing(_) =>
      ComputeFacts(b, s, k, i);
      WorkOfAllUpdate(s.workers, k, ComputeStep(b, s, k, i).workers[k]);
  }

  lemma AskMovesOn(b: Batch, s: State, k: nat, i: nat)
    requires k < |s.workers| && i < |b.items|
    ensures PhaseWork(PhaseAt(AskStep(b, s, k, i), k)) <= 5
  {
    hide DKey;
  }

  lemma ProbeMovesOn(b: Batch, s: State, k: nat, i: nat)
    requires k < |s.workers| && i < |b.items|
    ensures PhaseWork(PhaseAt(ProbeStep(b, s, k, i), k)) <= 4
  {
    hide EKey;
  }

  /** Every step, of a worker or of the engine thread, uses up work. */
  lemma ProgressDecreases(b: Batch, s: State, t: State)
    requires BatchValid(b) && Progress(b, s, t)
    ensures Measure(t) < Measure(s)
  {
    hide StepWorker, Enabled;
    if !s.notified && t == Notified(s) {
      WakeCosts(s.workers);
    } else {
      var k :| Enabled(b, s, k) && t == StepWorker(b, s, k);
      StepDecreases(b, s, k);
    }
  }

  /** A spurious wake-up costs one look. */
  lemma SpuriousCosts(s: State, t: State)
    requires Spurious(s, t)
    ensures Measure(t) == Measure(s) + 1
  {
    var k :| 0 <= k < |s.workers| && s.workers[k].phase == Asleep && t == WokenOne(s, k);
    WorkOfAllUpdate(s.workers, k, t.workers[k]);
  }

  lemma StepDecreases(b: Batch, s: State, k: nat)
    requires BatchValid(b) && Enabled(b, s, k)
    ensures Measure(StepWorker(b, s, k)) < Measure(s)
  {
    hide LookStep, AskStep, ProbeStep, ComputeStep;
    if s.workers[k].phase == Looking {
      LookDecreases(b, s, k);
    } else if UsesCaches(s.workers[k].phase) {
      CacheStepDecreases(b, s, k);
    } else {
      WorkOfAllUpdate(s.workers, k, StepWorker(b, s, k).workers[k]);
    }
  }

  lemma SmallerSetMisses(a: set<nat>, c: set<nat>) returns (i: nat)
    requires a <= c && |a| < |c|
    ensures i in c && i !in a
  {
    if forall x :: x in c ==> x in a {
      SubsetSize(c, a);
    }
    i :| i in c && i !in a;
  }

  lemma SameSizeSubset(a: set<nat>, c: set<nat>)
    requires a <= c && |a| == |c|
    ensures a == c
  {
    if a != c {
      var i :| i in c && i !in a;
      SubsetSize(a, c - {i});
    }
  }

  lemma {:induction false} SubsetSize(a: set<nat>, c: set<nat>)
    requires a <= c
    ensures |a| <= |c|
  {
    if a != {} {
      var i :| i in a;
      SubsetSize(a - {i}, c - {i});
    }
  }

  /** No deadlock: after the wake-up some worker can move until every task is counted. */
  lemma SomeWorkerEnabled(b: Batch, s: State) returns (k: nat)
    requires Inv(b, s) && s.notified && s.done < |b.items|
    ensures Enabled(b, s, k)
  {
    hide SlotsMatch, AnswersRight, CachesExact, PastAsking, PerformedFirst;
    var i := SmallerSetMisses(s.counted, UpTo(|b.items|));
    assert Places(s, i) == 1;
    if s.queue != [] {
      k := 0;
    } else {
      SomeWorkerHas(s.workers, i);
      k :| 0 <= k < |s.workers| && AtWorker(s.workers[k], i) > 0;
    }
  }

  // ---------------------------------------------------------------- whole runs

  ghost predicate Run(b: Batch, trace: seq<State>)
    requires BatchValid(b)
  {
    && |trace| >= 1 && Init(b, trace[0])
    && (forall i :: 0 <= i < |trace| - 1 ==> Next(b, trace[i], trace[i + 1]))
  }

  /** The spurious wake-ups of a run. */
  ghost function SpuriousIn(trace: seq<State>): nat {
    if |trace| <= 1 then 0
    else SpuriousIn(trace[..|trace| - 1]) + if Spurious(trace[|trace| - 2], trace[|trace| - 1]) then 1 else 0
  }

  lemma {:induction false} RunKeepsInv(b: Batch, trace: seq<State>)
    requires BatchValid(b) && Run(b, trace)
    ensures Inv(b, trace[|trace| - 1])
    ensures |trace| + Measure(trace[|trace| - 1]) <= Measure(trace[0]) + 1 + 2 * SpuriousIn(trace)
  {
    hide Inv, Init, BatchValid, Measure, Progress, Spurious;
    var m := |trace| - 1;
    if m == 0 {
      InitInv(b, trace[0]);
    } else {
      RunKeepsInv(b, trace[..m]);
      assert Next(b, trace[m - 1], trace[m - 1 + 1]);
      NextKeepsInv(b, trace[m - 1], trace[m]);
      if Spurious(trace[m - 1], trace[m]) {
        SpuriousCosts(trace[m - 1], trace[m]);
      } else {
        ProgressDecreases(b, trace[m - 1], trace[m]);
      }
    }
  }

  lemma {:induction false} IdleWork(ws: seq<Worker>)
    requires forall k :: 0 <= k < |ws| ==> IsIdle(ws[k])
    ensures WorkOfAll(ws) <= |ws|
  {
    if ws != [] {
      IdleWork(ws[1..]);
    }
  }

  /** No run goes on for more than `8 n + 2 w + 1` steps, and two more for every spurious wake-up. */
  lemma RunsAreShort(b: Batch, trace: seq<State>)
    requires BatchValid(b) && Run(b, trace)
    ensures |trace| - 1 <= 8 * |b.items| + 2 * b.workers + 1 + 2 * SpuriousIn(trace)
  {
    hide Inv, Next, BatchValid;
    RunKeepsInv(b, trace);
    IdleWork(trace[0].workers);
  }

  /** Neither the engine thread nor any worker has a step left; all workers may sleep. */
  ghost predicate Stuck(b: Batch, s: State) {
    s.notified && forall k :: 0 <= k < |s.workers| ==> !Enabled(b, s, k)
  }

  /** A run that cannot be continued has counted every task. */
  lemma StuckMeansDone(b: Batch, trace: seq<State>)
    requires BatchValid(b) && Run(b, trace) && Stuck(b, trace[|trace| - 1])
    ensures trace[|trace| - 1].done == |b.items|
  {
    hide Init, StepWorker, SlotsMatch, AnswersRight, CachesExact, PastAsking, PerformedFirst, Conserved, SleepersIdle;
    var s := trace[|trace| - 1];
    RunKeepsInv(b, trace);
    if s.done < |b.items| {
      var k := SomeWorkerEnabled(b, s);
    } else {
      SubsetSize(s.counted, UpTo(|b.items|));
    }
  }

  /** The engine thread reads the slots in submission order. */
  function Collected(s: State): seq<WorkOutcome>
    requires forall i :: 0 <= i < |s.slots| ==> s.slots[i].Some?
  {
    seq(|s.slots|, i requires 0 <= i < |s.slots| => s.slots[i].value)
  }

  /** Barrier safety: once `done` reaches the batch size no task is anywhere but counted, no write is
      pending, every slot was filled, and the caches have their final contents. */
  lemma BarrierIsSafe(b: Batch, s: State)
    requires Inv(b, s) && s.done == |b.items|
    ensures s.counted == UpTo(|b.items|) && s.queue == []
    ensures forall k :: 0 <= k < |s.workers| ==> IsIdle(s.workers[k])
    ensures forall i :: 0 <= i < |s.slots| ==> s.slots[i].Some?
    ensures s.ec == EvalAfterBatch(b.world, b.ec0, b.dc0, b.items, b.ladderLen)
    ensures s.dc == DecisionAfterBatch(b.world, b.dc0, b.items, b.ladderLen)
  {
    hide AnswersRight, PastAsking, SleepersIdle, EvalGain, DecisionGain, Conserved, CoherentEval;
    SameSizeSubset(s.counted, UpTo(|b.items|));
    assert s.performed == UpTo(|b.items|);
    NothingLeft(b, s);
  }

  /** With all tasks counted, a task is nowhere else. */
  lemma CountedOnly(b: Batch, s: State, i: nat)
    requires Conserved(b, s) && s.counted == UpTo(|b.items|)
    ensures Occurrences(s.queue, i) == 0 && AtWorkers(s.workers, i) == 0
  {
    assert Places(s, i) == if i < |b.items| then 1 else 0;
  }

  lemma EmptyIfNothingOccurs(s: seq<nat>)
    ensures (forall i: nat :: Occurrences(s, i) == 0) ==> s == []
  {
    if s != [] {
      OccurrencesPositive(s, s[0]);
    }
  }

  lemma NobodyHolds(ws: seq<Worker>, k: nat)
    requires k < |ws| && forall i: nat :: AtWorkers(ws, i) == 0
    ensures IsIdle(ws[k])
  {
    var w := ws[k];
    if w.ring != [] {
      AtWorkersUpdate(ws, k, w, w.ring[0]);
      OccurrencesPositive(w.ring, w.ring[0]);
    } else if HasTask(w.phase) {
      AtWorkersUpdate(ws, k, w, w.phase.task);
    }
  }

  lemma NothingLeft(b: Batch, s: State)
    requires Shape(b, s) && Conserved(b, s) && s.counted == UpTo(|b.items|)
    ensures s.queue == []
    ensures forall k :: 0 <= k < |s.workers| ==> IsIdle(s.workers[k])
  {
    forall i: nat
      ensures Occurrences(s.queue, i) == 0 && AtWorkers(s.workers, i) == 0
    {
      CountedOnly(b, s, i);
    }
    EmptyIfNothingOccurs(s.queue);
    forall k | 0 <= k < |s.workers|
      ensures IsIdle(s.workers[k])
    {
      NobodyHolds(s.workers, k);
    }
  }

  /** The pool refines the sequential executor: whatever the interleaving and the number of workers,
      a finished batch has one outcome per item in submission order, each with the answer that any
      run of the sequential executor gives, and leaves the same caches behind. */
  lemma PoolRefinesInline(b: Batch, trace: seq<State>, inline: seq<WorkOutcome>)
    requires BatchValid(b) && Run(b, trace) && trace[|trace| - 1].done == |b.items|
    requires BatchOk(b.world, b.dc0, b.items, b.ladderLen, inline)
    ensures var s := trace[|trace| - 1];
      && (forall i :: 0 <= i < |s.slots| ==> s.slots[i].Some?)
      && BatchOk(b.world, b.dc0, b.items, b.ladderLen, Collected(s))
      && (forall i :: 0 <= i < |b.items| ==>
            Collected(s)[i].item == inline[i].item && AnswerOf(Collected(s)[i]) == AnswerOf(inline[i]))
      && s.ec == EvalAfterBatch(b.world, b.ec0, b.dc0, b.items, b.ladderLen)
      && s.dc == DecisionAfterBatch(b.world, b.dc0, b.items, b.ladderLen)
  {
    hide Init, Next, EvalAfterBatch, DecisionAfterBatch, CachesExact, SlotsMatch, Conserved, Denote, AnswerOf;
    RunKeepsInv(b, trace);
    BarrierIsSafe(b, trace[|trace| - 1]);
  }
}
