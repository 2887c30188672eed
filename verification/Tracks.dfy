/** The history of every candidate of a run, tied to the record of the run: what the laws of one candidate's
    history say holds of the candidates in the store. */
module Tracks {
  import opened Types
  import opened Sorting
  import opened Margin
  import opened Executor
  import opened Lifecycle
  import opened StepLaws
  import opened Store
  import opened EngineLog

  /** The states a candidate went through between its visits. */
  datatype Track = Track(states: seq<Candidate>, visits: seq<Visit>)

  type TrackMap = map<nat, Track>

  /** The setting all candidates of a run share. */
  datatype Setting = Setting(world: World, rev: EnvRev, ladder: seq<Phi>, prune: PruneConfig)

  ghost predicate IsNew(c: Candidate) {
    c == NewCandidate(c.id, c.x, c.submittedPolicyRev, c.submittedIncumbentId)
  }

  /** A history from a new candidate on. */
  ghost predicate TrackOk(st: Setting, t: Track) {
    History(st.world, st.rev, st.ladder, st.prune, t.states, t.visits) && IsNew(t.states[0])
  }

  ghost function LastState(t: Track): Candidate
    requires t.states != []
  {
    t.states[|t.states| - 1]
  }

  /** The stored candidate is the last state of its track, possibly dispatched again. */
  ghost predicate Current(t: Track, c: Candidate) {
    && t.states != [] && LastState(t).id == c.id
    && if c.status.InFlight? then
         LastState(t).status == Ready && c == Dispatched(LastState(t), c.submittedPolicyRev, c.submittedIncumbentId)
       else c == LastState(t)
  }

  /** The levels at which a log decides candidate `id`, in order. */
  function LevelsIn(log: seq<Decision>, id: nat): seq<nat> {
    if log == [] then []
    else
      var r, item := LevelsIn(log[..|log| - 1], id), log[|log| - 1].item;
      if item.candId == id then r + [item.phiIdx] else r
  }

  /** The candidate has a track, which says what the log says. */
  ghost predicate Tracked(st: Setting, log: seq<Decision>, tracks: TrackMap, c: Candidate) {
    && c.id in tracks && TrackOk(st, tracks[c.id]) && Current(tracks[c.id], c)
    && LevelsIn(log, c.id) == LevelsOf(tracks[c.id].visits)
  }

  ghost predicate TracksOk(st: Setting, cands: seq<Candidate>, index: Index, log: seq<Decision>, tracks: TrackMap) {
    && (forall i :: 0 <= i < |cands| ==> Tracked(st, log, tracks, cands[i]))
    && (forall i :: 0 <= i < |log| ==> log[i].item.candId in index)
  }

  lemma {:induction false} NoLevels(log: seq<Decision>, id: nat)
    requires forall i :: 0 <= i < |log| ==> log[i].item.candId != id
    ensures LevelsIn(log, id) == []
  {
    if log != [] {
      NoLevels(log[..|log| - 1], id);
    }
  }

  lemma OneMoreLevel(log: seq<Decision>, d: Decision, id: nat)
    ensures LevelsIn(log + [d], id)
         == if d.item.candId == id then LevelsIn(log, id) + [d.item.phiIdx] else LevelsIn(log, id)
  {
    assert (log + [d])[..|log|] == log;
  }

  // ---------------------------------------------------------------- the engine keeps tracks

  lemma TrackStarts(st: Setting, c: Candidate)
    requires CandidateOk(st.world, st.rev, st.ladder, c) && IsNew(c)
    ensures TrackOk(st, Track([c], [])) && Current(Track([c], []), c)
  {
    hide CandidateOk;
  }

  /** A new candidate starts a track. */
  lemma AddKeepsTracks(st: Setting, cands: seq<Candidate>, index: Index, log: seq<Decision>, tracks: TrackMap,
                       c: Candidate)
    requires TracksOk(st, cands, index, log, tracks) && IndexOk(cands, index)
    requires CandidateOk(st.world, st.rev, st.ladder, c) && IsNew(c) && c.id !in index
    ensures TracksOk(st, cands + [c], index[c.id := |cands|], log, tracks[c.id := Track([c], [])])
  {
    hide CandidateOk, TrackOk, Current, IsNew;
    TrackStarts(st, c);
    NoLevels(log, c.id);
    var more, next := cands + [c], tracks[c.id := Track([c], [])];
    forall i | 0 <= i < |more|
      ensures Tracked(st, log, next, more[i])
    {
      if i < |cands| {
        assert Tracked(st, log, tracks, cands[i]);
      }
    }
  }

  /** Dispatching a ready candidate keeps its track. */
  lemma MarkKeepsTracks(st: Setting, cands: seq<Candidate>, index: Index, log: seq<Decision>, tracks: TrackMap,
                        pos: nat, policyRev: nat, incumbentId: nat)
    requires TracksOk(st, cands, index, log, tracks) && pos < |cands| && cands[pos].status == Ready
    ensures TracksOk(st, cands[pos := Dispatched(cands[pos], policyRev, incumbentId)], index, log, tracks)
  {
    hide TrackOk;
    assert Tracked(st, log, tracks, cands[pos]);
  }

  /** A processed outcome is one more visit on the track of its candidate. */
  lemma VisitExtendsTrack(st: Setting, t: Track, v: Visit, after: Candidate)
    requires TrackOk(st, t) && Takes(v, LastState(t), after)
    requires v.ctx.world == st.world && v.ctx.rev == st.rev && v.ctx.ladder == st.ladder && v.ctx.prune == st.prune
    ensures TrackOk(st, Track(t.states + [after], t.visits + [v]))
  {
    hide CandidateOk, Takes, IsNew;
    var states, visits := t.states + [after], t.visits + [v];
    forall i | 0 <= i < |visits|
      ensures Takes(visits[i], states[i], states[i + 1])
    {
      if i < |t.visits| {
        assert Takes(t.visits[i], t.states[i], t.states[i + 1]);
      }
    }
  }

  lemma StepTakes(v: Visit, last: Candidate, c: Candidate)
    requires StepPre(v.ctx, c, v.out) && last.status == Ready
    requires c == Dispatched(last, v.out.item.policyRev, v.out.item.incumbentId)
    ensures Takes(v, last, StepCandidate(v.ctx, c, v.out))
  {
    hide CandidateOk, OutcomeSound, CandidateAfter, VerdictOf, ResultOf;
    StepMaterializable(v.ctx, c, v.out);
  }

  lemma LandKeepsTracks(st: Setting, cands: seq<Candidate>, index: Index, log: seq<Decision>, tracks: TrackMap,
                        pos: nat, v: Visit, d: Decision)
    returns (next: TrackMap)
    requires TracksOk(st, cands, index, log, tracks) && IndexOk(cands, index)
    requires pos < |cands| && StepPre(v.ctx, cands[pos], v.out)
    requires v.ctx.world == st.world && v.ctx.rev == st.rev && v.ctx.ladder == st.ladder && v.ctx.prune == st.prune
    requires v.out.item.candId == cands[pos].id && d.item == v.out.item
    requires v.out.item.policyRev == cands[pos].submittedPolicyRev
    requires v.out.item.incumbentId == cands[pos].submittedIncumbentId
    ensures var c, after := cands[pos], StepCandidate(v.ctx, cands[pos], v.out);
      && TracksOk(st, cands[pos := after], index, log + [d], next)
      && c.id in tracks && next == tracks[c.id := Track(tracks[c.id].states + [after], tracks[c.id].visits + [v])]
  {
    hide CandidateOk, TrackOk, Takes, StepPre, StepCandidate;
    var c := cands[pos];
    var after := StepCandidate(v.ctx, c, v.out);
    var t := tracks[c.id];
    assert Tracked(st, log, tracks, c);
    InFlightForStep(v, c);
    StepTakes(v, LastState(t), c);
    VisitExtendsTrack(st, t, v, after);
    StepLands(v.ctx, c, v.out);
    var u := Track(t.states + [after], t.visits + [v]);
    next := tracks[c.id := u];
    var moved := cands[pos := after];
    forall i | 0 <= i < |moved|
      ensures Tracked(st, log + [d], next, moved[i])
    {
      OneMoreLevel(log, d, moved[i].id);
      if i == pos {
        assert LevelsOf(u.visits) == LevelsOf(t.visits) + [v.out.item.phiIdx];
      } else {
        assert Tracked(st, log, tracks, cands[i]);
      }
    }
  }

  lemma InFlightForStep(v: Visit, c: Candidate)
    requires StepPre(v.ctx, c, v.out)
    ensures c.status.InFlight?
  {
    hide CandidateOk, OutcomeSound;
  }

  lemma StepLands(ctx: StepContext, c: Candidate, out: WorkOutcome)
    requires StepPre(ctx, c, out)
    ensures StepCandidate(ctx, c, out).id == c.id && !StepCandidate(ctx, c, out).status.InFlight?
  {
    hide StepPre, StepCandidate, CandidateOk;
    StepAdvances(ctx, c, out);
  }

  // ---------------------------------------------------------------- what the tracks say about the log

  /** The log decides a candidate at strictly ascending levels, hence at most once per rung. */
  lemma LevelsOfRunAscend(st: Setting, cands: seq<Candidate>, index: Index, log: seq<Decision>, tracks: TrackMap,
                          id: nat)
    requires TracksOk(st, cands, index, log, tracks) && IndexOk(cands, index)
    ensures Ascending(LevelsIn(log, id)) && |LevelsIn(log, id)| <= |st.ladder|
  {
    hide History, Current;
    if id in index {
      var c := cands[index[id]];
      assert Tracked(st, log, tracks, c);
      HistoryAscends(st.world, st.rev, st.ladder, st.prune, tracks[id].states, tracks[id].visits);
    } else {
      NoLevels(log, id);
    }
  }

  lemma {:induction false} LevelIsIn(log: seq<Decision>, i: nat)
    requires i < |log|
    ensures log[i].item.phiIdx in LevelsIn(log, log[i].item.candId)
  {
    var n := |log| - 1;
    if i < n {
      LevelIsIn(log[..n], i);
    }
  }

  /** Levels of earlier decisions come first. */
  lemma {:induction false} PrefixLevels(log: seq<Decision>, n: nat, id: nat)
    requires n <= |log|
    ensures LevelsIn(log[..n], id) <= LevelsIn(log, id)
    decreases |log| - n
  {
    if n == |log| {
      assert log[..n] == log;
    } else {
      PrefixLevels(log, n + 1, id);
      assert log[..n + 1][..n] == log[..n];
    }
  }

  /** Two decisions about one candidate: the later one is at the higher level. */
  lemma LaterIsHigher(log: seq<Decision>, i: nat, j: nat)
    requires i < j < |log| && log[i].item.candId == log[j].item.candId
    requires Ascending(LevelsIn(log, log[j].item.candId))
    ensures log[i].item.phiIdx < log[j].item.phiIdx
  {
    var id := log[j].item.candId;
    var before, through := LevelsIn(log[..j], id), LevelsIn(log[..j + 1], id);
    LevelIsIn(log[..j], i);
    PrefixLevels(log, j + 1, id);
    assert log[..j + 1][..j] == log[..j];
    assert through == before + [log[j].item.phiIdx];
    var k :| 0 <= k < |before| && before[k] == log[i].item.phiIdx;
    assert through[k] < through[|before|];
  }

  /** With pruning off for audits: since its cut, the log decides an audited candidate exactly along the
      path of the cut. Between batches it is ready at the next level of the path, or done as invalid, or
      done as a truth after the whole path. */
  lemma AuditOfRunFollowsPath(st: Setting, cands: seq<Candidate>, index: Index, log: seq<Decision>, tracks: TrackMap,
                              pos: nat) returns (k: nat)
    requires TracksOk(st, cands, index, log, tracks) && st.prune.disableForAudit
    requires pos < |cands| && cands[pos].auditRequired && !cands[pos].status.InFlight?
    ensures AuditTrail(st.ladder, cands[pos], LevelsIn(log, cands[pos].id), k)
  {
    hide History, AuditTrail;
    var c := cands[pos];
    assert Tracked(st, log, tracks, c);
    var t := tracks[c.id];
    HistoryShape(st, t);
    k := AuditLeavesTrail(st.world, st.rev, st.ladder, st.prune, t.states, t.visits, |t.visits|);
    assert t.visits[..|t.visits|] == t.visits;
  }

  lemma HistoryShape(st: Setting, t: Track)
    requires TrackOk(st, t)
    ensures |t.states| == |t.visits| + 1 && !t.states[0].auditRequired
  {
    hide CandidateOk, Takes;
  }
}
