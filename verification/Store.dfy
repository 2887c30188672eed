/** The run-global candidate store: candidates in creation order and an index from ids to positions. */
module Store {
  import opened Types
  import opened Sorting
  import opened Executor
  import opened Lifecycle
  import opened StepLaws

  type Index = map<nat, nat>

  /** The index is a bijection between ids and positions. */
  ghost predicate IndexOk(cands: seq<Candidate>, index: Index) {
    && (forall i :: 0 <= i < |cands| ==> cands[i].id in index && index[cands[i].id] == i)
    && (forall id :: id in index ==> index[id] < |cands| && cands[index[id]].id == id)
  }

  /** Every candidate is in order, and so is the index. */
  ghost predicate StoreOk(w: World, rev: EnvRev, ladder: seq<Phi>, cands: seq<Candidate>, index: Index) {
    (forall i :: 0 <= i < |cands| ==> CandidateOk(w, rev, ladder, cands[i])) && IndexOk(cands, index)
  }

  /** Nothing is in flight. */
  predicate Quiet(cands: seq<Candidate>) {
    forall i :: 0 <= i < |cands| ==> !cands[i].status.InFlight?
  }

  predicate NoneReady(cands: seq<Candidate>) {
    forall i :: 0 <= i < |cands| ==> !cands[i].status.Ready?
  }

  lemma NewCandidateOk(w: World, rev: EnvRev, ladder: seq<Phi>, id: nat, x: XMesh, policyRev: nat, incumbentId: nat)
    requires ladder != []
    ensures CandidateOk(w, rev, ladder, NewCandidate(id, x, policyRev, incumbentId))
  {
    hide CheapOk, OriginOk, AuditPath;
  }

  /** Adding a candidate under a new id keeps the store in order. */
  lemma AddKeepsStore(w: World, rev: EnvRev, ladder: seq<Phi>, cands: seq<Candidate>, index: Index, c: Candidate)
    requires StoreOk(w, rev, ladder, cands, index) && CandidateOk(w, rev, ladder, c) && c.id !in index
    ensures StoreOk(w, rev, ladder, cands + [c], index[c.id := |cands|])
  {
    hide CandidateOk;
  }

  /** Moving a candidate without renaming it keeps the store in order. */
  lemma MoveKeepsStore(w: World, rev: EnvRev, ladder: seq<Phi>, cands: seq<Candidate>, index: Index, pos: nat,
                       c: Candidate)
    requires StoreOk(w, rev, ladder, cands, index) && CandidateOk(w, rev, ladder, c)
    requires pos < |cands| && c.id == cands[pos].id
    ensures StoreOk(w, rev, ladder, cands[pos := c], index)
  {
    hide CandidateOk;
  }

  // ---------------------------------------------------------------- what never changes

  /** A candidate keeps its id and point; once finished it never changes; once audited it stays audited for
      the same cut. */
  predicate EvolvedOne(a: Candidate, b: Candidate) {
    && b.id == a.id && b.x == a.x
    && (Finished(a.status) ==> b == a)
    && (a.auditRequired ==> b.auditRequired && b.auditOrigin == a.auditOrigin)
  }

  predicate Evolved(a: seq<Candidate>, b: seq<Candidate>) {
    |a| <= |b| && forall i :: 0 <= i < |a| ==> EvolvedOne(a[i], b[i])
  }

  lemma EvolvedTransitive(a: seq<Candidate>, b: seq<Candidate>, c: seq<Candidate>)
    requires Evolved(a, b) && Evolved(b, c)
    ensures Evolved(a, c)
  {
    forall i | 0 <= i < |a|
      ensures EvolvedOne(a[i], c[i])
    {
      assert EvolvedOne(a[i], b[i]) && EvolvedOne(b[i], c[i]);
    }
  }

  lemma EvolvedUpdate(a: seq<Candidate>, pos: nat, c: Candidate)
    requires pos < |a| && EvolvedOne(a[pos], c)
    ensures Evolved(a, a[pos := c])
  {
  }

  // ---------------------------------------------------------------- remaining work

  /** The levels a candidate may still visit. */
  function Budget(c: Candidate, ladderLen: nat): nat {
    if Live(c.status) && c.nextPhiIdx < ladderLen then ladderLen - c.nextPhiIdx else 0
  }

  function Remaining(cands: seq<Candidate>, ladderLen: nat): nat {
    if cands == [] then 0 else Remaining(cands[..|cands| - 1], ladderLen) + Budget(cands[|cands| - 1], ladderLen)
  }

  lemma {:induction false} RemainingUpdate(cands: seq<Candidate>, ladderLen: nat, pos: nat, c: Candidate)
    requires pos < |cands|
    ensures Remaining(cands[pos := c], ladderLen) + Budget(cands[pos], ladderLen)
         == Remaining(cands, ladderLen) + Budget(c, ladderLen)
  {
    var t := cands[pos := c];
    var n := |cands| - 1;
    if pos == n {
      assert t[..n] == cands[..n];
    } else {
      assert t[..n] == cands[..n][pos := c];
      RemainingUpdate(cands[..n], ladderLen, pos, c);
    }
  }

  lemma RemainingAdd(cands: seq<Candidate>, ladderLen: nat, c: Candidate)
    ensures Remaining(cands + [c], ladderLen) == Remaining(cands, ladderLen) + Budget(c, ladderLen)
  {
    assert (cands + [c])[..|cands|] == cands;
  }

  /** With nothing live nothing remains. */
  lemma {:induction false} QuietAndUnready(cands: seq<Candidate>, ladderLen: nat)
    requires Quiet(cands) && NoneReady(cands)
    ensures Remaining(cands, ladderLen) == 0
  {
    if cands != [] {
      QuietAndUnready(cands[..|cands| - 1], ladderLen);
    }
  }

  // ---------------------------------------------------------------- dispatch

  /** `item` is the work of a candidate that is in flight for it. */
  ghost predicate Flying(cands: seq<Candidate>, index: Index, rev: EnvRev, ladder: seq<Phi>, policyRev: nat,
                         item: WorkItem) {
    && item.candId in index && index[item.candId] < |cands|
    && var c := cands[index[item.candId]];
    && c.status == InFlight(item.phiIdx) && item.phiIdx < |ladder|
    && item.x == c.x && item.phi == ladder[item.phiIdx] && item.envRev == rev && item.policyRev == policyRev
    && item.policyRev == c.submittedPolicyRev && item.incumbentId == c.submittedIncumbentId
  }

  function IdsOf(items: seq<WorkItem>): set<nat> {
    set i | 0 <= i < |items| :: items[i].candId
  }

  ghost predicate DistinctIds(items: seq<WorkItem>) {
    forall i, j :: 0 <= i < j < |items| ==> items[i].candId != items[j].candId
  }

  /** The items are the work of exactly the candidates in flight, one each. */
  ghost predicate WorkOk(cands: seq<Candidate>, index: Index, rev: EnvRev, ladder: seq<Phi>, policyRev: nat,
                         items: seq<WorkItem>) {
    && (forall i :: 0 <= i < |items| ==> Flying(cands, index, rev, ladder, policyRev, items[i]))
    && DistinctIds(items)
    && (forall k :: 0 <= k < |cands| && cands[k].status.InFlight? ==> cands[k].id in IdsOf(items))
  }

  lemma QuietWork(cands: seq<Candidate>, index: Index, rev: EnvRev, ladder: seq<Phi>, policyRev: nat)
    requires Quiet(cands)
    ensures WorkOk(cands, index, rev, ladder, policyRev, [])
  {
  }

  /** Moving one candidate leaves the work of the others alone. */
  lemma FliesElsewhere(cands: seq<Candidate>, index: Index, rev: EnvRev, ladder: seq<Phi>, policyRev: nat,
                       item: WorkItem, pos: nat, c: Candidate)
    requires IndexOk(cands, index) && Flying(cands, index, rev, ladder, policyRev, item)
    requires pos < |cands| && item.candId != cands[pos].id
    ensures Flying(cands[pos := c], index, rev, ladder, policyRev, item)
  {
  }

  /** Dispatching one more ready candidate. */
  lemma DispatchKeepsWork(w: World, rev: EnvRev, ladder: seq<Phi>, cands: seq<Candidate>, index: Index,
                          policyRev: nat, items: seq<WorkItem>, pos: nat, incumbentId: nat)
    requires StoreOk(w, rev, ladder, cands, index) && WorkOk(cands, index, rev, ladder, policyRev, items)
    requires pos < |cands| && cands[pos].status == Ready
    ensures var c := cands[pos];
      var item := WorkItem(c.id, c.x, c.nextPhiIdx, ladder[c.nextPhiIdx], rev, policyRev, incumbentId);
      var moved := cands[pos := Dispatched(c, policyRev, incumbentId)];
      && StoreOk(w, rev, ladder, moved, index)
      && WorkOk(moved, index, rev, ladder, policyRev, items + [item])
      && Remaining(moved, |ladder|) == Remaining(cands, |ladder|)
  {
    hide CandidateOk, WorkOk, Remaining, Budget;
    var c := cands[pos];
    DispatchKeepsCandidate(w, rev, ladder, c, policyRev, incumbentId);
    var d := Dispatched(c, policyRev, incumbentId);
    var item := WorkItem(c.id, c.x, c.nextPhiIdx, ladder[c.nextPhiIdx], rev, policyRev, incumbentId);
    MoveKeepsStore(w, rev, ladder, cands, index, pos, d);
    RemainingUpdate(cands, |ladder|, pos, d);
    TakeOff(rev, ladder, cands, index, policyRev, items, pos, item, d);
  }

  /** One more candidate in flight, one more item. */
  lemma TakeOff(rev: EnvRev, ladder: seq<Phi>, cands: seq<Candidate>, index: Index, policyRev: nat,
                items: seq<WorkItem>, pos: nat, item: WorkItem, d: Candidate)
    requires IndexOk(cands, index) && WorkOk(cands, index, rev, ladder, policyRev, items)
    requires pos < |cands| && cands[pos].status == Ready
    requires d.id == cands[pos].id && item.candId == d.id
    requires Flying(cands[pos := d], index, rev, ladder, policyRev, item)
    ensures WorkOk(cands[pos := d], index, rev, ladder, policyRev, items + [item])
  {
    hide IdsOf, Flying;
    var moved, more := cands[pos := d], items + [item];
    forall i | 0 <= i < |items|
      ensures items[i].candId != d.id && Flying(moved, index, rev, ladder, policyRev, items[i])
    {
      FlyingIsNotReady(cands, index, rev, ladder, policyRev, items[i], pos);
      FliesElsewhere(cands, index, rev, ladder, policyRev, items[i], pos, d);
    }
    MoreIds(items, item);
  }

  lemma FlyingIsNotReady(cands: seq<Candidate>, index: Index, rev: EnvRev, ladder: seq<Phi>, policyRev: nat,
                         item: WorkItem, pos: nat)
    requires IndexOk(cands, index) && Flying(cands, index, rev, ladder, policyRev, item)
    requires pos < |cands| && cands[pos].status == Ready
    ensures item.candId != cands[pos].id
  {
  }

  lemma MoreIds(items: seq<WorkItem>, item: WorkItem)
    ensures IdsOf(items + [item]) == IdsOf(items) + {item.candId}
  {
    var more := items + [item];
    assert more[|items|] == item;
    assert forall i :: 0 <= i < |items| ==> more[i] == items[i];
    forall id
      ensures id in IdsOf(items) ==> id in IdsOf(more)
    {
      if id in IdsOf(items) {
        var i :| 0 <= i < |items| && items[i].candId == id;
        assert more[i].candId == id;
      }
    }
  }

  lemma DispatchKeepsCandidate(w: World, rev: EnvRev, ladder: seq<Phi>, c: Candidate, policyRev: nat, incumbentId: nat)
    requires CandidateOk(w, rev, ladder, c) && c.status == Ready
    ensures c.nextPhiIdx < |ladder|
    ensures CandidateOk(w, rev, ladder, Dispatched(c, policyRev, incumbentId))
    ensures Budget(Dispatched(c, policyRev, incumbentId), |ladder|) == Budget(c, |ladder|)
  {
    hide CheapOk, OriginOk, AuditPath;
  }

  // ---------------------------------------------------------------- completion

  predicate LeId(a: WorkOutcome, b: WorkOutcome) {
    a.item.candId <= b.item.candId
  }

  function ItemsOf(outs: seq<WorkOutcome>): (r: seq<WorkItem>)
    ensures |r| == |outs|
    ensures forall i :: 0 <= i < |outs| ==> r[i] == outs[i].item
  {
    seq(|outs|, i requires 0 <= i < |outs| => outs[i].item)
  }

  /** No id occurs twice. */
  ghost predicate NoDuplicates(outs: seq<WorkOutcome>) {
    outs != [] ==> (forall o :: o in outs[1..] ==> o.item.candId != outs[0].item.candId) && NoDuplicates(outs[1..])
  }

  lemma InsertMembers(o: WorkOutcome, outs: seq<WorkOutcome>, x: WorkOutcome)
    ensures x in Insert(o, outs, LeId) <==> x == o || x in outs
  {
    InsertPermutes(o, outs, LeId);
    assert x in Insert(o, outs, LeId) <==> x in multiset(Insert(o, outs, LeId));
    assert x in outs <==> x in multiset(outs);
  }

  lemma {:induction false} InsertKeepsDistinct(o: WorkOutcome, outs: seq<WorkOutcome>)
    requires NoDuplicates(outs) && forall q :: q in outs ==> q.item.candId != o.item.candId
    ensures NoDuplicates(Insert(o, outs, LeId))
  {
    if outs == [] {
    } else if LeId(o, outs[0]) {
      assert ([o] + outs)[1..] == outs;
    } else {
      var rest := Insert(o, outs[1..], LeId);
      InsertKeepsDistinct(o, outs[1..]);
      forall q | q in rest
        ensures q.item.candId != outs[0].item.candId
      {
        InsertMembers(o, outs[1..], q);
      }
      assert ([outs[0]] + rest)[1..] == rest;
    }
  }

  lemma {:induction false} SortKeepsDistinct(outs: seq<WorkOutcome>)
    requires NoDuplicates(outs)
    ensures NoDuplicates(Sort(outs, LeId))
  {
    if outs != [] {
      SortKeepsDistinct(outs[1..]);
      SortMembers(outs[1..], LeId);
      InsertKeepsDistinct(outs[0], Sort(outs[1..], LeId));
    }
  }

  lemma {:induction false} NoDuplicatesIff(outs: seq<WorkOutcome>)
    ensures NoDuplicates(outs) <==> DistinctIds(ItemsOf(outs))
  {
    if outs != [] {
      var rest := outs[1..];
      NoDuplicatesIff(rest);
      var items, tail := ItemsOf(outs), ItemsOf(rest);
      assert forall i :: 0 <= i < |tail| ==> tail[i] == items[i + 1];
      if DistinctIds(items) {
        forall o | o in rest
          ensures o.item.candId != outs[0].item.candId
        {
          var k :| 0 <= k < |rest| && rest[k] == o;
          assert items[0].candId != items[k + 1].candId;
        }
      }
      if NoDuplicates(outs) {
        forall i, j | 0 <= i < j < |items|
          ensures items[i].candId != items[j].candId
        {
          assert items[j] == tail[j - 1] && rest[j - 1] in rest;
          if i > 0 {
            assert items[i] == tail[i - 1];
          }
        }
      }
    }
  }

  /** Sorting completed outcomes by candidate leaves them the work of the same candidates. */
  lemma SortKeepsWork(cands: seq<Candidate>, index: Index, rev: EnvRev, ladder: seq<Phi>, policyRev: nat,
                      outs: seq<WorkOutcome>)
    requires WorkOk(cands, index, rev, ladder, policyRev, ItemsOf(outs))
    ensures WorkOk(cands, index, rev, ladder, policyRev, ItemsOf(Sort(outs, LeId)))
  {
    var s := Sort(outs, LeId);
    SortMembers(outs, LeId);
    NoDuplicatesIff(outs);
    SortKeepsDistinct(outs);
    NoDuplicatesIff(s);
    forall i | 0 <= i < |s|
      ensures Flying(cands, index, rev, ladder, policyRev, s[i].item)
    {
      assert s[i] in s;
      var k :| 0 <= k < |outs| && outs[k] == s[i];
      assert Flying(cands, index, rev, ladder, policyRev, ItemsOf(outs)[k]);
    }
    forall k | 0 <= k < |cands| && cands[k].status.InFlight?
      ensures cands[k].id in IdsOf(ItemsOf(s))
    {
      assert cands[k].id in IdsOf(ItemsOf(outs));
      var i :| 0 <= i < |outs| && ItemsOf(outs)[i].candId == cands[k].id;
      assert outs[i] in s;
      var m :| 0 <= m < |s| && s[m] == outs[i];
      assert ItemsOf(s)[m].candId == cands[k].id;
    }
  }

  /** Processing the first outcome leaves the rest the work of the candidates still in flight. */
  lemma CompletionKeepsWork(w: World, rev: EnvRev, ladder: seq<Phi>, cands: seq<Candidate>, index: Index,
                            policyRev: nat, items: seq<WorkItem>, after: Candidate)
    requires StoreOk(w, rev, ladder, cands, index) && items != []
    requires WorkOk(cands, index, rev, ladder, policyRev, items)
    requires CandidateOk(w, rev, ladder, after)
    requires Flying(cands, index, rev, ladder, policyRev, items[0])
    requires after.id == cands[index[items[0].candId]].id
    requires after.status.Ready? ==> items[0].phiIdx < after.nextPhiIdx < |ladder|
    requires !after.status.Ready? ==> Finished(after.status)
    ensures var moved := cands[index[items[0].candId] := after];
      && StoreOk(w, rev, ladder, moved, index)
      && WorkOk(moved, index, rev, ladder, policyRev, items[1..])
      && Remaining(moved, |ladder|) < Remaining(cands, |ladder|)
  {
    hide CandidateOk, WorkOk, Remaining;
    var pos := index[items[0].candId];
    MoveKeepsStore(w, rev, ladder, cands, index, pos, after);
    RemainingUpdate(cands, |ladder|, pos, after);
    InFlightBudget(w, rev, ladder, cands[pos]);
    Land(rev, ladder, cands, index, policyRev, items, after);
  }

  /** The first candidate has landed. */
  lemma Land(rev: EnvRev, ladder: seq<Phi>, cands: seq<Candidate>, index: Index, policyRev: nat,
             items: seq<WorkItem>, after: Candidate)
    requires IndexOk(cands, index) && items != [] && WorkOk(cands, index, rev, ladder, policyRev, items)
    requires Flying(cands, index, rev, ladder, policyRev, items[0]) && !after.status.InFlight?
    ensures WorkOk(cands[index[items[0].candId] := after], index, rev, ladder, policyRev, items[1..])
  {
    hide Flying;
    var pos := PositionOfFlying(cands, index, rev, ladder, policyRev, items[0]);
    var moved, rest := cands[pos := after], items[1..];
    forall i | 0 <= i < |rest|
      ensures Flying(moved, index, rev, ladder, policyRev, rest[i])
    {
      assert rest[i] == items[i + 1];
      assert items[0].candId != items[i + 1].candId;
      FliesElsewhere(cands, index, rev, ladder, policyRev, items[i + 1], pos, after);
    }
    forall k | 0 <= k < |moved| && moved[k].status.InFlight?
      ensures moved[k].id in IdsOf(rest)
    {
      assert k != pos;
      assert cands[k].id in IdsOf(items);
      var i :| 0 <= i < |items| && items[i].candId == cands[k].id;
      assert i != 0;
      assert rest[i - 1] == items[i];
    }
  }

  lemma PositionOfFlying(cands: seq<Candidate>, index: Index, rev: EnvRev, ladder: seq<Phi>, policyRev: nat,
                         item: WorkItem) returns (pos: nat)
    requires IndexOk(cands, index) && Flying(cands, index, rev, ladder, policyRev, item)
    ensures item.candId in index && pos == index[item.candId] && pos < |cands| && cands[pos].id == item.candId
  {
    pos := index[item.candId];
  }

  lemma InFlightBudget(w: World, rev: EnvRev, ladder: seq<Phi>, c: Candidate)
    requires CandidateOk(w, rev, ladder, c) && c.status.InFlight?
    ensures c.nextPhiIdx == c.status.phiIdx < |ladder| && Budget(c, |ladder|) == |ladder| - c.nextPhiIdx
  {
    hide CheapOk, OriginOk, AuditPath;
  }

  lemma {:induction false} InsertKeepsItems(o: WorkOutcome, outs: seq<WorkOutcome>)
    ensures multiset(ItemsOf(Insert(o, outs, LeId))) == multiset{o.item} + multiset(ItemsOf(outs))
  {
    if outs == [] || LeId(o, outs[0]) {
      assert ItemsOf([o] + outs) == [o.item] + ItemsOf(outs);
    } else {
      InsertKeepsItems(o, outs[1..]);
      assert ItemsOf(outs) == [outs[0].item] + ItemsOf(outs[1..]);
      assert ItemsOf(Insert(o, outs, LeId)) == [outs[0].item] + ItemsOf(Insert(o, outs[1..], LeId));
    }
  }

  /** Sorting outcomes keeps their items. */
  lemma {:induction false} SortKeepsItems(outs: seq<WorkOutcome>)
    ensures multiset(ItemsOf(Sort(outs, LeId))) == multiset(ItemsOf(outs))
  {
    if outs != [] {
      SortKeepsItems(outs[1..]);
      InsertKeepsItems(outs[0], Sort(outs[1..], LeId));
      assert ItemsOf(outs) == [outs[0].item] + ItemsOf(outs[1..]);
    }
  }

  lemma IdOrder()
    ensures TotalPreorder(LeId)
  {
  }

  /** With all work processed nothing is in flight. */
  lemma NoWorkIsQuiet(cands: seq<Candidate>, index: Index, rev: EnvRev, ladder: seq<Phi>, policyRev: nat)
    requires WorkOk(cands, index, rev, ladder, policyRev, [])
    ensures Quiet(cands)
  {
    assert IdsOf([]) == {};
  }
}
