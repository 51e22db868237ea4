/**
 One step of agreement: what a published item does to the hub's pending list and
 to a client's picture of it, repeated ids included, and exactly when the two
 still agree afterwards.
 */
module Convergence {
  import opened Prelude
  import opened Contract
  import opened Transport
  import opened ApprovalLaws
  import opened Dialogs
  import opened Clients
  import A = Assembler

  /** What a dialog shows of a request. */
  function Bare(p: Pending): Pending {
    p.(turn := 0, messageIndex := None)
  }

  function View(queue: seq<Ask>): (r: seq<Pending>)
    ensures |r| == |queue| && forall k :: 0 <= k < |r| ==> r[k] == Bare(queue[k].request)
  {
    seq(|queue|, k requires 0 <= k < |queue| => Bare(queue[k].request))
  }

  /** The batches that open a dialog, oldest first. */
  function Shown(pending: seq<Pending>): seq<Pending> {
    if pending == [] then []
    else Shown(pending[..|pending| - 1])
         + (if pending[|pending| - 1].calls == [] then [] else [Bare(pending[|pending| - 1])])
  }

  ghost predicate AllFocused(queue: seq<Ask>) {
    forall k :: 0 <= k < |queue| ==> Focused(queue[k])
  }

  /** The hub and the client agree on the open approvals. */
  ghost predicate Agree(s: State, c: Client) {
    c.asOf == s.lastSeq && c.slots == SlotMap(s.pending) && View(c.queue) == Shown(s.pending) && AllFocused(c.queue)
  }

  /** One slot per call, and a batch with calls is pending only while some call is
      undecided. */
  predicate PendingLive(pending: seq<Pending>) {
    Slotted(pending) && forall k :: 0 <= k < |pending| && pending[k].calls != [] ==> !AllDecided(pending[k].decisions)
  }

  // ------------------------------------------------ whom an answer reaches

  predicate Undecided(p: Pending, i: nat) {
    i < |p.decisions| && p.decisions[i].None?
  }

  /** The newest batch of this id: the one whose names a client's slots hold. */
  function Newest(pending: seq<Pending>, requestId: string): (k: nat)
    ensures k <= |pending| && (k < |pending| ==> pending[k].requestId == requestId)
    ensures forall j :: 0 <= j < |pending| && pending[j].requestId == requestId ==> j <= k < |pending|
  {
    if pending == [] then 0
    else
      var n := |pending| - 1;
      var k := Newest(pending[..n], requestId);
      if pending[n].requestId == requestId then n else if k == n then n + 1 else k
  }

  /** The oldest batch of this id with calls: the one whose dialog takes an answer. */
  function OldestAsked(pending: seq<Pending>, requestId: string): (k: nat)
    ensures k <= |pending| && (k < |pending| ==> pending[k].requestId == requestId && pending[k].calls != [])
    ensures forall j :: 0 <= j < |pending| && pending[j].requestId == requestId && pending[j].calls != [] ==> k <= j
  {
    if pending == [] || (pending[0].requestId == requestId && pending[0].calls != []) then 0
    else 1 + OldestAsked(pending[1..], requestId)
  }

  /** The event takes names out of the client's slots for batch `k`. */
  predicate ReachesSlots(pending: seq<Pending>, e: Event, k: nat)
    requires k < |pending|
  {
    match e.kind
    case RunFinished(_) => true
    case Issued(ResolveApproval(id, _)) => pending[k].requestId == id
    case Issued(ResolveApprovalCall(id, i, _)) => k == Newest(pending, id) && Undecided(pending[k], i)
    case _ => false
  }

  /** The event changes the client's dialog for batch `k`. */
  predicate ReachesDialog(pending: seq<Pending>, e: Event, k: nat)
    requires k < |pending|
  {
    match e.kind
    case RunFinished(_) => pending[k].calls != []
    case Issued(ResolveApproval(id, _)) => pending[k].requestId == id && pending[k].calls != []
    case Issued(ResolveApprovalCall(id, i, _)) => k == OldestAsked(pending, id) && Undecided(pending[k], i)
    case _ => false
  }

  /** The hub acts on batch `k`: only for an event that counts, and then on every
      batch at a run's end and on the oldest of the addressed id otherwise. */
  predicate HubActs(pending: seq<Pending>, counts: bool, e: Event, k: nat)
    requires k < |pending|
  {
    counts && (e.kind.RunFinished? || (Addresses(e) && k == Position(pending, e.kind.command.requestId)))
  }

  /** The client acts on no batch but those the hub acts on. */
  predicate Benign(pending: seq<Pending>, counts: bool, e: Event) {
    forall k :: 0 <= k < |pending| && (ReachesSlots(pending, e, k) || ReachesDialog(pending, e, k)) ==>
      HubActs(pending, counts, e, k)
  }

  /** A batch reply or one call's answer. */
  predicate Addresses(e: Event) {
    e.kind.Issued? && (e.kind.command.ResolveApproval? || e.kind.command.ResolveApprovalCall?)
  }

  // ---------------------------------------------------- what the hub still holds

  function AdvanceAt(pending: seq<Pending>, k: nat, e: Event): seq<Pending>
    requires k <= |pending|
  {
    if k == |pending| then pending
    else
      var a := Advance(pending[k], e);
      if a.Some? then pending[k := a.value] else Without(pending, k)
  }

  function Held(pending: seq<Pending>, counts: bool, e: Event): seq<Pending> {
    if !counts then pending
    else if e.kind.RunFinished? then []
    else if Addresses(e) then AdvanceAt(pending, Position(pending, e.kind.command.requestId), e)
    else pending
  }

  lemma {:induction false} HubHolds(s: State, e: Event)
    requires PendingLive(s.pending)
    ensures TrackRecorded(s, e).pending == Held(s.pending, e.id !in s.seen, e)
    ensures PendingLive(TrackRecorded(s, e).pending)
  {
    hide Position, AllDecided, RetireAll;
    if e.id !in s.seen && Addresses(e) && !e.kind.RunFinished? {
      var k := Position(s.pending, e.kind.command.requestId);
      if k < |s.pending| {
        WithoutLive(s.pending, k);
        assert s.pending[k := s.pending[k]] == s.pending;
      }
    }
  }

  lemma {:induction false} WithoutAt<X>(s: seq<X>, k: nat)
    requires k < |s|
    ensures |Without(s, k)| == |s| - 1
    ensures forall j :: 0 <= j < |s| - 1 ==> Without(s, k)[j] == s[if j < k then j else j + 1]
  {
  }

  lemma {:induction false} WithoutLive(pending: seq<Pending>, k: nat)
    requires PendingLive(pending) && k < |pending|
    ensures PendingLive(Without(pending, k))
  {
    WithoutAt(pending, k);
    hide Without;
  }

  // --------------------------------------------------------------- the slot map

  /** The batch a client's slots of this id are of. */
  function Owner(pending: seq<Pending>, requestId: string): Option<Pending> {
    var k := Newest(pending, requestId);
    if k < |pending| then Some(pending[k]) else None
  }

  ghost predicate Maps(m: map<string, seq<Option<string>>>, pending: seq<Pending>) {
    forall id: string ::
      && (id in m <==> Owner(pending, id).Some?)
      && (id in m ==> m[id] == SlotsOf(Owner(pending, id).value))
  }

  lemma {:induction false} OwnerConcat(a: seq<Pending>, b: seq<Pending>, id: string)
    ensures Owner(a + b, id) == if Owner(b, id).Some? then Owner(b, id) else Owner(a, id)
  {
    var k := Newest(a + b, id);
    var j := Newest(b, id);
    if j < |b| {
      assert (a + b)[|a| + j] == b[j];
    } else if Newest(a, id) < |a| {
      assert (a + b)[Newest(a, id)] == a[Newest(a, id)];
    }
  }

  lemma {:induction false} OwnerOne(p: Pending, id: string)
    ensures Owner([p], id) == (if p.requestId == id then Some(p) else None)
  {
    assert [p][0].requestId == p.requestId;
  }

  lemma {:induction false} OwnerNone(id: string)
    ensures Owner([], id) == None
  {
  }

  lemma {:induction false} SlotMapMaps(pending: seq<Pending>)
    ensures Maps(SlotMap(pending), pending)
    decreases |pending|
  {
    hide SlotsOf, Owner;
    if pending == [] {
      forall id: string ensures Owner(pending, id) == None { OwnerNone(id); }
    } else {
      var init, last := pending[..|pending| - 1], pending[|pending| - 1];
      SlotMapMaps(init);
      assert pending == init + [last];
      forall id: string
        ensures Owner(pending, id) == if id == last.requestId then Some(last) else Owner(init, id)
      {
        OwnerConcat(init, [last], id);
        OwnerOne(last, id);
      }
    }
  }

  lemma {:induction false} MapsIs(m: map<string, seq<Option<string>>>, pending: seq<Pending>)
    requires Maps(m, pending)
    ensures m == SlotMap(pending)
  {
    hide SlotsOf, Owner, SlotMap;
    SlotMapMaps(pending);
    forall id | id in m ensures id in SlotMap(pending) && m[id] == SlotMap(pending)[id] {}
    forall id | id in SlotMap(pending) ensures id in m {}
  }

  lemma {:induction false} OwnerAround(a: seq<Pending>, x: seq<Pending>, b: seq<Pending>, id: string)
    ensures Owner(a + (x + b), id)
         == if Owner(b, id).Some? then Owner(b, id) else if Owner(x, id).Some? then Owner(x, id) else Owner(a, id)
  {
    hide Owner;
    OwnerConcat(a, x + b, id);
    OwnerConcat(x, b, id);
  }

  /** `q` in the place of batch `k`, or nothing. */
  function Replaced(pending: seq<Pending>, k: nat, q: Option<Pending>): seq<Pending>
    requires k < |pending|
  {
    if q.Some? then pending[k := q.value] else Without(pending, k)
  }

  lemma {:induction false} OwnerReplaced(pending: seq<Pending>, k: nat, q: Option<Pending>, id: string)
    requires k < |pending| && (q.Some? ==> q.value.requestId == pending[k].requestId)
    ensures var p, b := pending[k], pending[k + 1..];
            && Owner(pending, id) == (if Owner(b, id).Some? then Owner(b, id) else if p.requestId == id then Some(p) else Owner(pending[..k], id))
            && Owner(Replaced(pending, k, q), id) == (if Owner(b, id).Some? then Owner(b, id)
                                                      else if p.requestId == id && q.Some? then q else Owner(pending[..k], id))
  {
    hide Owner, Without;
    var a, p, b := pending[..k], pending[k], pending[k + 1..];
    SplitAt(pending, k);
    OwnerAround(a, [p], b, id);
    OwnerOne(p, id);
    if q.Some? {
      OwnerAround(a, [q.value], b, id);
      OwnerOne(q.value, id);
    } else {
      OwnerAround(a, [], b, id);
      OwnerNone(id);
    }
  }

  /** A batch that a newer one of its id hides is not in the slot map. */
  lemma {:induction false} SlotsElsewhere(pending: seq<Pending>, k: nat, q: Option<Pending>)
    requires k < |pending| && Newest(pending, pending[k].requestId) != k
    requires q.Some? ==> q.value.requestId == pending[k].requestId
    ensures SlotMap(Replaced(pending, k, q)) == SlotMap(pending)
  {
    hide SlotMap, SlotsOf, Replaced;
    var b, n := pending[k + 1..], Newest(pending, pending[k].requestId);
    SlotMapMaps(pending);
    assert Owner(b, pending[k].requestId).Some? by { assert b[n - k - 1] == pending[n]; }
    hide Owner;
    forall id: string ensures Owner(Replaced(pending, k, q), id) == Owner(pending, id) {
      OwnerReplaced(pending, k, q, id);
    }
    MapsIs(SlotMap(pending), Replaced(pending, k, q));
  }

  lemma {:induction false} OnlyOwner(pending: seq<Pending>, k: nat)
    requires k < |pending| && Newest(pending, pending[k].requestId) == Position(pending, pending[k].requestId) == k
    ensures Owner(pending[..k], pending[k].requestId).None? && Owner(pending[k + 1..], pending[k].requestId).None?
  {
    var b := pending[k + 1..];
    assert forall j :: 0 <= j < |b| ==> b[j] == pending[k + 1 + j];
  }

  /** The only batch of its id is exactly its entry of the slot map. */
  lemma {:induction false} SlotsOwned(pending: seq<Pending>, k: nat, q: Option<Pending>, m: map<string, seq<Option<string>>>)
    requires k < |pending| && m == SlotMap(pending)
    requires Newest(pending, pending[k].requestId) == Position(pending, pending[k].requestId) == k
    requires q.Some? ==> q.value.requestId == pending[k].requestId
    ensures SlotMap(Replaced(pending, k, q))
         == if q.Some? then m[pending[k].requestId := SlotsOf(q.value)] else m - {pending[k].requestId}
  {
    hide SlotMap, SlotsOf, Replaced;
    var a, b, pid := pending[..k], pending[k + 1..], pending[k].requestId;
    var next := if q.Some? then m[pid := SlotsOf(q.value)] else m - {pid};
    SlotMapMaps(pending);
    OnlyOwner(pending, k);
    hide Owner;
    forall id: string
      ensures (id in next <==> Owner(Replaced(pending, k, q), id).Some?)
           && (id in next ==> next[id] == SlotsOf(Owner(Replaced(pending, k, q), id).value))
    {
      OwnerReplaced(pending, k, q, id);
    }
    MapsIs(next, Replaced(pending, k, q));
  }

  lemma {:induction false} TakenIsDecided(q: Pending)
    requires |q.decisions| == |q.calls|
    ensures AllTaken(SlotsOf(q)) <==> AllDecided(q.decisions)
  {
    if !AllDecided(q.decisions) {
      var i :| 0 <= i < |q.decisions| && q.decisions[i].None?;
      assert SlotsOf(q)[i].Some?;
    }
    if !AllTaken(SlotsOf(q)) {
      var i :| 0 <= i < |q.calls| && SlotsOf(q)[i].Some?;
      assert q.decisions[i].None?;
    }
  }

  /** Taking a slot is recording its decision. */
  lemma {:induction false} TakeIsDecide(m: map<string, seq<Option<string>>>, p: Pending, i: nat, decision: Approval)
    requires p.requestId in m && m[p.requestId] == SlotsOf(p)
    requires |p.decisions| == |p.calls| && (p.calls != [] ==> !AllDecided(p.decisions))
    ensures i >= |p.decisions| || p.decisions[i].Some? ==> TakeSlot(m, p.requestId, i) == m
    ensures i < |p.decisions| && p.decisions[i].None? ==>
              var q := p.(decisions := p.decisions[i := Some(decision)]);
              && SlotsOf(q) == SlotsOf(p)[i := None]
              && TakeSlot(m, p.requestId, i)
                   == if AllDecided(q.decisions) then m - {p.requestId} else m[p.requestId := SlotsOf(q)]
  {
    if i < |p.decisions| && p.decisions[i].None? {
      var q := p.(decisions := p.decisions[i := Some(decision)]);
      assert SlotsOf(q) == SlotsOf(p)[i := None];
      TakenIsDecided(q);
    }
  }

  /** An open slot is not taken for nothing. */
  lemma {:induction false} TakeChanges(m: map<string, seq<Option<string>>>, p: Pending, i: nat)
    requires p.requestId in m && m[p.requestId] == SlotsOf(p) && |p.decisions| == |p.calls| && Undecided(p, i)
    ensures TakeSlot(m, p.requestId, i) != m
  {
    var rest := SlotsOf(p)[i := None];
    assert SlotsOf(p)[i].Some?;
    assert m[p.requestId := rest][p.requestId] == rest != SlotsOf(p);
  }

  lemma {:induction false} OwnedSlots(pending: seq<Pending>, m: map<string, seq<Option<string>>>, id: string)
    requires m == SlotMap(pending)
    ensures id in m <==> Newest(pending, id) < |pending|
    ensures id in m ==> m[id] == SlotsOf(pending[Newest(pending, id)])
  {
    hide SlotMap, SlotsOf;
    SlotMapMaps(pending);
  }

  /** One call's answer in the slot map. */
  lemma {:induction false} CallSlots(pending: seq<Pending>, m: map<string, seq<Option<string>>>, counts: bool, e: Event)
    requires PendingLive(pending) && m == SlotMap(pending) && e.kind.Issued? && e.kind.command.ResolveApprovalCall?
    ensures TakeSlot(m, e.kind.command.requestId, e.kind.command.callIndex) == SlotMap(Held(pending, counts, e))
       <==> forall k :: 0 <= k < |pending| && ReachesSlots(pending, e, k) ==> HubActs(pending, counts, e, k)
  {
    hide SlotMap, SlotsOf, TakeSlot, Newest, Position, AllDecided, Without;
    var id, i := e.kind.command.requestId, e.kind.command.callIndex;
    var n, f := Newest(pending, id), Position(pending, id);
    OwnedSlots(pending, m, id);
    if n < |pending| {
      TakeIsDecide(m, pending[n], i, e.kind.command.decision);
      if Undecided(pending[n], i) {
        TakeChanges(m, pending[n], i);
        assert ReachesSlots(pending, e, n);
      }
    } else {
      NoSlotTaken(m, id, i);
    }
    if counts && f < |pending| {
      var q := Advance(pending[f], e);
      assert Held(pending, counts, e) == Replaced(pending, f, q);
      if n == f { SlotsOwned(pending, f, q, m); } else { SlotsElsewhere(pending, f, q); }
      if n == f && !Undecided(pending[f], i) { assert Replaced(pending, f, q) == pending; }
    }
  }

  lemma {:induction false} NoSlotTaken(m: map<string, seq<Option<string>>>, id: string, i: nat)
    requires id !in m
    ensures TakeSlot(m, id, i) == m
  {
  }

  /** A batch reply in the slot map. */
  lemma {:induction false} BatchSlots(pending: seq<Pending>, m: map<string, seq<Option<string>>>, counts: bool, e: Event)
    requires PendingLive(pending) && m == SlotMap(pending) && e.kind.Issued? && e.kind.command.ResolveApproval?
    ensures m - {e.kind.command.requestId} == SlotMap(Held(pending, counts, e))
       <==> forall k :: 0 <= k < |pending| && ReachesSlots(pending, e, k) ==> HubActs(pending, counts, e, k)
  {
    hide SlotMap, SlotsOf, Newest, Position, Without;
    var id := e.kind.command.requestId;
    var n, f := Newest(pending, id), Position(pending, id);
    OwnedSlots(pending, m, id);
    if counts && f < |pending| {
      assert Held(pending, counts, e) == Replaced(pending, f, None);
      if n == f { SlotsOwned(pending, f, None, m); } else { SlotsElsewhere(pending, f, None); }
    }
    if n < |pending| {
      assert id in m && id !in m - {id};
      assert ReachesSlots(pending, e, n);
    } else {
      assert m - {id} == m;
    }
  }

  /** The slot map follows an event exactly when the event takes names of no batch
      but those the hub acts on. */
  lemma {:induction false} SlotsFollow(pending: seq<Pending>, c: Client, counts: bool, e: Event)
    requires PendingLive(pending) && c.slots == SlotMap(pending) && AllSized(c.queue)
    ensures ApplyEvent(c, e).slots == SlotMap(Held(pending, counts, e))
       <==> forall k :: 0 <= k < |pending| && ReachesSlots(pending, e, k) ==> HubActs(pending, counts, e, k)
  {
    hide SlotMap, TakeSlot, NotNamed, Unfinished, SettleFirst, Newest, Position, PendingLive;
    if e.kind.RunFinished? {
      NoSlots();
      if pending != [] {
        OwnedSlots(pending, c.slots, pending[0].requestId);
        assert ReachesSlots(pending, e, 0);
      }
    } else if Addresses(e) {
      if e.kind.command.ResolveApproval? { BatchSlots(pending, c.slots, counts, e); } else { CallSlots(pending, c.slots, counts, e); }
    }
  }

  lemma {:induction false} NoSlots()
    ensures SlotMap([]) == map[]
  {
  }

  // ------------------------------------------------------------- the dialog queue

  lemma {:induction false} ShownLast(init: seq<Pending>, last: Pending)
    ensures Shown(init + [last]) == Shown(init) + (if last.calls == [] then [] else [Bare(last)])
  {
    assert (init + [last])[..|init|] == init;
  }

  lemma {:induction false} ShownConcat(a: seq<Pending>, b: seq<Pending>)
    ensures Shown(a + b) == Shown(a) + Shown(b)
    decreases |b|
  {
    hide Shown;
    if b == [] {
      ShownNothing();
      assert a + b == a && Shown(a) + [] == Shown(a);
    } else {
      var init, last := b[..|b| - 1], b[|b| - 1];
      ShownConcat(a, init);
      assert a + b == (a + init) + [last] && b == init + [last];
      ShownLast(a + init, last);
      ShownLast(init, last);
      ConcatAssoc(Shown(a), Shown(init), if last.calls == [] then [] else [Bare(last)]);
    }
  }

  lemma {:induction false} ShownOne(p: Pending)
    ensures Shown([p]) == if p.calls == [] then [] else [Bare(p)]
  {
    assert [p][..0] == [];
  }

  lemma {:induction false} ShownSplit(a: seq<Pending>, x: seq<Pending>, b: seq<Pending>)
    ensures Shown(a + (x + b)) == Shown(a) + (Shown(x) + Shown(b)) && Shown([]) == []
  {
    hide Shown;
    ShownConcat(a, x + b);
    ShownConcat(x, b);
    ShownNothing();
  }

  lemma {:induction false} ShownNothing()
    ensures Shown([]) == []
  {
  }

  predicate NoneAsked(pending: seq<Pending>, id: string) {
    forall k :: 0 <= k < |pending| && pending[k].requestId == id ==> pending[k].calls == []
  }

  /** The dialogs show exactly the batches with calls. */
  lemma {:induction false} ShownNames(pending: seq<Pending>, id: string)
    ensures NoneNamed(Shown(pending), id) <==> NoneAsked(pending, id)
    decreases |pending|
  {
    hide NoneNamed, NoneAsked;
    if pending == [] {
      NothingAsked(id);
    } else {
      var init, last := pending[..|pending| - 1], pending[|pending| - 1];
      ShownNames(init, id);
      AskedSnoc(init, last, id);
      assert pending == init + [last];
      assert Shown(init) + [] == Shown(init);
      NoneConcat(Shown(init), [Bare(last)], id);
      NoneOne(Bare(last), id);
    }
  }

  lemma {:induction false} NothingAsked(id: string)
    ensures NoneNamed(Shown([]), id) && NoneAsked([], id)
  {
  }

  lemma {:induction false} AskedSnoc(init: seq<Pending>, last: Pending, id: string)
    ensures NoneAsked(init + [last], id) <==> NoneAsked(init, id) && (last.requestId == id ==> last.calls == [])
  {
    var all := init + [last];
    assert all[|init|] == last && forall k :: 0 <= k < |init| ==> all[k] == init[k];
  }

  lemma {:induction false} NoneConcat(a: seq<Pending>, b: seq<Pending>, id: string)
    ensures NoneNamed(a + b, id) <==> NoneNamed(a, id) && NoneNamed(b, id)
  {
    if NoneNamed(a + b, id) {
      assert forall k :: 0 <= k < |a| ==> (a + b)[k] == a[k];
      assert forall k :: 0 <= k < |b| ==> (a + b)[|a| + k] == b[k];
    }
  }

  lemma {:induction false} NoneOne(p: Pending, id: string)
    ensures NoneNamed([p], id) <==> p.requestId != id
  {
    assert [p][0] == p;
  }

  lemma {:induction false} ShownEmpty(pending: seq<Pending>)
    ensures Shown(pending) == [] <==> forall k :: 0 <= k < |pending| ==> pending[k].calls == []
    decreases |pending|
  {
    if pending != [] { ShownEmpty(pending[..|pending| - 1]); }
  }

  lemma {:induction false} ShownLive(pending: seq<Pending>)
    requires PendingLive(pending)
    ensures PendingLive(Shown(pending)) && forall k :: 0 <= k < |Shown(pending)| ==> Shown(pending)[k].calls != []
    decreases |pending|
  {
    if pending != [] { ShownLive(pending[..|pending| - 1]); }
  }

  /** The queue is well kept: focused and unfinished. */
  ghost predicate Kept(queue: seq<Ask>) {
    AllFocused(queue) && forall k :: 0 <= k < |queue| ==> !Finished(queue[k])
  }

  lemma {:induction false} FindIsPosition(queue: seq<Ask>, id: string)
    ensures Find(queue, id) == Position(View(queue), id)
    decreases |queue|
  {
    if queue != [] {
      FindIsPosition(queue[1..], id);
      assert View(queue)[1..] == View(queue[1..]);
    }
  }

  lemma {:induction false} UnfinishedLast(init: seq<Ask>, last: Ask)
    ensures Unfinished(init + [last]) == Unfinished(init) + (if Finished(last) then [] else [last])
  {
    hide Finished;
    assert (init + [last])[..|init|] == init;
  }

  lemma {:induction false} UnfinishedConcat(a: seq<Ask>, b: seq<Ask>)
    ensures Unfinished(a + b) == Unfinished(a) + Unfinished(b)
    decreases |b|
  {
    hide Finished, Unfinished;
    if b == [] {
      NoneUnfinished();
      assert a + b == a && Unfinished(a) + [] == Unfinished(a);
    } else {
      var init, last := b[..|b| - 1], b[|b| - 1];
      UnfinishedConcat(a, init);
      assert a + b == (a + init) + [last] && b == init + [last];
      UnfinishedLast(a + init, last);
      UnfinishedLast(init, last);
      ConcatAssoc(Unfinished(a), Unfinished(init), if Finished(last) then [] else [last]);
    }
  }

  lemma {:induction false} AllUnfinished(a: seq<Ask>)
    requires forall j :: 0 <= j < |a| ==> !Finished(a[j])
    ensures Unfinished(a) == a
    decreases |a|
  {
    hide Finished;
    if a != [] { AllUnfinished(a[..|a| - 1]); }
  }

  lemma {:induction false} UnfinishedAt(queue: seq<Ask>, k: nat, ask: Ask)
    requires k < |queue| && forall j :: 0 <= j < |queue| && j != k ==> !Finished(queue[j])
    ensures Unfinished(queue[k := ask]) == if Finished(ask) then Without(queue, k) else queue[k := ask]
  {
    hide Finished, Unfinished;
    var a, b := queue[..k], queue[k + 1..];
    AllUnfinished(a);
    AllUnfinished(b);
    assert queue[k := ask] == a + ([ask] + b);
    UnfinishedConcat(a, [ask] + b);
    UnfinishedConcat([ask], b);
    UnfinishedOne(ask);
    assert a + ([] + b) == Without(queue, k);
  }

  lemma {:induction false} UnfinishedOne(ask: Ask)
    ensures Unfinished([ask]) == if Finished(ask) then [] else [ask]
  {
    assert [ask][..0] == [];
  }

  lemma {:induction false} NotNamedLast(init: seq<Ask>, last: Ask, id: string)
    ensures NotNamed(init + [last], id) == NotNamed(init, id) + (if last.request.requestId == id then [] else [last])
  {
    assert (init + [last])[..|init|] == init;
  }

  lemma {:induction false} NoneToName(id: string)
    ensures NotNamed([], id) == []
  {
  }

  lemma {:induction false} NotNamedConcat(a: seq<Ask>, b: seq<Ask>, id: string)
    ensures NotNamed(a + b, id) == NotNamed(a, id) + NotNamed(b, id)
    decreases |b|
  {
    hide NotNamed;
    if b == [] {
      NoneToName(id);
      assert a + b == a && NotNamed(a, id) + [] == NotNamed(a, id);
    } else {
      var init, last := b[..|b| - 1], b[|b| - 1];
      NotNamedConcat(a, init, id);
      assert a + b == (a + init) + [last] && b == init + [last];
      NotNamedLast(a + init, last, id);
      NotNamedLast(init, last, id);
      ConcatAssoc(NotNamed(a, id), NotNamed(init, id), if last.request.requestId == id then [] else [last]);
    }
  }

  lemma {:induction false} NoneNotNamed(a: seq<Ask>, id: string)
    requires forall j :: 0 <= j < |a| ==> a[j].request.requestId != id
    ensures NotNamed(a, id) == a
    decreases |a|
  {
    if a != [] { NoneNotNamed(a[..|a| - 1], id); }
  }

  lemma {:induction false} NotNamedAt(queue: seq<Ask>, id: string, k: nat)
    requires k <= |queue| && (k < |queue| ==> queue[k].request.requestId == id)
    requires forall j :: 0 <= j < |queue| && j != k ==> queue[j].request.requestId != id
    ensures NotNamed(queue, id) == if k == |queue| then queue else Without(queue, k)
  {
    hide NotNamed;
    if k == |queue| {
      NoneNotNamed(queue, id);
    } else {
      var a, b := queue[..k], queue[k + 1..];
      NoneNotNamed(a, id);
      NoneNotNamed(b, id);
      assert queue == a + ([queue[k]] + b);
      NotNamedConcat(a, [queue[k]] + b, id);
      NotNamedConcat([queue[k]], b, id);
      NotNamedOne(queue[k], id);
      assert a + ([] + b) == Without(queue, k);
    }
  }

  lemma {:induction false} NotNamedOne(ask: Ask, id: string)
    ensures NotNamed([ask], id) == if ask.request.requestId == id then [] else [ask]
  {
    assert [ask][..0] == [];
  }

  lemma {:induction false} NotNamedDrops(queue: seq<Ask>, id: string)
    ensures forall k :: 0 <= k < |NotNamed(queue, id)| ==>
              NotNamed(queue, id)[k].request.requestId != id && NotNamed(queue, id)[k] in queue
    decreases |queue|
  {
    if queue != [] { NotNamedDrops(queue[..|queue| - 1], id); }
  }

  lemma {:induction false} ViewWithout(queue: seq<Ask>, k: nat)
    requires k < |queue|
    ensures View(Without(queue, k)) == Without(View(queue), k)
  {
  }

  lemma {:induction false} ViewUpdate(queue: seq<Ask>, k: nat, ask: Ask)
    requires k < |queue|
    ensures View(queue[k := ask]) == View(queue)[k := Bare(ask.request)]
  {
  }

  /** One ask follows the per-request transition. */
  lemma {:induction false} AskFollows(ask: Ask, e: Event)
    requires Focused(ask) && !Finished(ask) && e.kind.Issued? && e.kind.command.ResolveApprovalCall?
    requires e.kind.command.requestId == ask.request.requestId
    ensures var next := Decided(ask, e.kind.command.callIndex, e.kind.command.decision);
            var a := Advance(Bare(ask.request), e);
            && Focused(next)
            && (a.None? <==> Finished(next))
            && (a.Some? ==> a.value == Bare(next.request))
  {
    hide Moved, Focused;
    FocusedSized(ask);
    SettleFocused(ask, e.kind.command.callIndex, e.kind.command.decision);
    DecidedRequest(ask, e.kind.command.callIndex, e.kind.command.decision);
  }

  lemma {:induction false} DecidedRequest(a: Ask, i: nat, decision: Approval)
    requires Sized(a)
    ensures Decided(a, i, decision).request ==
              if i < |a.request.decisions| && a.request.decisions[i].None?
              then a.request.(decisions := a.request.decisions[i := Some(decision)]) else a.request
  {
    hide Search;
  }

  lemma {:induction false} ViewAt(queue: seq<Ask>, k: nat)
    requires k < |queue|
    ensures View(queue)[k] == Bare(queue[k].request) && View(queue)[k].requestId == queue[k].request.requestId
  {
  }

  /** One call's answer, on the dialog it addresses. */
  lemma {:induction false} CallQueue(queue: seq<Ask>, e: Event, k: nat)
    requires AllSized(queue) && Kept(queue) && k < |queue| && e.kind.Issued? && e.kind.command.ResolveApprovalCall?
    requires e.kind.command.requestId == queue[k].request.requestId
    ensures var after := Unfinished(queue[k := Decided(queue[k], e.kind.command.callIndex, e.kind.command.decision)]);
            && AllFocused(after)
            && View(after) == if Advance(View(queue)[k], e).Some? then View(queue)[k := Advance(View(queue)[k], e).value]
                              else Without(View(queue), k)
  {
    hide Decided, Focused, Finished, Unfinished, Advance, PendingLive, Without, View;
    var next := Decided(queue[k], e.kind.command.callIndex, e.kind.command.decision);
    AskFollows(queue[k], e);
    UnfinishedAt(queue, k, next);
    ViewAt(queue, k);
    ViewUpdate(queue, k, next);
    ViewWithout(queue, k);
    WithoutAt(queue, k);
  }

  /** Where the first dialog of an id stands among the batches. */
  lemma {:induction false} AskedShows(pending: seq<Pending>, id: string)
    ensures var j, shown := OldestAsked(pending, id), Shown(pending);
            if j == |pending| then Position(shown, id) == |shown|
            else
              var a, b := Shown(pending[..j]), Shown(pending[j + 1..]);
              && Position(shown, id) == |a|
              && shown == a + ([Bare(pending[j])] + b)
              && Shown(Without(pending, j)) == a + b
  {
    hide Shown, OldestAsked, Position, Without;
    var j, shown := OldestAsked(pending, id), Shown(pending);
    ShownNames(pending, id);
    if j < |pending| {
      var a, b := pending[..j], pending[j + 1..];
      SplitAt(pending, j);
      ShownSplit(a, [pending[j]], b);
      ShownSplit(a, [], b);
      ShownOne(pending[j]);
      ShownNames(a, id);
      assert [] + Shown(b) == Shown(b);
      assert shown[|Shown(a)|].requestId == id;
      assert forall k :: 0 <= k < |Shown(a)| ==> shown[k] == Shown(a)[k];
    }
  }

  /** The hub's own batch, among those shown. */
  lemma {:induction false} ShownAdvance(pending: seq<Pending>, k: nat, e: Event)
    requires Slotted(pending) && k < |pending| && e.kind.Issued? && e.kind.command.ResolveApprovalCall?
    requires pending[k].requestId == e.kind.command.requestId && k == OldestAsked(pending, pending[k].requestId)
    ensures Shown(AdvanceAt(pending, k, e)) == AdvanceAt(Shown(pending), Position(Shown(pending), pending[k].requestId), e)
  {
    hide Shown, OldestAsked, Position, Without, Advance;
    var a, b, p := pending[..k], pending[k + 1..], pending[k];
    var shown := Shown(pending);
    AskedShows(pending, p.requestId);
    BareAdvance(p, e);
    SplitAt(pending, k);
    SplitAt(shown, |Shown(a)|);
    assert shown[..|Shown(a)|] == Shown(a) && shown[|Shown(a)| + 1..] == Shown(b);
    if Advance(p, e).Some? {
      var q := Advance(p, e).value;
      ShownSplit(a, [q], b);
      ShownOne(q);
    } else {
      assert Shown(a) + ([] + Shown(b)) == Shown(a) + Shown(b);
    }
  }

  lemma {:induction false} BareAdvance(p: Pending, e: Event)
    requires |p.decisions| == |p.calls|
    ensures Advance(Bare(p), e).Some? <==> Advance(p, e).Some?
    ensures Advance(p, e).Some? ==> Advance(Bare(p), e) == Some(Bare(Advance(p, e).value)) && Advance(p, e).value.calls == p.calls
  {
  }

  lemma {:induction false} AdvanceChanges(pending: seq<Pending>, k: nat, e: Event)
    requires k < |pending| && e.kind.Issued? && e.kind.command.ResolveApprovalCall?
    requires pending[k].requestId == e.kind.command.requestId
    ensures AdvanceAt(pending, k, e) == pending <==> !Undecided(pending[k], e.kind.command.callIndex)
  {
    WithoutAt(pending, k);
    hide Without, AllDecided;
    var next := AdvanceAt(pending, k, e);
    if Undecided(pending[k], e.kind.command.callIndex) && |next| == |pending| {
      assert next[k].decisions[e.kind.command.callIndex].Some?;
    }
  }

  /** One call's answer in the dialogs. */
  lemma {:induction false} CallDialogs(pending: seq<Pending>, c: Client, counts: bool, e: Event)
    requires PendingLive(pending) && View(c.queue) == Shown(pending) && AllSized(c.queue) && Kept(c.queue)
    requires e.kind.Issued? && e.kind.command.ResolveApprovalCall?
    ensures View(ApplyEvent(c, e).queue) == Shown(Held(pending, counts, e))
       <==> forall k :: 0 <= k < |pending| && ReachesDialog(pending, e, k) ==> HubActs(pending, counts, e, k)
    ensures AllFocused(ApplyEvent(c, e).queue)
  {
    hide Shown, OldestAsked, Position, Find, View, Unfinished, Advance, AllFocused, Decided, TakeSlot, Without, Finished;
    var id, i := e.kind.command.requestId, e.kind.command.callIndex;
    var j, f, g := OldestAsked(pending, id), Position(pending, id), Find(c.queue, id);
    FindIsPosition(c.queue, id);
    AskedShows(pending, id);
    if g == |c.queue| { AllUnfinished(c.queue); } else { CallQueue(c.queue, e, g); }
    assert View(ApplyEvent(c, e).queue) == AdvanceAt(Shown(pending), g, e);
    if counts && j < |pending| && j == f {
      ShownAdvance(pending, j, e);
    } else {
      if counts && f < |pending| { EmptyStays(pending, f, e); }
      assert Held(pending, counts, e) == pending;
      if j < |pending| {
        AdvanceChanges(Shown(pending), g, e);
        assert Undecided(pending[j], i) ==> ReachesDialog(pending, e, j) && !HubActs(pending, counts, e, j);
      }
    }
  }

  lemma {:induction false} EmptyStays(pending: seq<Pending>, k: nat, e: Event)
    requires Slotted(pending) && k < |pending| && pending[k].calls == [] && e.kind.Issued? && e.kind.command.ResolveApprovalCall?
    ensures AdvanceAt(pending, k, e) == pending
  {
    assert pending[k := pending[k]] == pending;
  }

  /** A batch reply in the dialogs. */
  lemma {:induction false} BatchDialogs(pending: seq<Pending>, c: Client, counts: bool, e: Event)
    requires PendingLive(pending) && View(c.queue) == Shown(pending) && AllSized(c.queue) && Kept(c.queue)
    requires e.kind.Issued? && e.kind.command.ResolveApproval?
    ensures View(ApplyEvent(c, e).queue) == Shown(Held(pending, counts, e))
       <==> forall k :: 0 <= k < |pending| && ReachesDialog(pending, e, k) ==> HubActs(pending, counts, e, k)
    ensures AllFocused(ApplyEvent(c, e).queue)
  {
    hide Shown, OldestAsked, Position, Find, View, NotNamed, AllFocused, Without, Finished;
    var id := e.kind.command.requestId;
    var j, held, after := OldestAsked(pending, id), Held(pending, counts, e), NotNamed(c.queue, id);
    NotNamedDrops(c.queue, id);
    FocusedPart(c.queue, after);
    NoneViewed(after, id);
    ShownNames(held, id);
    if k :| 0 <= k < |pending| && ReachesDialog(pending, e, k) && !HubActs(pending, counts, e, k) {
      StillHeld(pending, counts, e, k);
    } else {
      OnlyDialog(pending, c.queue, counts, e);
    }
  }

  lemma {:induction false} FocusedPart(queue: seq<Ask>, part: seq<Ask>)
    requires AllFocused(queue) && forall k :: 0 <= k < |part| ==> part[k] in queue
    ensures AllFocused(part)
  {
    hide Focused;
  }

  lemma {:induction false} NoneViewed(queue: seq<Ask>, id: string)
    requires forall k :: 0 <= k < |queue| ==> queue[k].request.requestId != id
    ensures NoneNamed(View(queue), id)
  {
  }

  lemma {:induction false} StillHeld(pending: seq<Pending>, counts: bool, e: Event, k: nat)
    requires k < |pending| && e.kind.Issued? && e.kind.command.ResolveApproval? && !HubActs(pending, counts, e, k)
    ensures exists j :: 0 <= j < |Held(pending, counts, e)| && Held(pending, counts, e)[j] == pending[k]
  {
    var f := Position(pending, e.kind.command.requestId);
    if counts && f < |pending| {
      WithoutAt(pending, f);
      hide Without;
      assert Held(pending, counts, e)[if k < f then k else k - 1] == pending[k];
    } else {
      assert Held(pending, counts, e)[k] == pending[k];
    }
  }

  /** With no dialog but the hub's own batch addressed, a batch reply drops just it. */
  lemma {:induction false} OnlyDialog(pending: seq<Pending>, queue: seq<Ask>, counts: bool, e: Event)
    requires View(queue) == Shown(pending) && e.kind.Issued? && e.kind.command.ResolveApproval?
    requires forall k :: 0 <= k < |pending| && ReachesDialog(pending, e, k) ==> HubActs(pending, counts, e, k)
    ensures View(NotNamed(queue, e.kind.command.requestId)) == Shown(Held(pending, counts, e))
  {
    hide Shown, OldestAsked, Position, View, NotNamed, Without;
    var id := e.kind.command.requestId;
    var j, f := OldestAsked(pending, id), Position(pending, id);
    if j < |pending| {
      assert ReachesDialog(pending, e, j);
      assert forall k :: j < k < |pending| && pending[k].requestId == id ==> pending[k].calls == [] by {
        forall k | j < k < |pending| && pending[k].requestId == id ensures pending[k].calls == [] {
          assert !HubActs(pending, counts, e, k);
        }
      }
      AloneDropped(pending, queue, id);
    } else {
      NoneDropped(pending, queue, id);
      if counts && f < |pending| {
        SplitAt(pending, f);
        ShownSplit(pending[..f], [], pending[f + 1..]);
        ShownSplit(pending[..f], [pending[f]], pending[f + 1..]);
        ShownOne(pending[f]);
      }
    }
  }

  lemma {:induction false} NoneDropped(pending: seq<Pending>, queue: seq<Ask>, id: string)
    requires View(queue) == Shown(pending) && OldestAsked(pending, id) == |pending|
    ensures View(NotNamed(queue, id)) == Shown(pending)
  {
    hide Shown, OldestAsked, Position, Find, View, NotNamed;
    FindIsPosition(queue, id);
    AskedShows(pending, id);
    OnlyNamed(queue, id, Find(queue, id));
    NotNamedAt(queue, id, Find(queue, id));
  }

  lemma {:induction false} AloneDropped(pending: seq<Pending>, queue: seq<Ask>, id: string)
    requires View(queue) == Shown(pending) && OldestAsked(pending, id) < |pending|
    requires forall k :: OldestAsked(pending, id) < k < |pending| && pending[k].requestId == id ==> pending[k].calls == []
    ensures View(NotNamed(queue, id)) == Shown(Without(pending, OldestAsked(pending, id)))
  {
    hide Shown, OldestAsked, Position, Find, View, NotNamed, Without;
    var j, g := OldestAsked(pending, id), Find(queue, id);
    var a, b := Shown(pending[..j]), Shown(pending[j + 1..]);
    FindIsPosition(queue, id);
    AskedShows(pending, id);
    ShownNames(pending[j + 1..], id);
    assert NoneNamed(b, id);
    assert forall k :: g < k < |queue| ==> View(queue)[k] == b[k - g - 1];
    OnlyNamed(queue, id, g);
    NotNamedAt(queue, id, g);
    ViewWithout(queue, g);
    WithoutMiddle(a, Bare(pending[j]), b);
  }

  lemma {:induction false} WithoutMiddle(a: seq<Pending>, p: Pending, b: seq<Pending>)
    ensures Without(a + ([p] + b), |a|) == a + b
  {
  }

  lemma {:induction false} OnlyNamed(queue: seq<Ask>, id: string, g: nat)
    requires g == Find(queue, id) && forall k :: g < k < |queue| ==> View(queue)[k].requestId != id
    ensures forall j :: 0 <= j < |queue| && j != g ==> queue[j].request.requestId != id
  {
    forall j | g < j < |queue| ensures queue[j].request.requestId != id { assert View(queue)[j].requestId != id; }
  }

  /** The dialogs follow an event exactly when the event changes the dialog of no
      batch but those the hub acts on. */
  lemma {:induction false} QueueFollows(pending: seq<Pending>, c: Client, counts: bool, e: Event)
    requires PendingLive(pending) && View(c.queue) == Shown(pending) && AllSized(c.queue) && Kept(c.queue)
    ensures View(ApplyEvent(c, e).queue) == Shown(Held(pending, counts, e))
       <==> forall k :: 0 <= k < |pending| && ReachesDialog(pending, e, k) ==> HubActs(pending, counts, e, k)
    ensures AllFocused(ApplyEvent(c, e).queue)
  {
    hide Shown, TakeSlot, NotNamed, Unfinished, SettleFirst, OldestAsked, Position, Finished, Focused;
    if e.kind.RunFinished? {
      ShownNothing();
      ShownEmpty(pending);
      assert ApplyEvent(c, e).queue == [] && View([]) == [];
      if k :| 0 <= k < |pending| && pending[k].calls != [] {
        assert ReachesDialog(pending, e, k);
      }
    } else if Addresses(e) {
      if e.kind.command.ResolveApproval? { BatchDialogs(pending, c, counts, e); } else { CallDialogs(pending, c, counts, e); }
    }
  }

  // --------------------------------------------------------------------- one step

  /** Opening or refreshing a dialog takes the request as it stands. */
  lemma {:induction false} SeededAsk(a: Ask, p: Pending)
    requires |p.decisions| == |p.calls| && (p.calls != [] ==> !AllDecided(p.decisions))
    ensures Open(p).request == p && Refresh(a, p).request == p
    ensures Finished(Open(p)) <==> p.calls == []
    ensures Finished(Refresh(a, p)) <==> p.calls == []
  {
    assert Resized(p.decisions, |p.calls|) == p.decisions;
  }

  lemma {:induction false} SeedShows(previous: seq<Ask>, p: Pending)
    requires |p.decisions| == |p.calls| && (p.calls != [] ==> !AllDecided(p.decisions))
    ensures View(Seed(previous, p)) == Shown([p]) && AllFocused(Seed(previous, p))
  {
    hide Shown, Open, Refresh, Finished, Focused, AllDecided;
    var k := Find(previous, p.requestId);
    SeededAsk(if k < |previous| then previous[k] else Open(p), p);
    OpenFocused(p);
    if k < |previous| { RefreshFocused(previous[k], p); }
    ShownOne(p);
  }

  lemma {:induction false} ViewConcat(a: seq<Ask>, b: seq<Ask>)
    ensures View(a + b) == View(a) + View(b)
    ensures AllFocused(a) && AllFocused(b) ==> AllFocused(a + b)
  {
    hide Focused;
  }

  /** A baseline is taken whole, whatever the dialogs were. */
  lemma {:induction false} ReseedShows(previous: seq<Ask>, pending: seq<Pending>)
    requires PendingLive(pending)
    ensures View(Reseed(previous, pending)) == Shown(pending) && AllFocused(Reseed(previous, pending))
    decreases |pending|
  {
    if pending == [] {
      ShownNothing();
    } else {
      var p, rest := pending[0], pending[1..];
      assert PendingLive(rest) && |p.decisions| == |p.calls| && (p.calls != [] ==> !AllDecided(p.decisions));
      hide Shown, PendingLive, Seed, Left, View, AllFocused;
      var left := Left(previous, p.requestId);
      SeedShows(previous, p);
      ReseedShows(left, rest);
      ViewConcat(Seed(previous, p), Reseed(left, rest));
      assert pending == [p] + rest;
      ShownConcat([p], rest);
    }
  }

  /** A baseline brings any client into agreement, whatever ids it holds. */
  lemma {:induction false} SyncAgrees(s: State, c: Client)
    requires PendingLive(s.pending)
    ensures Agree(s, ApplySync(c, Handshake(s)))
  {
    hide SlotMap, Reseed, Shown, PendingLive;
    ReseedShows(c.queue, s.pending);
  }

  lemma {:induction false} AgreeKept(s: State, c: Client)
    requires Agree(s, c) && PendingLive(s.pending)
    ensures AllSized(c.queue) && Kept(c.queue)
  {
    hide SlotMap, Shown;
    ShownLive(s.pending);
    forall k | 0 <= k < |c.queue| ensures Sized(c.queue[k]) && !Finished(c.queue[k]) {
      FocusedSized(c.queue[k]);
      assert View(c.queue)[k].calls != [] && !AllDecided(View(c.queue)[k].decisions);
    }
  }

  /** A recorded event, first of its id or not: agreement survives it exactly when
      the client acts on no batch but those the hub acts on. */
  lemma {:induction false} EventExact(s: State, c: Client, t: State, d: Client, e: Event)
    requires Agree(s, c) && PendingLive(s.pending) && AllSized(c.queue) && Kept(c.queue)
    requires t == s.(lastSeq := t.lastSeq) && d == c.(asOf := t.lastSeq)
    ensures Agree(TrackRecorded(t, e), ApplyEvent(d, e)) <==> Benign(s.pending, e.id !in s.seen, e)
    ensures PendingLive(TrackRecorded(t, e).pending)
  {
    hide SlotMap, Shown, Transition, View, AllFocused, TakeSlot, NotNamed, Unfinished, SettleFirst, Held, PendingLive,
         ReachesSlots, ReachesDialog, HubActs;
    HubHolds(t, e);
    if e.id !in t.seen { TransitionKeepsLog(t, e); }
    SlotsFollow(s.pending, d, e.id !in s.seen, e);
    QueueFollows(s.pending, d, e.id !in s.seen, e);
  }

  lemma {:induction false} RequestSlots(pending: seq<Pending>, p: Pending)
    requires forall i :: 0 <= i < |p.decisions| ==> p.decisions[i].None?
    ensures SlotMap(pending + [p]) == SlotMap(pending)[p.requestId := Names(p.calls)]
  {
    assert (pending + [p])[..|pending|] == pending;
    assert SlotsOf(p) == Names(p.calls);
  }

  lemma {:induction false} FreshAsk(q: Pending)
    requires |q.decisions| == |q.calls| && forall i :: 0 <= i < |q.decisions| ==> q.decisions[i].None?
    ensures Open(q).request == q && (Finished(Open(q)) <==> q.calls == [])
    ensures View([Open(q)]) == [Bare(q)] && AllFocused([Open(q)])
  {
    hide Open, Finished, Focused;
    assert q.calls != [] ==> q.decisions[0].None?;
    SeededAsk(Open(q), q);
    OpenFocused(q);
  }

  lemma {:induction false} RequestDialogs(queue: seq<Ask>, pending: seq<Pending>, p: Pending, q: Pending)
    requires View(queue) == Shown(pending) && AllFocused(queue) && Bare(p) == Bare(q)
    requires |q.decisions| == |q.calls| && forall i :: 0 <= i < |q.decisions| ==> q.decisions[i].None?
    ensures View(Enqueue(queue, q)) == Shown(pending + [p]) && AllFocused(Enqueue(queue, q))
  {
    hide Finished, Open, View, Shown, AllFocused;
    FreshAsk(q);
    ShownConcat(pending, [p]);
    ShownOne(p);
    ViewConcat(queue, [Open(q)]);
    assert Shown(pending) + [] == Shown(pending);
  }

  lemma {:induction false} RequestAgrees(s: State, c: Client, id: string, turn: nat, calls: seq<ToolCall>)
    requires Agree(s, c)
    ensures var p := NewPending(s.events, id, turn, calls);
            var q := Pending(id, turn, None, calls, seq(|calls|, _ => None));
            && c.slots[id := Names(calls)] == SlotMap(s.pending + [p])
            && View(Enqueue(c.queue, q)) == Shown(s.pending + [p]) && AllFocused(Enqueue(c.queue, q))
  {
    hide AnchorFor, SlotMap, Shown, View, AllFocused, Enqueue;
    var p := NewPending(s.events, id, turn, calls);
    var q := Pending(id, turn, None, calls, seq(|calls|, _ => None));
    assert Bare(p) == Bare(q);
    RequestSlots(s.pending, p);
    RequestDialogs(c.queue, s.pending, p, q);
  }

  lemma {:induction false} RequestLive(pending: seq<Pending>, events: seq<Event>, id: string, turn: nat, calls: seq<ToolCall>)
    requires PendingLive(pending)
    ensures PendingLive(pending + [NewPending(events, id, turn, calls)])
  {
    hide AnchorFor;
    var p := NewPending(events, id, turn, calls);
    assert calls != [] ==> p.decisions[0].None?;
  }

  /** The item is harmless where it occurs. A request always is, even under an id
      still pending. */
  predicate Sound(s: State, item: LiveItem) {
    item.kind.Recorded? ==> Benign(s.pending, item.kind.event.id !in s.seen, item.kind.event)
  }

  lemma {:induction false} TrackLive(parse: A.Parser, s: State, item: LiveItem)
    requires PendingLive(s.pending)
    ensures PendingLive(Track(parse, s, item).pending)
  {
    hide PendingLive, Transport.Complete, A.Push, TrackRecorded, NewPending, Held;
    if item.kind.Recorded? {
      HubHolds(Positioned(s, item), item.kind.event);
    } else if item.kind.ApprovalRequested? {
      RequestLive(s.pending, s.events, item.kind.requestId, item.kind.requestTurn, item.kind.calls);
    }
  }

  /** One new item, whatever its ids: agreement survives it exactly when it is sound. */
  lemma {:induction false} ItemExact(parse: A.Parser, s: State, c: Client, item: LiveItem)
    requires Agree(s, c) && PendingLive(s.pending) && item.position > s.lastSeq
    ensures AllSized(c.queue)
    ensures Agree(Track(parse, s, item), ApplyItem(c, item)) <==> Sound(s, item)
  {
    hide SlotMap, Shown, ApplyEvent, TrackRecorded, Enqueue, NewPending, View, AllFocused, A.Push, Transport.Complete, Benign;
    AgreeKept(s, c);
    hide PendingLive, Kept;
    if item.kind.Recorded? {
      EventExact(s, c, Positioned(s, item), c.(asOf := item.position), item.kind.event);
    } else if item.kind.ApprovalRequested? {
      RequestAgrees(s, c, item.kind.requestId, item.kind.requestTurn, item.kind.calls);
    }
  }

  // --------------------------------------------------------- what soundness means

  /** While pending ids differ, an event that counts is always benign. */
  lemma {:induction false} FirstIsBenign(pending: seq<Pending>, e: Event)
    requires PendingOk(pending)
    ensures Benign(pending, true, e)
  {
  }

  /** A repeated event that finds nothing left to do. */
  predicate Harmless(pending: seq<Pending>, e: Event) {
    match e.kind
    case RunFinished(_) => pending == []
    case Issued(ResolveApproval(id, _)) => NoneNamed(pending, id)
    case Issued(ResolveApprovalCall(id, i, _)) =>
      forall k :: 0 <= k < |pending| && pending[k].requestId == id ==> !Undecided(pending[k], i)
    case _ => true
  }

  lemma {:induction false} RepeatIsBenign(pending: seq<Pending>, e: Event)
    requires PendingOk(pending)
    ensures Benign(pending, false, e) <==> Harmless(pending, e)
  {
    hide Newest, OldestAsked;
    if !Harmless(pending, e) {
      var k :| 0 <= k < |pending| && (e.kind.RunFinished? || pending[k].requestId == e.kind.command.requestId)
               && (e.kind.Issued? && e.kind.command.ResolveApprovalCall? ==> Undecided(pending[k], e.kind.command.callIndex));
      assert ReachesSlots(pending, e, k);
    }
  }

  /** A repeat of an event the hub has counted, ids pending being distinct: hub and
      client still agree exactly when it would find nothing left to do. */
  lemma {:induction false} RepeatAgrees(parse: A.Parser, s: State, c: Client, item: LiveItem)
    requires Agree(s, c) && PendingLive(s.pending) && PendingOk(s.pending) && item.position > s.lastSeq
    requires item.kind.Recorded? && item.kind.event.id in s.seen
    ensures AllSized(c.queue)
    ensures Agree(Track(parse, s, item), ApplyItem(c, item)) <==> Harmless(s.pending, item.kind.event)
  {
    hide Agree, Track, ApplyItem, Benign, Harmless, PendingLive;
    ItemExact(parse, s, c, item);
    RepeatIsBenign(s.pending, item.kind.event);
  }

  /** Two requests pending under one id part hub and client at the first batch reply
      to it: the hub drops the older and keeps the other, the client drops both. */
  lemma {:induction false} TwinsPart(parse: A.Parser, s: State, c: Client, item: LiveItem, j: nat, k: nat)
    requires Agree(s, c) && PendingLive(s.pending) && item.position > s.lastSeq
    requires j < k < |s.pending| && s.pending[j].requestId == s.pending[k].requestId
    requires item.kind.Recorded? && item.kind.event.id !in s.seen && item.kind.event.kind.Issued?
    requires item.kind.event.kind.command.ResolveApproval? && item.kind.event.kind.command.requestId == s.pending[k].requestId
    ensures AllSized(c.queue)
    ensures var t, d, id := Track(parse, s, item), ApplyItem(c, item), s.pending[k].requestId;
            && t.pending == Without(s.pending, Position(s.pending, id)) && !NoneNamed(t.pending, id)
            && id !in d.slots && (forall n :: 0 <= n < |d.queue| ==> d.queue[n].request.requestId != id)
            && !Agree(t, d)
  {
    hide SlotMap, Shown, View, AllFocused, NotNamed, PendingLive, Without, SlotsOf, Remember;
    var id := s.pending[k].requestId;
    AgreeKept(s, c) by { hide *; }
    ItemExact(parse, s, c, item) by { hide *; }
    NotNamedDrops(c.queue, id);
    var f := Position(s.pending, id);
    WithoutAt(s.pending, f);
    assert Without(s.pending, f)[k - 1].requestId == id;
    var t, d := Track(parse, s, item), ApplyItem(c, item);
    OwnedSlots(t.pending, SlotMap(t.pending), id);
  }
}
