/**
 A client's picture of the open approvals: the transcript's slot map and the
 dialog queue, kept from a baseline and the live items after it.
 */
module Clients {
  import opened Prelude
  import opened Contract
  import opened Transport
  import opened Dialogs

  /** `asOf` is the last position applied; a slot holds the call's name while it
      is undecided; the queue is the dialogs, front first. */
  datatype Client = Client(asOf: nat, slots: map<string, seq<Option<string>>>, queue: seq<Ask>)

  function Names(calls: seq<ToolCall>): (r: seq<Option<string>>)
    ensures |r| == |calls|
  {
    seq(|calls|, i requires 0 <= i < |calls| => Some(calls[i].name))
  }

  function SlotsOf(p: Pending): (r: seq<Option<string>>)
    ensures |r| == |p.calls|
  {
    seq(|p.calls|, i requires 0 <= i < |p.calls| =>
      if i < |p.decisions| && p.decisions[i].Some? then None else Some(p.calls[i].name))
  }

  predicate AllTaken(slots: seq<Option<string>>) {
    forall i :: 0 <= i < |slots| ==> slots[i].None?
  }

  /** One call's recorded answer empties its slot; the last one drops the entry. */
  function TakeSlot(slots: map<string, seq<Option<string>>>, requestId: string, i: nat): map<string, seq<Option<string>>> {
    if requestId !in slots || i >= |slots[requestId]| || slots[requestId][i].None? then slots
    else
      var rest := slots[requestId][i := None];
      if AllTaken(rest) then slots - {requestId} else slots[requestId := rest]
  }

  predicate AllSized(queue: seq<Ask>) {
    forall k :: 0 <= k < |queue| ==> Sized(queue[k])
  }

  /** A request with nothing left to answer opens no dialog. */
  function Enqueue(queue: seq<Ask>, request: Pending): seq<Ask> {
    if Finished(Open(request)) then queue else queue + [Open(request)]
  }

  function Find(queue: seq<Ask>, requestId: string): (k: nat)
    ensures k <= |queue| && (k < |queue| ==> queue[k].request.requestId == requestId)
    ensures forall i :: 0 <= i < k ==> queue[i].request.requestId != requestId
  {
    if queue == [] || queue[0].request.requestId == requestId then 0 else 1 + Find(queue[1..], requestId)
  }

  function Unfinished(queue: seq<Ask>): seq<Ask> {
    if queue == [] then []
    else Unfinished(queue[..|queue| - 1])
         + (if Finished(queue[|queue| - 1]) then [] else [queue[|queue| - 1]])
  }

  function NotNamed(queue: seq<Ask>, requestId: string): seq<Ask> {
    if queue == [] then []
    else NotNamed(queue[..|queue| - 1], requestId)
         + (if queue[|queue| - 1].request.requestId == requestId then [] else [queue[|queue| - 1]])
  }

  function SettleFirst(queue: seq<Ask>, requestId: string, i: nat, decision: Approval): seq<Ask>
    requires AllSized(queue)
  {
    var k := Find(queue, requestId);
    if k == |queue| then queue else queue[k := Decided(queue[k], i, decision)]
  }

  /** The dialog a baseline leaves for one request, if any: a known one keeps what
      was submitted. */
  function Seed(previous: seq<Ask>, p: Pending): seq<Ask> {
    var k := Find(previous, p.requestId);
    var ask := if k < |previous| then Refresh(previous[k], p) else Open(p);
    if Finished(ask) then [] else [ask]
  }

  function Left(previous: seq<Ask>, requestId: string): seq<Ask> {
    var k := Find(previous, requestId);
    if k < |previous| then Without(previous, k) else previous
  }

  /** The dialogs of a fresh baseline, in its order. */
  function Reseed(previous: seq<Ask>, pending: seq<Pending>): seq<Ask>
    decreases |pending|
  {
    if pending == [] then []
    else Seed(previous, pending[0]) + Reseed(Left(previous, pending[0].requestId), pending[1..])
  }

  lemma {:induction false} ReseedStep(previous: seq<Ask>, pending: seq<Pending>)
    requires pending != []
    ensures Reseed(previous, pending)
         == Seed(previous, pending[0]) + Reseed(Left(previous, pending[0].requestId), pending[1..])
  {
  }

  lemma {:induction false} ReseedNone(previous: seq<Ask>)
    ensures Reseed(previous, []) == []
  {
  }

  function SlotMap(pending: seq<Pending>): map<string, seq<Option<string>>> {
    if pending == [] then map[]
    else SlotMap(pending[..|pending| - 1])[pending[|pending| - 1].requestId := SlotsOf(pending[|pending| - 1])]
  }

  function ApplySync(c: Client, sync: Sync): Client {
    Client(sync.asOfSeq, SlotMap(sync.pending), Reseed(c.queue, sync.pending))
  }

  /** What a counting event does to the client. */
  function ApplyEvent(c: Client, e: Event): Client
    requires AllSized(c.queue)
  {
    match e.kind
    case RunFinished(_) => c.(slots := map[], queue := [])
    case Issued(command) =>
      (match command
       case ResolveApproval(id, _) => c.(slots := c.slots - {id}, queue := NotNamed(c.queue, id))
       case ResolveApprovalCall(id, i, decision) =>
         c.(slots := TakeSlot(c.slots, id, i), queue := Unfinished(SettleFirst(c.queue, id, i, decision)))
       case _ => c)
    case _ => c
  }

  /** The one client rule: drop what the baseline covers, apply the rest. */
  function ApplyItem(c: Client, item: LiveItem): Client
    requires AllSized(c.queue)
  {
    if item.position <= c.asOf then c
    else
      var d := c.(asOf := item.position);
      match item.kind
      case Recorded(event) => ApplyEvent(d, event)
      case ApprovalRequested(requestId, turn, calls) =>
        d.(slots := d.slots[requestId := Names(calls)],
           queue := Enqueue(d.queue, Pending(requestId, turn, None, calls, seq(|calls|, _ => None))))
      case _ => d
  }

  /** Tab, on the front dialog. */
  function ApplyFocus(c: Client, backwards: bool): Client
    requires AllSized(c.queue)
  {
    if c.queue == [] then c else c.(queue := c.queue[0 := Moved(c.queue[0], backwards)])
  }

  /** An answer key: submission is not settlement. */
  function ApplyAnswer(c: Client): (r: (Client, Option<(string, nat)>))
    requires AllSized(c.queue)
  {
    if c.queue == [] then (c, None)
    else
      var (ask, index) := Pressed(c.queue[0]);
      (c.(queue := c.queue[0 := ask]),
       if index.Some? then Some((c.queue[0].request.requestId, index.value)) else None)
  }

  // ------------------------------------------------------------- the client object

  ghost function Asks(dialogs: seq<Dialog>): (r: seq<Ask>)
    reads dialogs
    ensures |r| == |dialogs| && forall k :: 0 <= k < |r| ==> r[k] == dialogs[k].Model()
  {
    seq(|dialogs|, k requires 0 <= k < |dialogs| reads dialogs => dialogs[k].Model())
  }

  /** Distinct, well-formed dialogs. */
  ghost predicate Owned(dialogs: seq<Dialog>)
    reads dialogs
  {
    && (forall j, k :: 0 <= j < k < |dialogs| ==> dialogs[j] != dialogs[k])
    && (forall k :: 0 <= k < |dialogs| ==> dialogs[k].Valid())
  }

  lemma {:induction false} OwnedSnoc(dialogs: seq<Dialog>, d: Dialog)
    requires Owned(dialogs) && d !in dialogs && d.Valid()
    ensures Owned(dialogs + [d]) && Asks(dialogs + [d]) == Asks(dialogs) + [d.Model()]
  {
  }

  lemma {:induction false} OwnedAt(dialogs: seq<Dialog>, k: nat)
    requires Owned(dialogs) && k < |dialogs|
    ensures dialogs[k].Valid() && |Asks(dialogs)| == |dialogs| && Asks(dialogs)[k] == dialogs[k].Model()
  {
  }

  lemma {:induction false} NoneOwned()
    ensures Owned([]) && Asks([]) == []
  {
  }

  /** Dialogs that nothing wrote to are as they were. */
  twostate lemma Untouched(dialogs: seq<Dialog>)
    requires forall d :: d in dialogs ==> unchanged(d)
    ensures Asks(dialogs) == old(Asks(dialogs)) && (old(Owned(dialogs)) ==> Owned(dialogs))
  {
    forall k | 0 <= k < |dialogs|
      ensures dialogs[k].Model() == old(dialogs[k].Model()) && dialogs[k].Valid() == old(dialogs[k].Valid())
    {
      assert dialogs[k] in dialogs && unchanged(dialogs[k]);
    }
  }

  lemma {:induction false} UnfinishedSnoc(queue: seq<Ask>, i: nat)
    requires i < |queue|
    ensures Unfinished(queue[..i + 1]) == Unfinished(queue[..i]) + (if Finished(queue[i]) then [] else [queue[i]])
    ensures Unfinished(queue[..i]) + [] == Unfinished(queue[..i])
  {
    hide Finished;
    assert queue[..i + 1][..i] == queue[..i];
  }

  lemma {:induction false} NoneUnfinished()
    ensures Unfinished([]) == []
  {
  }

  lemma {:induction false} OwnedSized(dialogs: seq<Dialog>)
    requires Owned(dialogs)
    ensures AllSized(Asks(dialogs))
  {
  }

  method RetainUnfinished(dialogs: seq<Dialog>) returns (kept: seq<Dialog>)
    requires Owned(dialogs)
    ensures Owned(kept) && Asks(kept) == Unfinished(Asks(dialogs)) && forall d :: d in kept ==> d in dialogs
  {
    NoneOwned();
    hide Finished, Unfinished;
    kept := [];
    var i := 0;
    NoneUnfinished();
    assert Asks(dialogs)[..0] == [];
    while i < |dialogs|
      invariant 0 <= i <= |dialogs|
      invariant Owned(kept) && forall d :: d in kept ==> d in dialogs[..i]
      invariant Asks(kept) == Unfinished(Asks(dialogs)[..i])
    {
      UnfinishedSnoc(Asks(dialogs), i);
      assert dialogs[i] !in dialogs[..i];
      hide Owned;
      var complete := dialogs[i].Complete();
      if !complete {
        OwnedSnoc(kept, dialogs[i]);
        kept := kept + [dialogs[i]];
      }
      i := i + 1;
    }
    assert Asks(dialogs)[..|dialogs|] == Asks(dialogs);
  }

  method RetainOthers(dialogs: seq<Dialog>, requestId: string) returns (kept: seq<Dialog>)
    requires Owned(dialogs)
    ensures Owned(kept) && Asks(kept) == NotNamed(Asks(dialogs), requestId) && forall d :: d in kept ==> d in dialogs
  {
    kept := [];
    var i := 0;
    while i < |dialogs|
      invariant 0 <= i <= |dialogs|
      invariant Owned(kept) && forall d :: d in kept ==> d in dialogs[..i]
      invariant Asks(kept) == NotNamed(Asks(dialogs)[..i], requestId)
    {
      assert Asks(dialogs)[..i + 1][..i] == Asks(dialogs)[..i];
      assert dialogs[i] !in dialogs[..i];
      hide Owned;
      if dialogs[i].request.requestId != requestId {
        OwnedSnoc(kept, dialogs[i]);
        kept := kept + [dialogs[i]];
      }
      i := i + 1;
    }
    assert Asks(dialogs)[..|dialogs|] == Asks(dialogs);
  }

  method FindRequest(dialogs: seq<Dialog>, requestId: string) returns (k: nat)
    ensures k == Find(Asks(dialogs), requestId)
  {
    k := 0;
    while k < |dialogs| && dialogs[k].request.requestId != requestId
      invariant k <= |dialogs|
      invariant Find(Asks(dialogs), requestId) == k + Find(Asks(dialogs)[k..], requestId)
    {
      assert Asks(dialogs)[k..][1..] == Asks(dialogs)[k + 1..];
      k := k + 1;
    }
  }

  lemma {:induction false} WithoutOne(dialogs: seq<Dialog>, k: nat)
    requires Owned(dialogs) && k < |dialogs|
    ensures Owned(Without(dialogs, k)) && Asks(Without(dialogs, k)) == Without(Asks(dialogs), k)
    ensures dialogs[k] !in Without(dialogs, k) && forall d :: d in Without(dialogs, k) ==> d in dialogs
  {
    var rest := Without(dialogs, k);
    assert forall j :: 0 <= j < |rest| ==> rest[j] == dialogs[if j < k then j else j + 1];
  }

  class ClientApprovals {
    var asOfSeq: nat
    var slots: map<string, seq<Option<string>>>
    var approvals: seq<Dialog>

    ghost function Model(): Client
      reads this, approvals
    {
      Client(asOfSeq, slots, Asks(approvals))
    }

    ghost predicate Valid()
      reads this, approvals
    {
      Owned(approvals)
    }

    constructor ()
      ensures Valid() && Model() == Client(0, map[], []) && approvals == []
    {
      asOfSeq, slots, approvals := 0, map[], [];
    }

    method PushCallResolution(requestId: string, callIndex: nat)
      modifies this`slots
      ensures slots == TakeSlot(old(slots), requestId, callIndex)
    {
      if requestId !in slots { return; }
      var left := slots[requestId];
      if callIndex >= |left| || left[callIndex].None? { return; }
      left := left[callIndex := None];
      slots := slots[requestId := left];
      if AllTaken(left) {
        slots := slots - {requestId};
        assert slots == old(slots) - {requestId};
      }
    }

    method QueueApproval(request: Pending)
      requires Owned(approvals)
      modifies this`approvals
      ensures Owned(approvals) && Asks(approvals) == Enqueue(old(Asks(approvals)), request)
      ensures forall d :: d in approvals ==> d in old(approvals) || fresh(d)
    {
      hide Finished;
      var dialog := new Dialog(request);
      var complete := dialog.Complete();
      if complete { return; }
      approvals := approvals + [dialog];
    }

    /** One call's recorded decision; a finished dialog leaves the queue. */
    method SettleCall(requestId: string, callIndex: nat, decision: Approval)
      requires Owned(approvals)
      modifies this`approvals, approvals
      ensures Owned(approvals) && forall d :: d in approvals ==> d in old(approvals)
      ensures AllSized(old(Asks(approvals)))
      ensures Asks(approvals) == Unfinished(SettleFirst(old(Asks(approvals)), requestId, callIndex, decision))
    {
      hide Unfinished, Decided, Find;
      var k := FindRequest(approvals, requestId);
      if k < |approvals| {
        approvals[k].Settle(callIndex, decision);
        assert Asks(approvals) == old(Asks(approvals))[k := Decided(old(approvals[k].Model()), callIndex, decision)];
      }
      approvals := RetainUnfinished(approvals);
    }

    /** A recorded event's effect on the dialogs and the slots. */
    method OnEvent(e: Event)
      requires Valid()
      modifies this`slots, this`approvals, approvals
      ensures Valid() && forall d :: d in approvals ==> d in old(approvals)
      ensures AllSized(old(Model()).queue) && Model() == ApplyEvent(old(Model()), e)
    {
      hide Unfinished, NotNamed, SettleFirst, TakeSlot, Finished, Decided, Find, Owned, Asks, AllSized;
      OwnedSized(approvals);
      NoneOwned();
      match e.kind
      case RunFinished(_) => slots, approvals := map[], [];
      case Issued(ResolveApproval(id, _)) =>
        slots := slots - {id};
        approvals := RetainOthers(approvals, id);
      case Issued(ResolveApprovalCall(id, i, decision)) =>
        PushCallResolution(id, i);
        SettleCall(id, i, decision);
      case _ =>
    }

    method OnItem(item: LiveItem)
      requires Valid()
      modifies this, approvals
      ensures Valid() && forall d :: d in approvals ==> d in old(approvals) || fresh(d)
      ensures AllSized(old(Model()).queue) && Model() == ApplyItem(old(Model()), item)
    {
      hide ApplyEvent, Enqueue;
      if item.position <= asOfSeq { return; }
      asOfSeq := item.position;
      match item.kind
      case Recorded(event) => OnEvent(event);
      case ApprovalRequested(requestId, turn, calls) =>
        slots := slots[requestId := Names(calls)];
        QueueApproval(Pending(requestId, turn, None, calls, seq(|calls|, _ => None)));
      case _ =>
    }

    /** One request of a baseline: its dialog moves over from `previous`, or opens. */
    method SyncOne(previous: seq<Dialog>, request: Pending, ghost pool: set<Dialog>) returns (left: seq<Dialog>)
      requires forall d :: d in previous ==> d in pool
      requires Owned(previous) && Owned(approvals) && forall d :: d in approvals ==> d !in previous
      modifies this`approvals, pool
      ensures forall d :: d in pool && d !in previous ==> d.Model() == old(d.Model())
      ensures Owned(left) && Owned(approvals)
      ensures Asks(left) == Left(old(Asks(previous)), request.requestId)
      ensures Asks(approvals) == old(Asks(approvals)) + Seed(old(Asks(previous)), request)
      ensures forall d :: d in left ==> d in previous
      ensures forall d :: d in approvals ==> d !in left && (d in old(approvals) || d in previous || fresh(d))
    {
      hide Refresh, Open, Finished, Find, Without, Owned, Asks;
      var k := FindRequest(previous, request.requestId);
      left := previous;
      if k < |previous| {
        var dialog := previous[k];
        WithoutOne(previous, k);
        left := Without(previous, k);
        assert dialog.Valid() && Asks(previous)[k] == dialog.Model() by { OwnedAt(previous, k); }
        label Before:
        dialog.Resync(request);
        Untouched@Before(left);
        Untouched@Before(approvals);
        var complete := dialog.Complete();
        if !complete {
          OwnedSnoc(approvals, dialog);
          approvals := approvals + [dialog];
        } else {
          assert Asks(approvals) + [] == Asks(approvals);
        }
      } else {
        QueueApproval(request);
      }
    }

    /** The baseline is authoritative for the dialogs too. */
    method SyncApprovals(pending: seq<Pending>)
      requires Owned(approvals)
      modifies this`approvals, approvals
      ensures Owned(approvals) && Asks(approvals) == Reseed(old(Asks(approvals)), pending)
      ensures forall d :: d in approvals ==> d in old(approvals) || fresh(d)
    {
      hide Seed, Left, Owned, Reseed;
      NoneOwned();
      var previous := approvals;
      ghost var pool := set d | d in approvals;
      ghost var goal := Reseed(Asks(previous), pending);
      approvals := [];
      assert [] + goal == goal && pending[0..] == pending;
      var i := 0;
      while i < |pending|
        invariant 0 <= i <= |pending| && Owned(previous) && Owned(approvals)
        invariant forall d :: d in previous ==> d in pool
        invariant forall d :: d in approvals ==> d !in previous && (d in pool || fresh(d))
        invariant Asks(approvals) + Reseed(Asks(previous), pending[i..]) == goal
      {
        assert pending[i..][1..] == pending[i + 1..];
        ghost var done, asks := Asks(approvals), Asks(previous);
        ReseedStep(asks, pending[i..]);
        previous := SyncOne(previous, pending[i], pool);
        ConcatAssoc(done, Seed(asks, pending[i]), Reseed(Asks(previous), pending[i + 1..]));
        i := i + 1;
      }
      ReseedNone(Asks(previous));
      assert pending[i..] == [] && Asks(approvals) + [] == Asks(approvals);
    }

    /** The attach baseline: position, slots and dialogs. */
    method OnSync(sync: Sync)
      requires Valid()
      modifies this, approvals
      ensures Valid() && Model() == ApplySync(old(Model()), sync)
      ensures forall d :: d in approvals ==> d in old(approvals) || fresh(d)
    {
      hide Reseed, SlotMap;
      asOfSeq := sync.asOfSeq;
      slots := SlotMap(sync.pending);
      SyncApprovals(sync.pending);
    }

    /** Tab, while a dialog is open. */
    method MoveFocus(backwards: bool)
      requires Valid()
      modifies approvals
      ensures Valid() && AllSized(old(Model()).queue) && Model() == ApplyFocus(old(Model()), backwards)
    {
      hide Moved;
      if approvals != [] {
        approvals[0].MoveFocus(backwards);
        assert Asks(approvals) == old(Asks(approvals))[0 := Moved(old(approvals[0].Model()), backwards)];
      }
    }

    /** The call to send an answer for, addressed by request and batch position. */
    method Answer() returns (address: Option<(string, nat)>)
      requires Valid()
      modifies approvals
      ensures Valid() && AllSized(old(Model()).queue) && (Model(), address) == ApplyAnswer(old(Model()))
    {
      hide Pressed;
      if approvals == [] { return None; }
      var id := approvals[0].request.requestId;
      var index := approvals[0].Submit();
      address := if index.Some? then Some((id, index.value)) else None;
      assert Asks(approvals) == old(Asks(approvals))[0 := Pressed(old(approvals[0].Model())).0];
    }
  }
}
