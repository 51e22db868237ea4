/**
 What the keys of a dialog do: which slot a press arms, where focus goes next, and that
 an answer reaches exactly the call the user was looking at.
 */
module AnswerLaws {
  import opened Prelude
  import opened Contract
  import opened Transport
  import opened ApprovalLaws
  import opened Dialogs
  import opened Clients
  import opened Convergence

  // ------------------------------------------------------------------- the ring

  /** The slot `d` steps on from `from`, or back. */
  function Beside(from: nat, n: nat, backwards: bool, d: nat): nat
    requires from < n && 1 <= d <= n
  {
    if backwards then (if d <= from then from - d else from + n - d)
    else if from + d < n then from + d else from + d - n
  }

  /** `to` is the nearest answerable slot from `from`, in that direction, which may be
      `from` itself once round. */
  ghost predicate NextTo(a: Ask, from: nat, backwards: bool, to: nat)
    requires Sized(a) && from < |a.submitted|
  {
    exists d :: 1 <= d <= |a.submitted| && to == Beside(from, |a.submitted|, backwards, d) && Answerable(a, to)
                && NoneBefore(a, from, backwards, d)
  }

  predicate NoneBefore(a: Ask, from: nat, backwards: bool, d: nat)
    requires Sized(a) && from < |a.submitted| && d <= |a.submitted|
  {
    forall e :: 1 <= e < d ==> !Answerable(a, Beside(from, |a.submitted|, backwards, e))
  }

  lemma {:induction false} SearchIsNext(a: Ask, from: nat, backwards: bool, offset: nat)
    requires Sized(a) && from < |a.submitted| && 1 <= offset <= |a.submitted| + 1
    requires forall e :: 1 <= e < offset ==> !Answerable(a, Beside(from, |a.submitted|, backwards, e))
    ensures var r := Search(a, from, backwards, offset);
            if r.Some? then NextTo(a, from, backwards, r.value)
            else NoneBefore(a, from, backwards, |a.submitted|) && !Answerable(a, Beside(from, |a.submitted|, backwards, |a.submitted|))
    decreases |a.submitted| + 1 - offset
  {
    hide Answerable, RingSlot;
    if offset <= |a.submitted| {
      RingValue(from, |a.submitted|, backwards, offset);
      assert RingSlot(from, |a.submitted|, backwards, offset) == Beside(from, |a.submitted|, backwards, offset);
      if Answerable(a, Beside(from, |a.submitted|, backwards, offset)) {
        assert NoneBefore(a, from, backwards, offset);
      } else {
        SearchIsNext(a, from, backwards, offset + 1);
      }
    }
  }

  /** The first press arms the focused slot where it is; the next moves on to the nearest
      answerable slot that way and keeps it armed. Decisions and marks stay. */
  lemma {:induction false} TabMoves(a: Ask, backwards: bool)
    requires Focused(a)
    ensures var r := Moved(a, backwards);
            && r.request == a.request && r.submitted == a.submitted
            && (a.selected.None? ==> r.selected == None && !r.armed)
            && (a.selected.Some? && !a.armed ==> r == a.(armed := true))
            && (a.armed ==> a.selected.Some? && r.armed && r.selected.Some?
                            && NextTo(a, a.selected.value, backwards, r.selected.value))
  {
    hide Search, NextTo;
    FocusedSized(a);
    if a.selected.Some? {
      if a.armed { SearchIsNext(a, a.selected.value, backwards, 1); SearchComplete(a, a.selected.value, backwards); }
    } else {
      SearchComplete(a, 0, backwards);
      NothingFound(a, backwards);
    }
  }

  lemma {:induction false} NothingFound(a: Ask, backwards: bool)
    requires Sized(a) && forall i: nat :: !Answerable(a, i)
    ensures Search(a, 0, backwards, 1).None?
  {
    hide Search, Answerable;
  }

  /** A recorded decision stands where there was none; focus leaves that slot, unarmed, for
      the nearest answerable one, and stays as it was on any other. */
  lemma {:induction false} DecisionMoves(a: Ask, i: nat, decision: Approval)
    requires Focused(a)
    ensures var r := Decided(a, i, decision);
            && r.submitted == a.submitted
            && (i >= |a.request.decisions| || a.request.decisions[i].Some? ==> r == a)
            && (i < |a.request.decisions| && a.request.decisions[i].None? ==>
                  && r.request == a.request.(decisions := a.request.decisions[i := Some(decision)])
                  && (a.selected != Some(i) ==> r.selected == a.selected && r.armed == a.armed)
                  && (a.selected == Some(i) ==>
                        !r.armed && (r.selected.Some? ==> Sized(a.(request := r.request)) && i < |a.submitted|
                                                          && NextTo(a.(request := r.request), i, false, r.selected.value))))
  {
    hide Search, NextTo;
    if i < |a.request.decisions| && a.request.decisions[i].None? && a.selected == Some(i) {
      var b := a.(request := a.request.(decisions := a.request.decisions[i := Some(decision)]));
      assert !Answerable(b, i);
      SearchIsNext(b, i, false, 1);
    }
  }

  /** A dialog opens on the first undecided slot. */
  lemma {:induction false} OpensOnFirst(request: Pending)
    requires |request.decisions| == |request.calls|
    ensures var a := Open(request);
            && a.request == request && !a.armed && (forall i :: 0 <= i < |a.submitted| ==> !a.submitted[i])
            && (a.selected.None? <==> AllDecided(request.decisions))
            && (a.selected.Some? ==> a.selected.value < |request.decisions| && request.decisions[a.selected.value].None?
                                     && forall j :: 0 <= j < a.selected.value ==> request.decisions[j].Some?)
  {
    assert Resized(request.decisions, |request.calls|) == request.decisions;
    var a := Open(request);
    if !AllDecided(request.decisions) {
      var i :| 0 <= i < |request.decisions| && request.decisions[i].None?;
      assert Answerable(a, i);
    }
    var b := a.(selected := None);
    assert Sized(b) && a.selected == FirstAnswerable(b, 0);
    forall j | 0 <= j < |request.decisions| && request.decisions[j].None? ensures a.selected.Some? && a.selected.value <= j {
      assert Answerable(b, j);
    }
  }

  /** A re-sync takes the fresh request over, keeps what was sent, and puts focus, unarmed,
      on the first call neither decided nor sent. */
  lemma {:induction false} ResyncsOnFirst(a: Ask, request: Pending)
    requires Sized(a) && |request.decisions| == |request.calls| == |a.submitted|
    ensures var r := Refresh(a, request);
            && r.request == request && !r.armed && r.submitted == a.submitted
            && (r.selected.None? <==> forall i :: 0 <= i < |a.submitted| ==> request.decisions[i].Some? || a.submitted[i])
            && (r.selected.Some? ==>
                  && r.selected.value < |a.submitted|
                  && request.decisions[r.selected.value].None? && !a.submitted[r.selected.value]
                  && forall j :: 0 <= j < r.selected.value ==> request.decisions[j].Some? || a.submitted[j])
  {
    hide FirstAnswerable;
    RefreshMarks(a, request);
    assert Resized(request.decisions, |request.calls|) == request.decisions;
    var r := Refresh(a, request);
    var b := r.(selected := None);
    assert r.selected == FirstAnswerable(b, 0);
    forall j | 0 <= j < |a.submitted| && request.decisions[j].None? && !a.submitted[j]
      ensures r.selected.Some? && r.selected.value <= j
    {
      assert Answerable(b, j);
    }
  }

  // ------------------------------------------------------------------- the slots

  /** Under agreement the client holds a request's slots exactly while the hub has it
      pending: the name of each call of its newest batch that is still undecided. */
  lemma {:induction false} SlotsName(s: State, c: Client, id: string)
    requires Agree(s, c)
    ensures id in c.slots <==> exists k :: 0 <= k < |s.pending| && s.pending[k].requestId == id
    ensures forall k, i :: 0 <= k < |s.pending| && s.pending[k].requestId == id && 0 <= i < |s.pending[k].calls|
                           && (forall j :: k < j < |s.pending| ==> s.pending[j].requestId != id) ==>
              && id in c.slots && |c.slots[id]| == |s.pending[k].calls|
              && c.slots[id][i] == (if i < |s.pending[k].decisions| && s.pending[k].decisions[i].Some? then None
                                    else Some(s.pending[k].calls[i].name))
  {
    SlotMapMaps(s.pending);
    hide SlotMap, Newest;
    var n := Newest(s.pending, id);
    if n < |s.pending| { assert s.pending[n].requestId == id; }
  }

  // ------------------------------------------------------------------- the answer

  /** An answer is sent exactly when the front dialog is armed: for its request and the
      focused slot, undecided and not sent before, which is marked as sent; focus goes on
      to the nearest answerable slot and is not armed. No other dialog is touched. */
  lemma {:induction false} AnswerAddresses(c: Client)
    requires AllSized(c.queue) && AllFocused(c.queue)
    ensures var (d, address) := ApplyAnswer(c);
            && d.asOf == c.asOf && d.slots == c.slots && |d.queue| == |c.queue|
            && (forall k :: 1 <= k < |c.queue| ==> d.queue[k] == c.queue[k])
            && (address.Some? <==> c.queue != [] && c.queue[0].armed)
            && (c.queue != [] ==> d.queue[0].request == c.queue[0].request && !d.queue[0].armed)
            && (c.queue != [] && address.None? ==> d.queue[0] == c.queue[0])
            && (address.Some? ==>
                  var a, (id, i) := c.queue[0], address.value;
                  && id == a.request.requestId && a.selected == Some(i) && i < |a.submitted|
                  && a.request.decisions[i].None? && !a.submitted[i]
                  && d.queue[0].submitted == a.submitted[i := true]
                  && (d.queue[0].selected.Some? ==>
                        Sized(a.(submitted := a.submitted[i := true]))
                        && NextTo(a.(submitted := a.submitted[i := true]), i, false, d.queue[0].selected.value)))
  {
    hide Search, NextTo, Moved;
    if c.queue != [] {
      var a := c.queue[0];
      SubmitFocused(a);
      SubmitMarks(a);
      FocusedSized(a);
      if a.armed { FocusGoesOn(a); } else { NotSent(a); }
    }
  }

  lemma {:induction false} NotSent(a: Ask)
    requires Sized(a) && !a.armed
    ensures Pressed(a) == (a, None)
  {
  }

  lemma {:induction false} FocusGoesOn(a: Ask)
    requires Focused(a) && a.armed
    ensures a.selected.Some? && a.selected.value < |a.submitted|
    ensures var i, b := a.selected.value, a.(submitted := a.submitted[a.selected.value := true]);
            && Sized(b) && (Pressed(a).0.selected.Some? ==> NextTo(b, i, false, Pressed(a).0.selected.value))
  {
    hide Search, NextTo;
    var i := a.selected.value;
    var b := a.(armed := false, submitted := a.submitted[i := true]);
    assert !Answerable(b, i);
    SearchIsNext(b, i, false, 1);
    var s := Search(b, i, false, 1);
    if s.Some? { SameNext(b, a.(submitted := a.submitted[i := true]), i, false, s.value); }
  }

  lemma {:induction false} SameNext(a: Ask, b: Ask, from: nat, backwards: bool, to: nat)
    requires Sized(a) && Sized(b) && from < |a.submitted| && NextTo(a, from, backwards, to)
    requires a.submitted == b.submitted && a.request.decisions == b.request.decisions
    ensures NextTo(b, from, backwards, to)
  {
    SameAnswerable(a, b);
    hide Answerable;
    var d :| 1 <= d <= |a.submitted| && to == Beside(from, |a.submitted|, backwards, d) && Answerable(a, to)
             && NoneBefore(a, from, backwards, d);
    assert NoneBefore(b, from, backwards, d);
  }

  /** An answer means what the user saw: when client and hub agree and the ids pending
      differ, the answer sent, once recorded, decides exactly the focused call, and no
      other call of any request. */
  lemma {:induction false} AnswerReachesCall(s: State, c: Client, e: Event)
    requires Agree(s, c) && PendingLive(s.pending) && PendingOk(s.pending)
    requires AllSized(c.queue) && ApplyAnswer(c).1.Some?
    requires e.id !in s.seen && e.kind.Issued? && e.kind.command.ResolveApprovalCall?
    requires (e.kind.command.requestId, e.kind.command.callIndex) == ApplyAnswer(c).1.value
    ensures exists k :: 0 <= k < |s.pending| && Reached(s, c.queue[0], TrackRecorded(s, e), e.kind.command.decision, k)
  {
    hide SlotMap, Convergence.Shown, View, AllFocused, ApplyAnswer, AllDecided, TrackRecorded, Without, PendingOk, PendingLive;
    AgreeKept(s, c);
    AnswerAddresses(c);
    FrontFocused(c.queue);
    var a, i := c.queue[0], e.kind.command.callIndex;
    ViewAt(c.queue, 0);
    var k := ShownPlace(s.pending, 0);
    assert Bare(s.pending[k]) == Bare(a.request);
    DecidesThere(s, e, k, i);
    assert Reached(s, a, TrackRecorded(s, e), e.kind.command.decision, k);
  }

  lemma {:induction false} FrontFocused(queue: seq<Ask>)
    requires AllFocused(queue) && queue != []
    ensures Focused(queue[0])
  {
  }

  /** Batch `k` is what the dialog shows; its focused slot, and nothing else, got the
      decision, and the batch settled if that was the last. */
  ghost predicate Reached(s: State, a: Ask, t: State, decision: Approval, k: nat)
    requires k < |s.pending|
  {
    var p := s.pending[k];
    && Bare(p) == Bare(a.request) && a.selected.Some? && a.selected.value < |p.decisions| && p.decisions[a.selected.value].None?
    && var decided := p.decisions[a.selected.value := Some(decision)];
       if AllDecided(decided) then
         t.pending == Without(s.pending, k)
         && t.settled == Last(s.settled + [Settled(p.requestId, p.messageIndex, p.calls, DecisionValues(decided))], SETTLED_APPROVAL_WINDOW)
       else t.pending == s.pending[k := p.(decisions := decided)] && t.settled == s.settled
  }

  lemma {:induction false} DecidesThere(s: State, e: Event, k: nat, i: nat)
    requires PendingOk(s.pending) && k < |s.pending| && e.id !in s.seen
    requires e.kind.Issued? && e.kind.command.ResolveApprovalCall?
    requires e.kind.command.requestId == s.pending[k].requestId && e.kind.command.callIndex == i
    requires i < |s.pending[k].decisions| && s.pending[k].decisions[i].None?
    ensures var p, t := s.pending[k], TrackRecorded(s, e);
            var decided := p.decisions[i := Some(e.kind.command.decision)];
            if AllDecided(decided) then
              t.pending == Without(s.pending, k)
              && t.settled == Last(s.settled + [Settled(p.requestId, p.messageIndex, p.calls, DecisionValues(decided))], SETTLED_APPROVAL_WINDOW)
            else t.pending == s.pending[k := p.(decisions := decided)] && t.settled == s.settled
  {
    hide AllDecided, Without, DecisionValues;
    assert Position(s.pending, s.pending[k].requestId) == k;
  }

  /** Where the n-th shown batch stands. */
  lemma {:induction false} ShownPlace(pending: seq<Pending>, n: nat) returns (k: nat)
    requires n < |Convergence.Shown(pending)|
    ensures k < |pending| && Convergence.Shown(pending)[n] == Bare(pending[k])
    decreases |pending|
  {
    var init, last := pending[..|pending| - 1], pending[|pending| - 1];
    if n < |Convergence.Shown(init)| {
      k := ShownPlace(init, n);
    } else {
      k := |pending| - 1;
    }
  }
}
