/**
 Which decision counts: for every stream of items, a pending batch shows for each
 slot the first recorded answer after its request, and settles with exactly those.
 */
module ApprovalLaws {
  import opened Prelude
  import opened Contract
  import opened Transport
  import A = Assembler
  import T = Trajectory
  import L = TrajectoryLaws

  // -------------------------------------------------- an independent reference

  /** The events that count: the first of each id, in publication order. */
  function Log(items: seq<LiveItem>): seq<Event> {
    if items == [] then []
    else
      var log, last := Log(items[..|items| - 1]), items[|items| - 1];
      if last.kind.Recorded? && last.kind.event.id !in T.Ids(log) then log + [last.kind.event] else log
  }

  /** What one event answers for slot `i` of a request; a batch reply that is too short
      denies the rest. */
  function Answer(e: Event, requestId: string, i: nat): Option<Approval> {
    if !e.kind.Issued? then None
    else match e.kind.command
      case ResolveApproval(id, decisions) => if id == requestId then Some(if i < |decisions| then decisions[i] else Rejected(None)) else None
      case ResolveApprovalCall(id, index, decision) => if id == requestId && index == i then Some(decision) else None
      case _ => None
  }

  function FirstAnswer(events: seq<Event>, requestId: string, i: nat): Option<Approval> {
    if events == [] then None
    else
      var earlier := FirstAnswer(events[..|events| - 1], requestId, i);
      if earlier.Some? then earlier else Answer(events[|events| - 1], requestId, i)
  }

  /** A batch reply to the request, or the end of the run. */
  predicate Closes(e: Event, requestId: string) {
    e.kind.RunFinished?
    || (e.kind.Issued? && e.kind.command.ResolveApproval? && e.kind.command.requestId == requestId)
  }

  /** The request over `n` calls is no longer open after these events. */
  predicate Ended(events: seq<Event>, requestId: string, n: nat) {
    events != [] &&
    (Ended(events[..|events| - 1], requestId, n)
     || Closes(events[|events| - 1], requestId)
     || (n > 0 && AllAnswered(events, requestId, n)))
  }

  /** Every slot has an answer. */
  predicate AllAnswered(events: seq<Event>, requestId: string, n: nat) {
    forall i :: 0 <= i < n ==> FirstAnswer(events, requestId, i).Some?
  }

  function FirstAnswers(events: seq<Event>, requestId: string, n: nat): (r: seq<Option<Approval>>)
    ensures |r| == n && forall i :: 0 <= i < n ==> r[i] == FirstAnswer(events, requestId, i)
  {
    seq(n, i requires 0 <= i < n => FirstAnswer(events, requestId, i))
  }

  /** The batch asked for at position `p`, as answered by `after`. */
  function Entry(items: seq<LiveItem>, p: nat, after: seq<Event>): Pending
    requires p < |items| && items[p].kind.ApprovalRequested?
  {
    var k := items[p].kind;
    Pending(k.requestId, k.requestTurn, AnchorFor(Log(items[..p]), k.requestTurn), k.calls,
            FirstAnswers(after, k.requestId, |k.calls|))
  }

  lemma {:induction false} LogGrows(items: seq<LiveItem>, p: nat)
    requires p <= |items|
    ensures Log(items[..p]) <= Log(items)
    decreases |items|
  {
    if p < |items| {
      var init := items[..|items| - 1];
      LogGrows(init, p);
      assert init[..p] == items[..p];
    } else {
      assert items[..p] == items;
    }
  }

  /** The counting events published after position `p`. */
  function After(items: seq<LiveItem>, p: nat): seq<Event>
    requires p < |items|
  {
    LogGrows(items, p + 1);
    Log(items)[|Log(items[..p + 1])|..]
  }

  /** The requests among the first `n` items still open at the end, oldest first. */
  function OpenRequests(items: seq<LiveItem>, n: nat): seq<Pending>
    requires n <= |items|
  {
    if n == 0 then []
    else
      OpenRequests(items, n - 1) +
      (if items[n - 1].kind.ApprovalRequested? &&
          !Ended(After(items, n - 1), items[n - 1].kind.requestId, |items[n - 1].kind.calls|)
       then [Entry(items, n - 1, After(items, n - 1))] else [])
  }

  /** Every request has its own id. */
  predicate DistinctRequests(items: seq<LiveItem>) {
    forall p, q :: 0 <= p < q < |items| && items[p].kind.ApprovalRequested? && items[q].kind.ApprovalRequested? ==>
      items[p].kind.requestId != items[q].kind.requestId
  }

  /** No request is published under the id of one still open. */
  predicate Unclashed(items: seq<LiveItem>) {
    forall p :: 0 <= p < |items| && items[p].kind.ApprovalRequested? ==>
      NoneNamed(OpenRequests(items[..p], p), items[p].kind.requestId)
  }

  // ------------------------------------------------- one event on one request

  /** What an event leaves of a pending batch. */
  function Advance(p: Pending, e: Event): Option<Pending> {
    if Closes(e, p.requestId) then None
    else if e.kind.Issued? && e.kind.command.ResolveApprovalCall? && e.kind.command.requestId == p.requestId then
      var i := e.kind.command.callIndex;
      if i < |p.decisions| && p.decisions[i].None? then
        var decided := p.(decisions := p.decisions[i := Some(e.kind.command.decision)]);
        if AllDecided(decided.decisions) then None else Some(decided)
      else Some(p)
    else Some(p)
  }

  /** What the event settles, when it takes the batch away. */
  function Outcome(p: Pending, e: Event): Option<Settled>
    requires |p.decisions| == |p.calls|
  {
    if e.kind.RunFinished? then
      var answers := DecidedAnswers(p.calls, p.decisions);
      if answers == [] then None
      else Some(Settled(p.requestId, p.messageIndex, DecidedCalls(p.calls, p.decisions), answers))
    else if !e.kind.Issued? then None
    else match e.kind.command
      case ResolveApproval(id, decisions) =>
        if id == p.requestId then Some(Settled(p.requestId, p.messageIndex, p.calls, BatchDecisions(p, decisions))) else None
      case ResolveApprovalCall(id, i, decision) =>
        if id == p.requestId && i < |p.decisions| && p.decisions[i].None? && AllDecided(p.decisions[i := Some(decision)])
        then Some(Settled(p.requestId, p.messageIndex, p.calls, DecisionValues(p.decisions[i := Some(decision)])))
        else None
      case _ => None
  }

  function AdvanceAll(pending: seq<Pending>, e: Event): seq<Pending> {
    if pending == [] then []
    else
      var last := Advance(pending[|pending| - 1], e);
      AdvanceAll(pending[..|pending| - 1], e) + (if last.Some? then [last.value] else [])
  }

  function SettleAll(pending: seq<Pending>, e: Event): seq<Settled>
    requires Slotted(pending)
  {
    if pending == [] then []
    else
      var last := Outcome(pending[|pending| - 1], e);
      SettleAll(pending[..|pending| - 1], e) + (if last.Some? then [last.value] else [])
  }

  /** Pending batches are well formed: one slot per call, distinct ids. */
  predicate PendingOk(pending: seq<Pending>) {
    && Slotted(pending)
    && (forall j, k :: 0 <= j < k < |pending| ==> pending[j].requestId != pending[k].requestId)
  }

  predicate NoneNamed(pending: seq<Pending>, requestId: string) {
    forall k :: 0 <= k < |pending| ==> pending[k].requestId != requestId
  }

  /** The event ends nothing and answers no request of this id. */
  predicate Passes(e: Event, requestId: string) {
    && !e.kind.RunFinished?
    && (e.kind.Issued? && e.kind.command.ResolveApproval? ==> e.kind.command.requestId != requestId)
    && (e.kind.Issued? && e.kind.command.ResolveApprovalCall? ==> e.kind.command.requestId != requestId)
  }

  lemma {:induction false} Untouched(p: Pending, e: Event)
    requires |p.decisions| == |p.calls| && Passes(e, p.requestId)
    ensures Advance(p, e) == Some(p) && Outcome(p, e) == None
  {
  }

  lemma {:induction false} AdvanceOthers(pending: seq<Pending>, e: Event)
    requires Slotted(pending)
    requires forall k :: 0 <= k < |pending| ==> Passes(e, pending[k].requestId)
    ensures AdvanceAll(pending, e) == pending && SettleAll(pending, e) == []
    decreases |pending|
  {
    hide Advance, Outcome, Passes;
    if pending != [] {
      AdvanceOthers(pending[..|pending| - 1], e);
      Untouched(pending[|pending| - 1], e);
    }
  }

  lemma {:induction false} AdvanceLast(init: seq<Pending>, last: Pending, e: Event)
    requires Slotted(init) && |last.decisions| == |last.calls|
    ensures Slotted(init + [last])
    ensures AdvanceAll(init + [last], e) == AdvanceAll(init, e) + (if Advance(last, e).Some? then [Advance(last, e).value] else [])
    ensures SettleAll(init + [last], e) == SettleAll(init, e) + (if Outcome(last, e).Some? then [Outcome(last, e).value] else [])
  {
    hide Advance, Outcome;
    assert (init + [last])[..|init|] == init;
  }

  lemma {:induction false} AdvanceNone(a: seq<Pending>, e: Event)
    requires Slotted(a)
    ensures AdvanceAll(a, e) == AdvanceAll(a, e) + AdvanceAll([], e) && SettleAll(a, e) == SettleAll(a, e) + SettleAll([], e)
  {
    hide Advance, Outcome;
    assert AdvanceAll([], e) == [] && SettleAll([], e) == [];
  }

  lemma {:induction false} AdvanceConcat(a: seq<Pending>, b: seq<Pending>, e: Event)
    requires Slotted(a) && Slotted(b)
    ensures AdvanceAll(a + b, e) == AdvanceAll(a, e) + AdvanceAll(b, e)
    ensures SettleAll(a + b, e) == SettleAll(a, e) + SettleAll(b, e)
    decreases |b|
  {
    hide Advance, Outcome, AdvanceAll, SettleAll;
    if b == [] {
      assert a + b == a;
      AdvanceNone(a, e);
    } else {
      var init, last := b[..|b| - 1], b[|b| - 1];
      AdvanceConcat(a, init, e);
      assert a + b == (a + init) + [last] && b == init + [last];
      AdvanceLast(a + init, last, e);
      AdvanceLast(init, last, e);
      ConcatAssoc(AdvanceAll(a, e), AdvanceAll(init, e), if Advance(last, e).Some? then [Advance(last, e).value] else []);
      ConcatAssoc(SettleAll(a, e), SettleAll(init, e), if Outcome(last, e).Some? then [Outcome(last, e).value] else []);
    }
  }

  lemma {:induction false} AdvanceSingle(p: Pending, e: Event)
    requires |p.decisions| == |p.calls|
    ensures AdvanceAll([p], e) == (if Advance(p, e).Some? then [Advance(p, e).value] else [])
    ensures SettleAll([p], e) == (if Outcome(p, e).Some? then [Outcome(p, e).value] else [])
  {
    assert [p][..0] == [];
  }

  lemma {:induction false} SplitAt(pending: seq<Pending>, k: nat)
    requires k < |pending|
    ensures pending == pending[..k] + ([pending[k]] + pending[k + 1..])
    ensures pending[..k] + ([] + pending[k + 1..]) == Without(pending, k)
    ensures forall p :: pending[..k] + ([p] + pending[k + 1..]) == pending[k := p]
  {
  }

  lemma {:induction false} OthersDistinct(pending: seq<Pending>, k: nat)
    requires PendingOk(pending) && k < |pending|
    ensures Slotted(pending[..k]) && Slotted([pending[k]]) && Slotted(pending[k + 1..])
    ensures Slotted([pending[k]] + pending[k + 1..])
    ensures NoneNamed(pending[..k], pending[k].requestId) && NoneNamed(pending[k + 1..], pending[k].requestId)
    ensures |pending[k].decisions| == |pending[k].calls|
  {
    var c := pending[k + 1..];
    assert forall j :: 0 <= j < |c| ==> c[j] == pending[j + k + 1];
  }

  /** Acting on the first match is acting on the whole list, ids being distinct. */
  lemma {:induction false} AdvanceAddressed(pending: seq<Pending>, e: Event, requestId: string)
    requires PendingOk(pending) && !e.kind.RunFinished? && e.kind.Issued?
    requires e.kind.command.ResolveApproval? || e.kind.command.ResolveApprovalCall?
    requires requestId == e.kind.command.requestId
    ensures var k := Position(pending, requestId);
            if k == |pending| then AdvanceAll(pending, e) == pending && SettleAll(pending, e) == []
            else
              var a, o := Advance(pending[k], e), Outcome(pending[k], e);
              && AdvanceAll(pending, e) == (if a.Some? then pending[k := a.value] else Without(pending, k))
              && SettleAll(pending, e) == (if o.Some? then [o.value] else [])
  {
    hide Advance, Outcome, AdvanceAll, SettleAll;
    var k := Position(pending, requestId);
    if k == |pending| {
      AdvanceOthers(pending, e);
    } else {
      hide PendingOk, Slotted, Position;
      var a, b, c := pending[..k], [pending[k]], pending[k + 1..];
      SplitAt(pending, k);
      OthersDistinct(pending, k);
      AdvanceOthers(a, e);
      AdvanceOthers(c, e);
      AdvanceSingle(pending[k], e);
      AdvanceConcat(b, c, e);
      AdvanceConcat(a, b + c, e);
    }
  }

  /** Retiring the first batch, then the rest. */
  lemma {:induction false} RetireFirst(settled: seq<Settled>, p: Pending, rest: seq<Pending>, e: Event)
    requires e.kind.RunFinished? && |p.decisions| == |p.calls|
    ensures Advance(p, e).None?
    ensures RetireAll(settled, [p] + rest)
         == RetireAll(if Outcome(p, e).Some? then Remember(settled, Outcome(p, e).value) else settled, rest)
  {
    hide DecidedAnswers, DecidedCalls, Remember;
    assert ([p] + rest)[1..] == rest;
  }

  lemma {:induction false} NothingRetired(settled: seq<Settled>, e: Event)
    ensures AdvanceAll([], e) == [] && SettleAll([], e) == [] && RetireAll(settled, []) == settled
    ensures |settled| <= SETTLED_APPROVAL_WINDOW ==> Last(settled + [], SETTLED_APPROVAL_WINDOW) == settled
  {
    assert settled + [] == settled;
  }

  lemma {:induction false} RetireSettles(settled: seq<Settled>, pending: seq<Pending>, e: Event)
    requires e.kind.RunFinished? && Slotted(pending)
    ensures AdvanceAll(pending, e) == []
    ensures |settled| <= SETTLED_APPROVAL_WINDOW ==>
              RetireAll(settled, pending) == Last(settled + SettleAll(pending, e), SETTLED_APPROVAL_WINDOW)
    decreases |pending|
  {
    hide AdvanceAll, SettleAll, RetireAll, Outcome, Advance, Last, Remember;
    if pending == [] {
      NothingRetired(settled, e);
    } else {
      var p, rest := pending[0], pending[1..];
      assert pending == [p] + rest && Slotted([p]) && Slotted(rest) && |p.decisions| == |p.calls|;
      hide Slotted;
      AdvanceConcat([p], rest, e);
      AdvanceSingle(p, e);
      RetireFirst(settled, p, rest, e);
      var o := SettleAll([p], e);
      var next := if Outcome(p, e).Some? then Remember(settled, Outcome(p, e).value) else settled;
      RetireSettles(next, rest, e);
      if |settled| <= SETTLED_APPROVAL_WINDOW {
        NextSettled(settled, o, next, SettleAll(rest, e));
      }
    }
  }

  lemma {:induction false} NextSettled(settled: seq<Settled>, o: seq<Settled>, next: seq<Settled>, rest: seq<Settled>)
    requires |settled| <= SETTLED_APPROVAL_WINDOW && |o| <= 1
    requires next == if o == [] then settled else Remember(settled, o[0])
    ensures |next| <= SETTLED_APPROVAL_WINDOW
    ensures Last(next + rest, SETTLED_APPROVAL_WINDOW) == Last(settled + (o + rest), SETTLED_APPROVAL_WINDOW)
  {
    ConcatAssoc(settled, o, rest);
    assert o == [] || o == [o[0]];
    assert settled + [] == settled;
    LastFeeds(settled + o, rest);
  }

  lemma {:induction false} LastFeeds(a: seq<Settled>, b: seq<Settled>)
    ensures Last(Last(a, SETTLED_APPROVAL_WINDOW) + b, SETTLED_APPROVAL_WINDOW) == Last(a + b, SETTLED_APPROVAL_WINDOW)
  {
  }

  /** The broadcaster's transition is the per-request one, request by request. */
  lemma {:induction false} TransitionAdvances(s: State, e: Event)
    requires PendingOk(s.pending) && |s.settled| <= SETTLED_APPROVAL_WINDOW
    ensures Transition(s, e).pending == AdvanceAll(s.pending, e)
    ensures Transition(s, e).settled == Last(s.settled + SettleAll(s.pending, e), SETTLED_APPROVAL_WINDOW)
  {
    hide AdvanceAll, SettleAll, RetireAll, Position;
    assert s.settled + [] == s.settled;
    if e.kind.RunFinished? {
      RetireSettles(s.settled, s.pending, e);
    } else if e.kind.Issued? && (e.kind.command.ResolveApproval? || e.kind.command.ResolveApprovalCall?) {
      AdvanceAddressed(s.pending, e, e.kind.command.requestId);
    } else {
      AdvanceOthers(s.pending, e);
    }
  }

  // ----------------------------------------- the reference, one item further

  lemma {:induction false} LogSnoc(items: seq<LiveItem>, x: LiveItem)
    ensures Log(items + [x])
         == if x.kind.Recorded? && x.kind.event.id !in T.Ids(Log(items)) then Log(items) + [x.kind.event] else Log(items)
  {
    assert (items + [x])[..|items|] == items;
  }

  /** The event an item adds to the log, if any. */
  predicate Effective(items: seq<LiveItem>, x: LiveItem) {
    x.kind.Recorded? && x.kind.event.id !in T.Ids(Log(items))
  }

  lemma {:induction false} AfterSnoc(items: seq<LiveItem>, x: LiveItem, p: nat)
    requires p < |items|
    ensures After(items + [x], p) == if Effective(items, x) then After(items, p) + [x.kind.event] else After(items, p)
  {
    hide Log;
    LogSnoc(items, x);
    LogGrows(items, p + 1);
    assert (items + [x])[..p + 1] == items[..p + 1];
  }

  lemma {:induction false} FirstAnswerSnoc(events: seq<Event>, e: Event, requestId: string, i: nat)
    ensures FirstAnswer(events + [e], requestId, i)
         == var earlier := FirstAnswer(events, requestId, i);
            if earlier.Some? then earlier else Answer(e, requestId, i)
  {
    assert (events + [e])[..|events|] == events;
  }

  lemma {:induction false} EndedSnoc(events: seq<Event>, e: Event, requestId: string, n: nat)
    ensures Ended(events + [e], requestId, n)
        <==> Ended(events, requestId, n) || Closes(e, requestId)
             || (n > 0 && AllAnswered(events + [e], requestId, n))
  {
    assert (events + [e])[..|events|] == events;
  }

  lemma {:induction false} OpenUndecided(events: seq<Event>, requestId: string, n: nat)
    requires !Ended(events, requestId, n) && n > 0
    ensures !AllAnswered(events, requestId, n)
  {
    if events == [] { assert FirstAnswer(events, requestId, 0).None?; }
  }

  /** One counting event on one open request: the server's per-request transition
      is exactly what the first answers say. */
  lemma {:induction false} EntryAdvances(entry: Pending, after: seq<Event>, e: Event)
    requires entry.decisions == FirstAnswers(after, entry.requestId, |entry.calls|)
    requires !Ended(after, entry.requestId, |entry.calls|)
    ensures Ended(after + [e], entry.requestId, |entry.calls|) <==> Advance(entry, e).None?
    ensures Advance(entry, e).Some? ==>
              Advance(entry, e).value == entry.(decisions := FirstAnswers(after + [e], entry.requestId, |entry.calls|))
  {
    hide FirstAnswer, Ended;
    var n := |entry.calls|;
    var now := FirstAnswers(after + [e], entry.requestId, n);
    EndedSnoc(after, e, entry.requestId, n);
    forall i | 0 <= i < n ensures now[i] == if entry.decisions[i].Some? then entry.decisions[i] else Answer(e, entry.requestId, i) {
      FirstAnswerSnoc(after, e, entry.requestId, i);
    }
    if !Closes(e, entry.requestId) {
      if e.kind.Issued? && e.kind.command.ResolveApprovalCall? && e.kind.command.requestId == entry.requestId
         && e.kind.command.callIndex < n && entry.decisions[e.kind.command.callIndex].None? {
        assert now == entry.decisions[e.kind.command.callIndex := Some(e.kind.command.decision)];
      } else {
        assert now == entry.decisions;
        if n > 0 {
          OpenUndecided(after, entry.requestId, n);
          var i :| 0 <= i < n && FirstAnswer(after, entry.requestId, i).None?;
          assert entry.decisions[i].None? && now[i].None?;
        }
      }
    }
  }

  /** Whether the request at position `p` is open after `items`. */
  predicate OpenAt(items: seq<LiveItem>, p: nat)
    requires p < |items|
  {
    items[p].kind.ApprovalRequested? &&
    !Ended(After(items, p), items[p].kind.requestId, |items[p].kind.calls|)
  }

  lemma {:induction false} EntrySnoc(items: seq<LiveItem>, x: LiveItem, p: nat)
    requires p < |items| && items[p].kind.ApprovalRequested?
    ensures Entry(items + [x], p, After(items + [x], p)) == Entry(items, p, After(items, p)).(decisions :=
              FirstAnswers(After(items + [x], p), items[p].kind.requestId, |items[p].kind.calls|))
    ensures !Effective(items, x) ==>
              OpenAt(items + [x], p) == OpenAt(items, p) &&
              Entry(items + [x], p, After(items + [x], p)) == Entry(items, p, After(items, p))
    ensures Effective(items, x) && OpenAt(items, p) ==>
              (OpenAt(items + [x], p) <==> Advance(Entry(items, p, After(items, p)), x.kind.event).Some?)
    ensures Effective(items, x) && OpenAt(items + [x], p) ==>
              OpenAt(items, p) &&
              Advance(Entry(items, p, After(items, p)), x.kind.event) == Some(Entry(items + [x], p, After(items + [x], p)))
  {
    hide FirstAnswer, Log, Ended, Advance;
    AfterSnoc(items, x, p);
    assert (items + [x])[..p] == items[..p];
    if Effective(items, x) {
      EndedSnoc(After(items, p), x.kind.event, items[p].kind.requestId, |items[p].kind.calls|);
      if OpenAt(items, p) {
        EntryAdvances(Entry(items, p, After(items, p)), After(items, p), x.kind.event);
      }
    }
  }

  /** The open requests, one item further. */
  lemma {:induction false} OpenSnoc(items: seq<LiveItem>, x: LiveItem, n: nat)
    requires n <= |items|
    ensures OpenRequests(items + [x], n)
         == if Effective(items, x) then AdvanceAll(OpenRequests(items, n), x.kind.event) else OpenRequests(items, n)
    decreases n
  {
    hide After, Log, Ended, Advance, Entry, AdvanceAll, OpenRequests, T.Ids;
    if n == 0 {
      NoneOpen(items, x);
    } else {
      OpenSnoc(items, x, n - 1);
      assert (items + [x])[n - 1] == items[n - 1];
      if items[n - 1].kind.ApprovalRequested? {
        EntrySnoc(items, x, n - 1);
        OpenLast(items, n);
        OpenLast(items + [x], n);
        assert OpenRequests(items, n - 1) + [] == OpenRequests(items, n - 1);
        assert OpenRequests(items + [x], n - 1) + [] == OpenRequests(items + [x], n - 1);
        if Effective(items, x) && OpenAt(items, n - 1) {
          AdvanceSnoc(OpenRequests(items, n - 1), Entry(items, n - 1, After(items, n - 1)), x.kind.event);
        }
      } else {
        OpenNone(items, n);
        OpenNone(items + [x], n);
      }
    }
  }

  lemma {:induction false} NoneOpen(items: seq<LiveItem>, x: LiveItem)
    ensures OpenRequests(items, 0) == OpenRequests(items + [x], 0) == []
    ensures x.kind.Recorded? ==> AdvanceAll([], x.kind.event) == []
  {
  }

  lemma {:induction false} OpenLast(items: seq<LiveItem>, n: nat)
    requires 0 < n <= |items| && items[n - 1].kind.ApprovalRequested?
    ensures OpenRequests(items, n) == OpenRequests(items, n - 1) +
              (if OpenAt(items, n - 1) then [Entry(items, n - 1, After(items, n - 1))] else [])
  {
  }

  lemma {:induction false} AdvanceSnoc(pending: seq<Pending>, p: Pending, e: Event)
    ensures AdvanceAll(pending + [p], e)
         == AdvanceAll(pending, e) + (if Advance(p, e).Some? then [Advance(p, e).value] else [])
  {
    assert (pending + [p])[..|pending|] == pending;
  }

  // ------------------------------------------------------------ whole streams

  /** The broadcaster after a whole stream, before any close. */
  function Hub(parse: A.Parser, items: seq<LiveItem>): State {
    TrackAll(parse, INITIAL, items)
  }

  lemma {:induction false} HubSnoc(parse: A.Parser, items: seq<LiveItem>, x: LiveItem)
    ensures Hub(parse, items + [x]) == Track(parse, Hub(parse, items), x)
  {
    assert (items + [x])[..|items|] == items;
  }

  lemma {:induction false} HubLog(parse: A.Parser, items: seq<LiveItem>)
    ensures Hub(parse, items).events == Log(items) && Hub(parse, items).seen == T.Ids(Log(items))
    decreases |items|
  {
    hide T.Ids, Complete, ResolveBatch, ResolveCall, Retire, NewPending;
    if items == [] {
      T.EmptyLog();
    } else {
      var init, x := items[..|items| - 1], items[|items| - 1];
      HubLog(parse, init);
      HubSnoc(parse, init, x);
      assert items == init + [x];
      if x.kind.Recorded? {
        T.IdsSnoc(Log(init), x.kind.event);
        TransitionKeepsLog(Positioned(Hub(parse, init), x), x.kind.event);
      }
    }
  }

  lemma {:induction false} TransitionKeepsLog(s: State, e: Event)
    ensures Transition(s, e).events == s.events && Transition(s, e).seen == s.seen
    ensures Transition(s, e).lastSeq == s.lastSeq && Transition(s, e).closed == s.closed
  {
  }

  lemma {:induction false} TrackPosition(parse: A.Parser, s: State, item: LiveItem)
    ensures Track(parse, s, item).lastSeq == if item.position > s.lastSeq then item.position else s.lastSeq
    ensures Track(parse, s, item).closed == s.closed
  {
    hide A.Push, Complete, NewPending, Transition;
    if item.kind.Recorded? { TransitionKeepsLog(Positioned(s, item), item.kind.event); }
  }

  /** Position `p` holds the open request shown as `entry`. */
  predicate Shows(items: seq<LiveItem>, p: nat, entry: Pending) {
    p < |items| && OpenAt(items, p) && entry == Entry(items, p, After(items, p))
  }

  ghost predicate Shown(items: seq<LiveItem>, n: nat, entry: Pending) {
    exists p :: 0 <= p < n && Shows(items, p, entry)
  }

  lemma {:induction false} OpenFromRequests(items: seq<LiveItem>, n: nat)
    requires n <= |items|
    ensures Slotted(OpenRequests(items, n))
    ensures forall k :: 0 <= k < |OpenRequests(items, n)| ==> Shown(items, n, OpenRequests(items, n)[k])
    decreases n
  {
    hide After, Ended;
    if n > 0 {
      OpenFromRequests(items, n - 1);
      var open, before := OpenRequests(items, n), OpenRequests(items, n - 1);
      forall k | 0 <= k < |open| ensures Shown(items, n, open[k]) {
        if k < |before| {
          assert open[k] == before[k] && Shown(items, n - 1, before[k]);
        } else {
          assert Shows(items, n - 1, open[k]);
        }
      }
    }
  }

  /** A stream one item further: the new request itself starts with no answers. */
  lemma {:induction false} OpenRequestsStep(items: seq<LiveItem>, x: LiveItem)
    ensures OpenRequests(items + [x], |items| + 1)
         == (if Effective(items, x) then AdvanceAll(OpenRequests(items, |items|), x.kind.event) else OpenRequests(items, |items|))
            + (if x.kind.ApprovalRequested? then [NewPending(Log(items), x.kind.requestId, x.kind.requestTurn, x.kind.calls)] else [])
  {
    hide AdvanceAll, Log, AnchorFor, After, Effective, NewPending, Entry, OpenRequests, OpenAt;
    OpenSnoc(items, x, |items|);
    var all := items + [x];
    var before := OpenRequests(all, |items|);
    assert before + [] == before && all[|items|] == x;
    if x.kind.ApprovalRequested? {
      NewlyOpen(items, x);
      OpenLast(all, |items| + 1);
    } else {
      OpenNone(all, |items| + 1);
    }
  }

  lemma {:induction false} OpenNone(items: seq<LiveItem>, n: nat)
    requires 0 < n <= |items| && !items[n - 1].kind.ApprovalRequested?
    ensures OpenRequests(items, n) == OpenRequests(items, n - 1)
  {
    assert OpenRequests(items, n - 1) + [] == OpenRequests(items, n - 1);
  }

  lemma {:induction false} NewlyOpen(items: seq<LiveItem>, x: LiveItem)
    requires x.kind.ApprovalRequested?
    ensures var all := items + [x];
            && OpenAt(all, |items|)
            && Entry(all, |items|, After(all, |items|))
                 == NewPending(Log(items), x.kind.requestId, x.kind.requestTurn, x.kind.calls)
  {
    hide Log, AnchorFor;
    var all := items + [x];
    assert all[..|items|] == items && all[..|items| + 1] == all;
    assert After(all, |items|) == [];
    assert Entry(all, |items|, []).decisions == NewPending(Log(items), x.kind.requestId, x.kind.requestTurn, x.kind.calls).decisions;
  }

  lemma {:induction false} AdvanceOk(pending: seq<Pending>, e: Event)
    requires PendingOk(pending)
    ensures PendingOk(AdvanceAll(pending, e))
    ensures forall id :: NoneNamed(pending, id) ==> NoneNamed(AdvanceAll(pending, e), id)
    decreases |pending|
  {
    hide Advance;
    if pending != [] {
      var init, last := pending[..|pending| - 1], pending[|pending| - 1];
      AdvanceOk(init, e);
      AdvanceNames(last, e);
      assert NoneNamed(init, last.requestId);
      forall id | NoneNamed(pending, id) ensures NoneNamed(AdvanceAll(pending, e), id) {
        assert NoneNamed(init, id) && pending[|pending| - 1].requestId != id;
      }
    }
  }

  lemma {:induction false} AdvanceNames(p: Pending, e: Event)
    requires |p.decisions| == |p.calls|
    ensures Advance(p, e).Some? ==>
              var q := Advance(p, e).value; q.requestId == p.requestId && |q.decisions| == |q.calls|
  {
  }

  lemma {:induction false} OpenDistinct(items: seq<LiveItem>)
    requires Unclashed(items)
    ensures PendingOk(OpenRequests(items, |items|))
    decreases |items|
  {
    hide OpenRequests, AdvanceAll, Log, AnchorFor;
    if items == [] {
      NothingOpen();
    } else {
      var n := |items| - 1;
      var init, x := items[..n], items[n];
      assert items == init + [x];
      UnclashedPrefix(items, n);
      OpenDistinct(init);
      OpenRequestsStep(init, x);
      var open := OpenRequests(init, n);
      if Effective(init, x) { AdvanceOk(open, x.kind.event); }
    }
  }

  lemma {:induction false} UnclashedPrefix(items: seq<LiveItem>, n: nat)
    requires Unclashed(items) && n <= |items|
    ensures Unclashed(items[..n])
  {
    hide OpenRequests, NoneNamed;
    var init := items[..n];
    forall p | 0 <= p < n && init[p].kind.ApprovalRequested?
      ensures NoneNamed(OpenRequests(init[..p], p), init[p].kind.requestId)
    {
      assert init[..p] == items[..p] && init[p] == items[p];
    }
  }

  /** Requests with ids of their own never clash. */
  lemma {:induction false} DistinctUnclashed(items: seq<LiveItem>)
    requires DistinctRequests(items)
    ensures Unclashed(items)
  {
    hide OpenRequests;
    forall p | 0 <= p < |items| && items[p].kind.ApprovalRequested?
      ensures NoneNamed(OpenRequests(items[..p], p), items[p].kind.requestId)
    {
      var init, open := items[..p], OpenRequests(items[..p], p);
      OpenFromRequests(init, p);
      forall k | 0 <= k < |open| ensures open[k].requestId != items[p].kind.requestId {
        assert Shown(init, p, open[k]);
        var q :| 0 <= q < p && Shows(init, q, open[k]);
        assert init[q] == items[q];
      }
    }
  }

  /** First decision wins, while a batch is open: after every stream the pending
      list is exactly the open requests in order, each slot showing the first
      recorded answer after its request. */
  lemma {:induction false} PendingShowsFirstAnswers(parse: A.Parser, items: seq<LiveItem>)
    requires Unclashed(items)
    ensures Hub(parse, items).pending == OpenRequests(items, |items|)
    ensures PendingOk(Hub(parse, items).pending) && |Hub(parse, items).settled| <= SETTLED_APPROVAL_WINDOW
    decreases |items|
  {
    hide OpenRequests, Log, Transition, NewPending, PendingOk, Complete, AdvanceAll, T.Ids;
    if items != [] {
      var init, x := items[..|items| - 1], items[|items| - 1];
      assert items == init + [x];
      UnclashedPrefix(items, |init|);
      PendingShowsFirstAnswers(parse, init);
      var s := Hub(parse, init);
      HubSnoc(parse, init, x);
      HubLog(parse, init);
      OpenRequestsStep(init, x);
      OpenDistinct(items);
      assert OpenRequests(init, |init|) + [] == OpenRequests(init, |init|);
      if Effective(init, x) {
        TransitionAdvances(Positioned(s, x), x.kind.event);
        assert AdvanceAll(s.pending, x.kind.event) + [] == AdvanceAll(s.pending, x.kind.event);
      }
    } else {
      NothingOpen();
    }
  }

  lemma {:induction false} NothingOpen()
    ensures OpenRequests([], 0) == [] && PendingOk([])
  {
  }

  // -------------------------------------------------------------- settlements

  /** Every settlement of a stream, oldest first, without any window. */
  function Settlements(items: seq<LiveItem>): seq<Settled>
  {
    if items == [] then []
    else
      var init, x := items[..|items| - 1], items[|items| - 1];
      OpenFromRequests(init, |init|);
      Settlements(init) + (if Effective(init, x) then SettleAll(OpenRequests(init, |init|), x.kind.event) else [])
  }

  /** The settled list is the newest part of the run's settlements. */
  lemma {:induction false} SettledIsWindow(parse: A.Parser, items: seq<LiveItem>)
    requires Unclashed(items)
    ensures Hub(parse, items).settled == Last(Settlements(items), SETTLED_APPROVAL_WINDOW)
    decreases |items|
  {
    hide OpenRequests, Log, Transition, NewPending, PendingOk, SettleAll, Complete, T.Ids;
    if items != [] {
      var init, x := items[..|items| - 1], items[|items| - 1];
      assert items == init + [x];
      UnclashedPrefix(items, |init|);
      SettledIsWindow(parse, init);
      PendingShowsFirstAnswers(parse, init);
      var s := Hub(parse, init);
      HubSnoc(parse, init, x);
      HubLog(parse, init);
      assert Settlements(init) + [] == Settlements(init);
      OpenFromRequests(init, |init|);
      if Effective(init, x) {
        TransitionAdvances(Positioned(s, x), x.kind.event);
        LastFeeds(Settlements(init), SettleAll(s.pending, x.kind.event));
      }
    }
  }

  /** First decision wins, when a batch settles: a recorded reply that closes an
      open, non-empty request settles it with the first answer of every slot. */
  lemma {:induction false} SettlesWithFirstAnswers(items: seq<LiveItem>, x: LiveItem, p: nat)
    requires p < |items| && OpenAt(items, p) && Effective(items, x) && !x.kind.event.kind.RunFinished?
    requires items[p].kind.calls != [] && !OpenAt(items + [x], p)
    ensures var k := items[p].kind;
            var o := Outcome(Entry(items, p, After(items, p)), x.kind.event);
            && o.Some?
            && o.value.requestId == k.requestId && o.value.calls == k.calls && |o.value.decisions| == |k.calls|
            && forall i :: 0 <= i < |k.calls| ==>
                 Some(o.value.decisions[i]) == FirstAnswer(After(items + [x], p), k.requestId, i)
  {
    hide Log, Ended, FirstAnswer;
    EntrySnoc(items, x, p);
    AfterSnoc(items, x, p);
    var k := items[p].kind;
    var after := After(items, p);
    forall i | 0 <= i < |k.calls|
      ensures FirstAnswer(After(items + [x], p), k.requestId, i)
           == if FirstAnswer(after, k.requestId, i).Some? then FirstAnswer(after, k.requestId, i) else Answer(x.kind.event, k.requestId, i)
    {
      FirstAnswerSnoc(after, x.kind.event, k.requestId, i);
    }
  }

  /** The decided slots, in original order. */
  function DecidedSlots(decisions: seq<Option<Approval>>, n: nat): (r: seq<nat>)
    requires n <= |decisions|
    ensures forall k :: 0 <= k < |r| ==> r[k] < n && decisions[r[k]].Some?
  {
    if n == 0 then [] else DecidedSlots(decisions, n - 1) + (if decisions[n - 1].Some? then [n - 1] else [])
  }

  /** Those slots and no others, each once, in increasing order. */
  lemma {:induction false} SlotsExact(decisions: seq<Option<Approval>>, n: nat)
    requires n <= |decisions|
    ensures forall i :: 0 <= i < n && decisions[i].Some? ==> i in DecidedSlots(decisions, n)
    ensures forall j, k :: 0 <= j < k < |DecidedSlots(decisions, n)| ==> DecidedSlots(decisions, n)[j] < DecidedSlots(decisions, n)[k]
    decreases n
  {
    if n > 0 { SlotsExact(decisions, n - 1); }
  }

  lemma {:induction false} DecidedSnoc(calls: seq<ToolCall>, decisions: seq<Option<Approval>>)
    requires |calls| == |decisions| > 0
    ensures var n := |calls| - 1;
            && DecidedCalls(calls, decisions)
                 == DecidedCalls(calls[..n], decisions[..n]) + (if decisions[n].Some? then [calls[n]] else [])
            && DecidedAnswers(calls, decisions)
                 == DecidedAnswers(calls[..n], decisions[..n]) + (if decisions[n].Some? then [decisions[n].value] else [])
    decreases |calls|
  {
    hide DecidedCalls, DecidedAnswers;
    var n := |calls| - 1;
    DecidedCons(calls, decisions);
    if n > 0 {
      DecidedSnoc(calls[1..], decisions[1..]);
      assert calls[..n][1..] == calls[1..][..n - 1] && decisions[..n][1..] == decisions[1..][..n - 1];
      DecidedCons(calls[..n], decisions[..n]);
      ConcatAssoc(if decisions[0].Some? then [calls[0]] else [], DecidedCalls(calls[1..][..n - 1], decisions[1..][..n - 1]),
                  if decisions[n].Some? then [calls[n]] else []);
      ConcatAssoc(if decisions[0].Some? then [decisions[0].value] else [],
                  DecidedAnswers(calls[1..][..n - 1], decisions[1..][..n - 1]),
                  if decisions[n].Some? then [decisions[n].value] else []);
    } else {
      assert calls[1..] == [] && decisions[1..] == [] && calls[..0] == [] && decisions[..0] == [];
      NoneDecided();
    }
  }

  lemma {:induction false} DecidedCons(calls: seq<ToolCall>, decisions: seq<Option<Approval>>)
    requires |calls| == |decisions| > 0
    ensures DecidedCalls(calls, decisions)
         == (if decisions[0].Some? then [calls[0]] else []) + DecidedCalls(calls[1..], decisions[1..])
    ensures DecidedAnswers(calls, decisions)
         == (if decisions[0].Some? then [decisions[0].value] else []) + DecidedAnswers(calls[1..], decisions[1..])
  {
  }

  lemma {:induction false} NoneDecided()
    ensures DecidedCalls([], []) == [] && DecidedAnswers([], []) == []
  {
  }

  lemma {:induction false} SlotsPrefix(decisions: seq<Option<Approval>>, m: nat, n: nat)
    requires n <= m <= |decisions|
    ensures DecidedSlots(decisions[..m], n) == DecidedSlots(decisions, n)
    decreases n
  {
    if n > 0 { SlotsPrefix(decisions, m, n - 1); }
  }

  lemma {:induction false} DecidedAt(calls: seq<ToolCall>, decisions: seq<Option<Approval>>)
    requires |calls| == |decisions|
    ensures var slots := DecidedSlots(decisions, |decisions|);
            && |DecidedCalls(calls, decisions)| == |DecidedAnswers(calls, decisions)| == |slots|
            && forall k :: 0 <= k < |slots| ==>
                 DecidedCalls(calls, decisions)[k] == calls[slots[k]] && Some(DecidedAnswers(calls, decisions)[k]) == decisions[slots[k]]
    decreases |calls|
  {
    if calls != [] {
      var n := |calls| - 1;
      DecidedAt(calls[..n], decisions[..n]);
      DecidedSnoc(calls, decisions);
      SlotsPrefix(decisions, n, n);
    }
  }

  /** The run's end keeps exactly the decided subset of an open request, in original
      order, each with its first answer, and invents nothing for the rest; with no
      answer at all it leaves no settlement. */
  lemma {:induction false} RunEndKeepsDecided(items: seq<LiveItem>, e: Event, p: nat)
    requires p < |items| && items[p].kind.ApprovalRequested? && e.kind.RunFinished?
    ensures var entry := Entry(items, p, After(items, p));
            var slots := DecidedSlots(entry.decisions, |entry.decisions|);
            var o := Outcome(entry, e);
            && Advance(entry, e).None?
            && (forall i :: 0 <= i < |entry.calls| ==>
                  (i in slots <==> FirstAnswer(After(items, p), entry.requestId, i).Some?))
            && (o.None? <==> slots == [])
            && (o.Some? ==>
                  && o.value.requestId == entry.requestId
                  && |o.value.calls| == |o.value.decisions| == |slots|
                  && forall k :: 0 <= k < |slots| ==>
                       o.value.calls[k] == entry.calls[slots[k]]
                       && Some(o.value.decisions[k]) == FirstAnswer(After(items, p), entry.requestId, slots[k]))
  {
    hide FirstAnswer, After, DecidedCalls, DecidedAnswers, DecidedSlots;
    var entry := Entry(items, p, After(items, p));
    SlotsExact(entry.decisions, |entry.decisions|);
    DecidedAt(entry.calls, entry.decisions);
  }

  /** A request once closed stays closed, and no later answer changes anything. */
  lemma {:induction false} ClosedForGood(items: seq<LiveItem>, more: seq<LiveItem>, p: nat)
    requires p < |items| && items[p].kind.ApprovalRequested? && !OpenAt(items, p)
    ensures !OpenAt(items + more, p)
    decreases |more|
  {
    hide Ended, After;
    if more == [] {
      assert items + more == items;
    } else {
      var init, x := more[..|more| - 1], more[|more| - 1];
      ClosedForGood(items, init, p);
      assert items + more == (items + init) + [x];
      EntrySnoc(items + init, x, p);
    }
  }

  /** Answers addressed to nobody, out of range or to a decided slot change nothing. */
  lemma {:induction false} LateAnswersIgnored(s: State, requestId: string, index: nat, decision: Approval, decisions: seq<Approval>)
    requires PendingOk(s.pending)
    ensures NoneNamed(s.pending, requestId) ==>
              ResolveCall(s, requestId, index, decision) == s && ResolveBatch(s, requestId, decisions) == s
    ensures forall k :: 0 <= k < |s.pending| && s.pending[k].requestId == requestId
                        && (index >= |s.pending[k].calls| || s.pending[k].decisions[index].Some?) ==>
              ResolveCall(s, requestId, index, decision) == s
  {
  }

  /** `s` is what the event makes of one of the pending batches. */
  ghost predicate SettledIn(pending: seq<Pending>, e: Event, s: Settled)
    requires Slotted(pending)
  {
    exists j :: 0 <= j < |pending| && Outcome(pending[j], e) == Some(s)
  }

  predicate DistinctIds(settled: seq<Settled>) {
    forall i, k :: 0 <= i < k < |settled| ==> settled[i].requestId != settled[k].requestId
  }

  lemma {:induction false} OutcomeNames(p: Pending, e: Event)
    requires |p.decisions| == |p.calls| && Outcome(p, e).Some?
    ensures Outcome(p, e).value.requestId == p.requestId && Advance(p, e).None?
  {
  }

  lemma {:induction false} SettledMembers(pending: seq<Pending>, e: Event)
    requires Slotted(pending)
    ensures forall k :: 0 <= k < |SettleAll(pending, e)| ==> SettledIn(pending, e, SettleAll(pending, e)[k])
    ensures forall j :: 0 <= j < |pending| && Outcome(pending[j], e).Some? ==> Outcome(pending[j], e).value in SettleAll(pending, e)
    decreases |pending|
  {
    hide Outcome;
    if pending != [] {
      var init := pending[..|pending| - 1];
      SettledMembers(init, e);
      var all, before := SettleAll(pending, e), SettleAll(init, e);
      forall k | 0 <= k < |all| ensures SettledIn(pending, e, all[k]) {
        if k < |before| {
          var j :| 0 <= j < |init| && Outcome(init[j], e) == Some(before[k]);
          assert pending[j] == init[j];
        } else {
          assert Outcome(pending[|pending| - 1], e) == Some(all[k]);
        }
      }
      forall j | 0 <= j < |pending| && Outcome(pending[j], e).Some? ensures Outcome(pending[j], e).value in all {
        if j < |init| {
          assert init[j] == pending[j];
        } else {
          assert all[|all| - 1] == Outcome(pending[j], e).value;
        }
      }
    }
  }

  lemma {:induction false} SettledDistinct(pending: seq<Pending>, e: Event)
    requires PendingOk(pending)
    ensures DistinctIds(SettleAll(pending, e))
    decreases |pending|
  {
    hide Outcome;
    if pending != [] {
      var init, last := pending[..|pending| - 1], pending[|pending| - 1];
      SettledDistinct(init, e);
      SettledMembers(init, e);
      var before := SettleAll(init, e);
      if Outcome(last, e).Some? {
        OutcomeNames(last, e);
        forall i | 0 <= i < |before| ensures before[i].requestId != last.requestId {
          assert SettledIn(init, e, before[i]);
          var j :| 0 <= j < |init| && Outcome(init[j], e) == Some(before[i]);
          OutcomeNames(init[j], e);
        }
      }
    }
  }

  /** Position `p` holds a request of this id that is no longer open. */
  predicate ClosedRequest(items: seq<LiveItem>, p: nat, requestId: string) {
    p < |items| && items[p].kind.ApprovalRequested? && items[p].kind.requestId == requestId && !OpenAt(items, p)
  }

  ghost predicate Closed(items: seq<LiveItem>, requestId: string) {
    exists p :: ClosedRequest(items, p, requestId)
  }

  /** A settlement belongs to a request its event closes. */
  lemma {:induction false} NewlySettled(init: seq<LiveItem>, x: LiveItem, s: Settled) returns (p: nat)
    requires DistinctRequests(init) && Effective(init, x)
    requires PendingOk(OpenRequests(init, |init|)) && s in SettleAll(OpenRequests(init, |init|), x.kind.event)
    ensures p < |init| && OpenAt(init, p) && ClosedRequest(init + [x], p, s.requestId)
  {
    hide SettleAll, OpenRequests, Ended, After, Outcome, Advance;
    var open := OpenRequests(init, |init|);
    SettledMembers(open, x.kind.event);
    assert SettledIn(open, x.kind.event, s);
    var j :| 0 <= j < |open| && Outcome(open[j], x.kind.event) == Some(s);
    OutcomeNames(open[j], x.kind.event);
    OpenFromRequests(init, |init|);
    assert Shown(init, |init|, open[j]);
    p :| 0 <= p < |init| && Shows(init, p, open[j]);
    EntrySnoc(init, x, p);
    assert (init + [x])[p] == init[p];
  }

  /** A request is settled at most once, and only by closing. */
  lemma {:induction false} SettledOnce(items: seq<LiveItem>)
    requires DistinctRequests(items)
    ensures DistinctIds(Settlements(items))
    ensures forall k :: 0 <= k < |Settlements(items)| ==> Closed(items, Settlements(items)[k].requestId)
    decreases |items|
  {
    hide SettleAll, OpenRequests, Log, PendingOk, ClosedRequest;
    if items != [] {
      var init, x := items[..|items| - 1], items[|items| - 1];
      assert items == init + [x];
      SettledOnce(init);
      OpenFromRequests(init, |init|);
      DistinctUnclashed(init);
      OpenDistinct(init);
      var before, all := Settlements(init), Settlements(items);
      StillClosed(init, x, before);
      if Effective(init, x) {
        SettledStep(init, x, before, SettleAll(OpenRequests(init, |init|), x.kind.event));
      } else {
        assert before + [] == before;
      }
    }
  }

  lemma {:induction false} StillClosed(init: seq<LiveItem>, x: LiveItem, before: seq<Settled>)
    requires forall k :: 0 <= k < |before| ==> Closed(init, before[k].requestId)
    ensures forall k :: 0 <= k < |before| ==> Closed(init + [x], before[k].requestId)
  {
    hide OpenAt;
    forall k | 0 <= k < |before| ensures Closed(init + [x], before[k].requestId) {
      var p :| ClosedRequest(init, p, before[k].requestId);
      ClosedForGood(init, [x], p);
      assert ClosedRequest(init + [x], p, before[k].requestId);
    }
  }

  lemma {:induction false} SettledStep(init: seq<LiveItem>, x: LiveItem, before: seq<Settled>, more: seq<Settled>)
    requires DistinctRequests(init) && Effective(init, x) && PendingOk(OpenRequests(init, |init|))
    requires DistinctIds(before) && forall k :: 0 <= k < |before| ==> Closed(init, before[k].requestId)
    requires more == SettleAll(OpenRequests(init, |init|), x.kind.event)
    ensures DistinctIds(before + more)
    ensures forall k :: 0 <= k < |more| ==> Closed(init + [x], more[k].requestId)
  {
    hide SettleAll, OpenRequests, OpenAt, PendingOk;
    SettledDistinct(OpenRequests(init, |init|), x.kind.event);
    forall k | 0 <= k < |more|
      ensures Closed(init + [x], more[k].requestId) && forall i :: 0 <= i < |before| ==> before[i].requestId != more[k].requestId
    {
      var p := NewlySettled(init, x, more[k]);
      forall i | 0 <= i < |before| ensures before[i].requestId != more[k].requestId {
        var q :| ClosedRequest(init, q, before[i].requestId);
        assert (init + [x])[p] == init[p] && p != q;
      }
    }
  }

  // ------------------------------------------- what every settlement says

  /** The request at `p`, closed by the item at `t`, settles as the calls answered
      by then, in original order, each with its first answer. */
  ghost predicate SettledAt(items: seq<LiveItem>, p: nat, t: nat, s: Settled) {
    && p < t < |items|
    && items[p].kind.ApprovalRequested? && OpenAt(items[..t], p) && !OpenAt(items[..t + 1], p)
    && SettledAs(Entry(items, p, After(items[..t + 1], p)), s)
  }

  /** The decided calls of a batch with their decisions; a batch without calls has
      only its name to settle. */
  predicate SettledAs(p: Pending, s: Settled) {
    && s.requestId == p.requestId && s.messageIndex == p.messageIndex
    && s.calls == DecidedCalls(p.calls, p.decisions)
    && (p.calls != [] ==> s.decisions == DecidedAnswers(p.calls, p.decisions))
  }

  lemma {:induction false} AllDecidedWhole(calls: seq<ToolCall>, decisions: seq<Option<Approval>>)
    requires |calls| == |decisions| && AllDecided(decisions)
    ensures DecidedCalls(calls, decisions) == calls && DecidedAnswers(calls, decisions) == DecisionValues(decisions)
    decreases |calls|
  {
    if calls != [] { AllDecidedWhole(calls[1..], decisions[1..]); }
  }

  /** What an event settles of an open request is its first answers, this one included. */
  lemma {:induction false} OutcomeIsAnswers(entry: Pending, after: seq<Event>, e: Event)
    requires entry.decisions == FirstAnswers(after, entry.requestId, |entry.calls|) && Outcome(entry, e).Some?
    ensures SettledAs(entry.(decisions := FirstAnswers(after + [e], entry.requestId, |entry.calls|)), Outcome(entry, e).value)
  {
    hide FirstAnswer, DecidedCalls, DecidedAnswers;
    var n := |entry.calls|;
    var now := FirstAnswers(after + [e], entry.requestId, n);
    forall i | 0 <= i < n ensures now[i] == if entry.decisions[i].Some? then entry.decisions[i] else Answer(e, entry.requestId, i) {
      FirstAnswerSnoc(after, e, entry.requestId, i);
    }
    if e.kind.RunFinished? {
      assert now == entry.decisions;
    } else {
      if e.kind.command.ResolveApprovalCall? {
        assert now == entry.decisions[e.kind.command.callIndex := Some(e.kind.command.decision)];
      }
      assert AllDecided(now);
      AllDecidedWhole(entry.calls, now);
    }
  }

  lemma {:induction false} ClosingOutcome(items: seq<LiveItem>, x: LiveItem, p: nat)
    requires p < |items| && OpenAt(items, p) && Effective(items, x)
    requires Outcome(Entry(items, p, After(items, p)), x.kind.event).Some?
    ensures SettledAt(items + [x], p, |items|, Outcome(Entry(items, p, After(items, p)), x.kind.event).value)
  {
    hide Outcome, Log, Ended, FirstAnswers, Advance, AnchorFor, SettledAs;
    var all, entry := items + [x], Entry(items, p, After(items, p));
    OutcomeNames(entry, x.kind.event);
    OutcomeIsAnswers(entry, After(items, p), x.kind.event);
    EntrySnoc(items, x, p);
    AfterSnoc(items, x, p);
    assert all[..|items|] == items && all[..|items| + 1] == all && all[p] == items[p];
  }

  lemma {:induction false} SettledStands(items: seq<LiveItem>, x: LiveItem, p: nat, t: nat, s: Settled)
    requires SettledAt(items, p, t, s)
    ensures SettledAt(items + [x], p, t, s)
  {
    hide OpenAt, After, Log, SettledAs, FirstAnswers, AnchorFor;
    var all := items + [x];
    assert all[..t] == items[..t] && all[..t + 1] == items[..t + 1] && all[..p] == items[..p] && all[p] == items[p];
  }

  ghost predicate Settles(items: seq<LiveItem>, s: Settled) {
    exists p, t :: SettledAt(items, p, t, s)
  }

  /** Every settlement of a stream is that of some request, at the item that closed
      it, each call with the first answer after the request. */
  lemma {:induction false} SettlementsExact(items: seq<LiveItem>)
    ensures forall k :: 0 <= k < |Settlements(items)| ==> Settles(items, Settlements(items)[k])
    decreases |items|
  {
    hide SettleAll, OpenRequests, Log, SettledAt;
    if items != [] {
      var init, x := items[..|items| - 1], items[|items| - 1];
      assert items == init + [x];
      SettlementsExact(init);
      var before, all := Settlements(init), Settlements(items);
      assert before + [] == before;
      OpenFromRequests(init, |init|);
      forall k | 0 <= k < |all| ensures Settles(items, all[k]) {
        if k < |before| {
          var p, t :| SettledAt(init, p, t, before[k]);
          SettledStands(init, x, p, t, before[k]);
        } else {
          NewSettlement(init, x, all[k]);
        }
      }
    }
  }

  lemma {:induction false} NewSettlement(init: seq<LiveItem>, x: LiveItem, s: Settled)
    requires Effective(init, x) && Slotted(OpenRequests(init, |init|))
    requires s in SettleAll(OpenRequests(init, |init|), x.kind.event)
    ensures Settles(init + [x], s)
  {
    hide SettleAll, OpenRequests, Ended, After, Outcome, Log, SettledAt;
    var open := OpenRequests(init, |init|);
    SettledMembers(open, x.kind.event);
    assert SettledIn(open, x.kind.event, s);
    var j :| 0 <= j < |open| && Outcome(open[j], x.kind.event) == Some(s);
    OpenFromRequests(init, |init|);
    assert Shown(init, |init|, open[j]);
    var p :| 0 <= p < |init| && Shows(init, p, open[j]);
    ClosingOutcome(init, x, p);
  }

  /** And every request that closes with an answer, or by a reply, is settled so. */
  lemma {:induction false} ClosingSettles(items: seq<LiveItem>, p: nat, t: nat)
    requires p < t < |items| && items[p].kind.ApprovalRequested? && OpenAt(items[..t], p) && !OpenAt(items[..t + 1], p)
    requires items[t].kind.Recorded?
    requires items[t].kind.event.kind.RunFinished? ==>
               exists i :: 0 <= i < |items[p].kind.calls| && FirstAnswer(After(items[..t], p), items[p].kind.requestId, i).Some?
    ensures exists k :: 0 <= k < |Settlements(items)| && SettledAt(items, p, t, Settlements(items)[k])
    decreases |items|
  {
    hide SettleAll, OpenRequests, Log, SettledAt, Effective, After, OpenAt, Outcome;
    var n := |items| - 1;
    var init, x := items[..n], items[n];
    assert items == init + [x];
    assert Settlements(init) + [] == Settlements(init);
    if t < n {
      assert init[..t] == items[..t] && init[..t + 1] == items[..t + 1];
      ClosingSettles(init, p, t);
      var k :| 0 <= k < |Settlements(init)| && SettledAt(init, p, t, Settlements(init)[k]);
      SettledStands(init, x, p, t, Settlements(init)[k]);
      assert Settlements(items)[k] == Settlements(init)[k];
    } else {
      assert items[..t + 1] == items;
      ClosesWithOutcome(init, x, p);
      ClosingOutcome(init, x, p);
      OpenFromRequests(init, n);
      var j := OpenListed(init, n, p);
      var s := Outcome(Entry(init, p, After(init, p)), x.kind.event).value;
      SettledMembers(OpenRequests(init, n), x.kind.event);
      assert s in Settlements(items);
    }
  }

  lemma {:induction false} OpenListed(items: seq<LiveItem>, n: nat, p: nat) returns (j: nat)
    requires p < n <= |items| && OpenAt(items, p)
    ensures j < |OpenRequests(items, n)| && OpenRequests(items, n)[j] == Entry(items, p, After(items, p))
    decreases n
  {
    hide After, Ended, Entry;
    if p == n - 1 {
      j := |OpenRequests(items, n)| - 1;
    } else {
      j := OpenListed(items, n - 1, p);
    }
  }

  /** An item that closes a request settles it, unless it ends the run on no answer. */
  lemma {:induction false} ClosesWithOutcome(items: seq<LiveItem>, x: LiveItem, p: nat)
    requires p < |items| && OpenAt(items, p) && !OpenAt(items + [x], p) && x.kind.Recorded?
    requires x.kind.event.kind.RunFinished? ==>
               exists i :: 0 <= i < |items[p].kind.calls| && FirstAnswer(After(items, p), items[p].kind.requestId, i).Some?
    ensures Effective(items, x) && Outcome(Entry(items, p, After(items, p)), x.kind.event).Some?
  {
    hide Log, Ended, FirstAnswer, After, DecidedCalls, DecidedAnswers;
    EntrySnoc(items, x, p);
    var entry := Entry(items, p, After(items, p));
    if x.kind.event.kind.RunFinished? {
      var i :| 0 <= i < |entry.calls| && FirstAnswer(After(items, p), entry.requestId, i).Some?;
      DecidedAt(entry.calls, entry.decisions);
      SlotsExact(entry.decisions, |entry.decisions|);
      assert i in DecidedSlots(entry.decisions, |entry.decisions|);
    }
  }

  // -------------------------------------------------- once for each request

  /** A settlement with the position of the request it belongs to. */
  datatype Credit = Credit(position: nat, settled: Settled)

  /** What an event settles among the requests of the first `n` items. */
  function Credited(items: seq<LiveItem>, n: nat, e: Event): seq<Credit>
    requires n <= |items|
  {
    if n == 0 then []
    else
      var before := Credited(items, n - 1, e);
      if !OpenAt(items, n - 1) then before
      else
        var o := Outcome(Entry(items, n - 1, After(items, n - 1)), e);
        if o.Some? then before + [Credit(n - 1, o.value)] else before
  }

  /** Every settlement of a stream with its request. */
  function Credits(items: seq<LiveItem>): seq<Credit> {
    if items == [] then []
    else
      var init, x := items[..|items| - 1], items[|items| - 1];
      Credits(init) + (if Effective(init, x) then Credited(init, |init|, x.kind.event) else [])
  }

  function Batches(credits: seq<Credit>): (r: seq<Settled>)
    ensures |r| == |credits| && forall k :: 0 <= k < |r| ==> r[k] == credits[k].settled
  {
    seq(|credits|, k requires 0 <= k < |credits| => credits[k].settled)
  }

  predicate DistinctPositions(credits: seq<Credit>) {
    forall j, k :: 0 <= j < k < |credits| ==> credits[j].position != credits[k].position
  }

  lemma {:induction false} CreditedIs(items: seq<LiveItem>, n: nat, e: Event)
    requires n <= |items| && Slotted(OpenRequests(items, n))
    ensures Batches(Credited(items, n, e)) == SettleAll(OpenRequests(items, n), e)
    decreases n
  {
    hide OpenRequests, SettleAll, Outcome, OpenAt, After, Batches;
    OpenFromRequests(items, n);
    if n == 0 {
      NothingCredited(items, e);
    } else {
      OpenFromRequests(items, n - 1);
      CreditedIs(items, n - 1, e);
      var before, open := Credited(items, n - 1, e), OpenRequests(items, n - 1);
      if items[n - 1].kind.ApprovalRequested? {
        OpenLast(items, n);
        assert open + [] == open;
        if OpenAt(items, n - 1) {
          var entry := Entry(items, n - 1, After(items, n - 1));
          SettleSnoc(open, entry, e);
          BatchesSnoc(before, n - 1, entry, e);
        }
      } else {
        OpenNone(items, n);
        assert !OpenAt(items, n - 1) by { NeverAsked(items, n - 1); }
      }
    }
  }

  lemma {:induction false} NeverAsked(items: seq<LiveItem>, p: nat)
    requires p < |items| && !items[p].kind.ApprovalRequested?
    ensures !OpenAt(items, p)
  {
  }

  lemma {:induction false} NothingCredited(items: seq<LiveItem>, e: Event)
    ensures OpenRequests(items, 0) == [] && SettleAll([], e) == [] && Batches(Credited(items, 0, e)) == []
  {
  }

  lemma {:induction false} SettleSnoc(pending: seq<Pending>, p: Pending, e: Event)
    requires Slotted(pending) && |p.decisions| == |p.calls|
    ensures Slotted(pending + [p])
    ensures SettleAll(pending + [p], e) == SettleAll(pending, e) + (if Outcome(p, e).Some? then [Outcome(p, e).value] else [])
  {
    hide Outcome;
    assert (pending + [p])[..|pending|] == pending;
  }

  lemma {:induction false} BatchesSnoc(credits: seq<Credit>, p: nat, entry: Pending, e: Event)
    requires |entry.decisions| == |entry.calls|
    ensures Outcome(entry, e).Some? ==>
              Batches(credits + [Credit(p, Outcome(entry, e).value)]) == Batches(credits) + [Outcome(entry, e).value]
    ensures Batches(credits) + [] == Batches(credits)
  {
    hide Outcome;
  }

  /** What an event settles belongs to distinct requests, open before it and settled
      by it. */
  lemma {:induction false} CreditedNext(items: seq<LiveItem>, n: nat, e: Event)
    requires n <= |items|
    ensures n == 0 ==> Credited(items, n, e) == []
    ensures n > 0 && !OpenAt(items, n - 1) ==> Credited(items, n, e) == Credited(items, n - 1, e)
    ensures n > 0 && OpenAt(items, n - 1) ==>
              var o := Outcome(Entry(items, n - 1, After(items, n - 1)), e);
              Credited(items, n, e)
                == if o.Some? then Credited(items, n - 1, e) + [Credit(n - 1, o.value)] else Credited(items, n - 1, e)
  {
    hide Outcome, OpenAt, Entry, After;
  }

  lemma {:induction false} CreditedExact(items: seq<LiveItem>, x: LiveItem, n: nat)
    requires n <= |items| && Effective(items, x)
    ensures DistinctPositions(Credited(items, n, x.kind.event))
    ensures forall k :: 0 <= k < |Credited(items, n, x.kind.event)| ==>
              var c := Credited(items, n, x.kind.event)[k];
              c.position < n && OpenAt(items, c.position) && SettledAt(items + [x], c.position, |items|, c.settled)
    decreases n
  {
    hide Outcome, Ended, After, Log, SettledAt, Credited, T.Ids;
    CreditedNext(items, n, x.kind.event);
    if n > 0 {
      CreditedExact(items, x, n - 1);
      if OpenAt(items, n - 1) && Outcome(Entry(items, n - 1, After(items, n - 1)), x.kind.event).Some? {
        ClosingOutcome(items, x, n - 1);
      }
    }
  }

  /** Every request is settled at most once, by the item that closed it, with its first
      answers: the settlements of a stream, in order, belong to distinct requests. The
      ids they go by may be the same. */
  lemma {:induction false} SettledOncePerRequest(items: seq<LiveItem>)
    ensures Batches(Credits(items)) == Settlements(items) && DistinctPositions(Credits(items))
    ensures forall k :: 0 <= k < |Credits(items)| ==> CreditOk(items, Credits(items)[k])
    decreases |items|
  {
    hide Batches, OpenRequests, SettleAll, Credited, CreditOk, DistinctPositions, Log;
    if items == [] {
      NoCredits();
    } else {
      var init, x := items[..|items| - 1], items[|items| - 1];
      assert items == init + [x];
      SettledOncePerRequest(init);
      OpenFromRequests(init, |init|);
      var before := Credits(init);
      assert before + [] == before && Settlements(init) + [] == Settlements(init);
      CreditsStand(init, x, before);
      if Effective(init, x) {
        var more := Credited(init, |init|, x.kind.event);
        CreditedIs(init, |init|, x.kind.event);
        BatchesConcat(before, more);
        CreditsJoin(init, x, before, more);
      }
    }
  }

  /** The request is closed, and this is its settlement. */
  ghost predicate CreditOk(items: seq<LiveItem>, c: Credit) {
    c.position < |items| && items[c.position].kind.ApprovalRequested? && !OpenAt(items, c.position)
    && exists t :: SettledAt(items, c.position, t, c.settled)
  }

  lemma {:induction false} NoCredits()
    ensures Credits([]) == [] && Settlements([]) == [] && Batches([]) == [] && DistinctPositions([])
  {
  }

  lemma {:induction false} BatchesConcat(a: seq<Credit>, b: seq<Credit>)
    ensures Batches(a + b) == Batches(a) + Batches(b)
  {
  }

  lemma {:induction false} CreditsStand(items: seq<LiveItem>, x: LiveItem, credits: seq<Credit>)
    requires forall k :: 0 <= k < |credits| ==> CreditOk(items, credits[k])
    ensures forall k :: 0 <= k < |credits| ==> CreditOk(items + [x], credits[k])
  {
    hide OpenAt, SettledAt;
    forall k | 0 <= k < |credits| ensures CreditOk(items + [x], credits[k]) {
      var c := credits[k];
      assert CreditOk(items, c);
      var t :| SettledAt(items, c.position, t, c.settled);
      SettledStands(items, x, c.position, t, c.settled);
      ClosedForGood(items, [x], c.position);
    }
  }

  lemma {:induction false} CreditsJoin(init: seq<LiveItem>, x: LiveItem, before: seq<Credit>, more: seq<Credit>)
    requires Effective(init, x) && more == Credited(init, |init|, x.kind.event)
    requires DistinctPositions(before) && forall k :: 0 <= k < |before| ==> CreditOk(init, before[k])
    requires forall k :: 0 <= k < |before| ==> CreditOk(init + [x], before[k])
    ensures DistinctPositions(before + more)
    ensures forall k :: 0 <= k < |before + more| ==> CreditOk(init + [x], (before + more)[k])
  {
    hide OpenAt, Credited, Log;
    CreditedExact(init, x, |init|);
    forall k | 0 <= k < |more|
      ensures CreditOk(init + [x], more[k]) && forall j :: 0 <= j < |before| ==> before[j].position != more[k].position
    {
      assert SettledAt(init + [x], more[k].position, |init|, more[k].settled);
      assert (init + [x])[..|init| + 1] == init + [x];
      forall j | 0 <= j < |before| ensures before[j].position != more[k].position { assert CreditOk(init, before[j]); }
    }
  }

  /** First decision wins, at the hub: whatever it lists as settled is some request's
      calls, each with the first recorded answer after that request. */
  lemma {:induction false} HubSettlesFirstAnswers(parse: A.Parser, items: seq<LiveItem>)
    requires Unclashed(items)
    ensures forall k :: 0 <= k < |Hub(parse, items).settled| ==> Settles(items, Hub(parse, items).settled[k])
  {
    hide Settles, Hub, Settlements;
    SettledIsWindow(parse, items);
    SettlementsExact(items);
  }

  /** The request at `p`, still open at the end, as far as it was answered. */
  ghost predicate CutShort(items: seq<LiveItem>, p: nat, s: Settled) {
    && p < |items| && OpenAt(items, p) && s.decisions != []
    && SettledAs(Entry(items, p, After(items, p)), s)
  }

  /** Some call of the request at `p` has an answer. */
  predicate Answered(items: seq<LiveItem>, p: nat)
    requires p < |items| && OpenAt(items, p)
  {
    var entry := Entry(items, p, After(items, p));
    DecidedAnswers(entry.calls, entry.decisions) != []
  }

  ghost predicate LeftShort(items: seq<LiveItem>, s: Settled) {
    exists p :: CutShort(items, p, s)
  }

  /** The end of a run leaves of an open request exactly that. */
  lemma {:induction false} EndCutsShort(items: seq<LiveItem>, p: nat, e: Event)
    requires p < |items| && OpenAt(items, p) && e.kind.RunFinished?
    ensures var entry := Entry(items, p, After(items, p));
            && (Outcome(entry, e).Some? <==> DecidedAnswers(entry.calls, entry.decisions) != [])
            && (Outcome(entry, e).Some? ==> CutShort(items, p, Outcome(entry, e).value))
  {
    hide After, Ended, FirstAnswers, AnchorFor, Log, DecidedCalls, DecidedAnswers;
  }

  const RUN_END := Event("", "", "", RunFinished(0), false, None, None, None, None, None, None)

  /** What a run ended here would settle. */
  function CutOff(items: seq<LiveItem>): seq<Settled> {
    OpenFromRequests(items, |items|);
    SettleAll(OpenRequests(items, |items|), RUN_END)
  }

  lemma {:induction false} CutOffShort(items: seq<LiveItem>, s: Settled)
    requires s in CutOff(items)
    ensures LeftShort(items, s)
  {
    hide OpenRequests, SettleAll, OpenAt, CutShort, Entry, Outcome;
    var open := OpenRequests(items, |items|);
    OpenFromRequests(items, |items|);
    SettledMembers(open, RUN_END);
    assert SettledIn(open, RUN_END, s);
    var j :| 0 <= j < |open| && Outcome(open[j], RUN_END) == Some(s);
    assert Shown(items, |items|, open[j]);
    var p :| 0 <= p < |items| && Shows(items, p, open[j]);
    EndCutsShort(items, p, RUN_END);
  }

  lemma {:induction false} CutOffHas(items: seq<LiveItem>, p: nat) returns (k: nat)
    requires p < |items| && OpenAt(items, p) && Answered(items, p)
    ensures k < |CutOff(items)| && CutShort(items, p, CutOff(items)[k])
  {
    hide OpenRequests, SettleAll, OpenAt, CutShort, Entry, Outcome;
    var open := OpenRequests(items, |items|);
    OpenFromRequests(items, |items|);
    SettledMembers(open, RUN_END);
    var j := OpenListed(items, |items|, p);
    EndCutsShort(items, p, RUN_END);
    assert Outcome(open[j], RUN_END).value in CutOff(items);
    k :| 0 <= k < |CutOff(items)| && CutOff(items)[k] == Outcome(open[j], RUN_END).value;
  }

  /** Closing keeps of the open requests what was answered and nothing else: the
      settled list is the newest part of the stream's settlements and these. */
  lemma {:induction false} CloseKeepsDecided(parse: A.Parser, items: seq<LiveItem>)
    requires Unclashed(items)
    ensures Close(Hub(parse, items)).pending == []
    ensures Close(Hub(parse, items)).settled == Last(Settlements(items) + CutOff(items), SETTLED_APPROVAL_WINDOW)
    ensures forall k :: 0 <= k < |CutOff(items)| ==> LeftShort(items, CutOff(items)[k])
    ensures forall p :: 0 <= p < |items| && OpenAt(items, p) && Answered(items, p) ==>
              exists k :: 0 <= k < |CutOff(items)| && CutShort(items, p, CutOff(items)[k])
  {
    hide Hub, OpenRequests, Settlements, SettleAll, RetireAll, OpenAt, CutShort, LeftShort, Answered, Unclashed;
    forall s | s in CutOff(items) ensures LeftShort(items, s) { CutOffShort(items, s); }
    forall p | 0 <= p < |items| && OpenAt(items, p) && Answered(items, p)
      ensures exists k :: 0 <= k < |CutOff(items)| && CutShort(items, p, CutOff(items)[k])
    {
      var k := CutOffHas(items, p);
    }
    PendingShowsFirstAnswers(parse, items);
    SettledIsWindow(parse, items);
    RetireSettles(Hub(parse, items).settled, Hub(parse, items).pending, RUN_END);
    LastFeeds(Settlements(items), CutOff(items));
  }

  // ------------------------------------------------------ what an attach hands out

  /** Every event published, duplicates included. */
  function Published(items: seq<LiveItem>): seq<Event> {
    if items == [] then []
    else
      var last := items[|items| - 1];
      Published(items[..|items| - 1]) + (if last.kind.Recorded? then [last.kind.event] else [])
  }

  lemma {:induction false} LogIsDedup(items: seq<LiveItem>)
    ensures Log(items) == L.Dedup(Published(items)) && T.Ids(Log(items)) == T.Ids(Published(items))
    decreases |items|
  {
    hide T.Ids;
    if items == [] {
      T.EmptyLog();
    } else {
      var init, x := items[..|items| - 1], items[|items| - 1];
      LogIsDedup(init);
      if x.kind.Recorded? {
        assert (Published(init) + [x.kind.event])[..|Published(init)|] == Published(init);
        L.DedupIds(Published(items));
      } else {
        assert Published(init) + [] == Published(init);
      }
    }
  }

  /** The history handed to an attach is the fold of everything published. */
  lemma {:induction false} HistoryIsFold(parse: A.Parser, items: seq<LiveItem>)
    ensures Handshake(Hub(parse, items)).history == T.Replay(Published(items))
  {
    HubLog(parse, items);
    LogIsDedup(items);
    L.DedupFolds(Published(items));
  }

  /** A pending batch's message index still names the response it was asked for,
      in every later handshake. */
  lemma {:induction false} AnchorsSurvive(parse: A.Parser, items: seq<LiveItem>, p: nat)
    requires p < |items| && items[p].kind.ApprovalRequested?
    requires T.Started(Log(items[..p])) && Entry(items, p, After(items, p)).messageIndex.Some?
    ensures var log := Log(items[..p]);
            && L.LastResponse(log).Some?
            && log[L.LastResponse(log).value].turn == Some(items[p].kind.requestTurn)
            && L.PlacedAt(Hub(parse, items).events, L.LastResponse(log).value, Entry(items, p, After(items, p)).messageIndex.value)
  {
    var log := Log(items[..p]);
    HubLog(parse, items);
    LogGrows(items, p);
    assert Log(items) == log + Log(items)[|log|..];
    L.AnchorAgrees(log);
    L.AnchorStays(log, Log(items)[|log|..]);
  }

  /** The deltas of the turn in flight: those since it was opened or reset. */
  function OpenDeltas(items: seq<LiveItem>): Option<(nat, seq<StreamChunk>)> {
    if items == [] then None
    else
      var init, x := items[..|items| - 1], items[|items| - 1];
      var before := OpenDeltas(init);
      match x.kind
      case AssistantDelta(turn, chunk) =>
        if before.Some? && before.value.0 == turn then Some((turn, before.value.1 + [chunk])) else Some((turn, [chunk]))
      case Recorded(e) =>
        if !Effective(init, x) then before
        else if e.kind.RunFinished? then None
        else if e.kind.LlmResponse? && before.Some? && e.turn == Some(before.value.0) then None
        else before
      case _ => before
  }

  /** The open turn is the assembler's fold of exactly those deltas. */
  lemma {:induction false} OpenTurnIsFold(parse: A.Parser, items: seq<LiveItem>)
    ensures var deltas := OpenDeltas(items);
            Hub(parse, items).openTurn ==
              if deltas.None? then None else Some((deltas.value.0, A.Assemble(parse, deltas.value.1)))
    decreases |items|
  {
    hide Complete, Transition, NewPending, A.Push, A.Assemble, T.Ids, Log;
    if items != [] {
      var init, x := items[..|items| - 1], items[|items| - 1];
      OpenTurnIsFold(parse, init);
      HubSnoc(parse, init, x);
      HubLog(parse, init);
      assert items == init + [x];
      if x.kind.AssistantDelta? {
        AssembleOne(parse, [], x.kind.chunk);
        assert [] + [x.kind.chunk] == [x.kind.chunk];
        if OpenDeltas(init).Some? { AssembleOne(parse, OpenDeltas(init).value.1, x.kind.chunk); }
      } else if x.kind.Recorded? {
        TurnAfter(Positioned(Hub(parse, init), x), x.kind.event);
      }
    }
  }

  lemma {:induction false} TurnAfter(s: State, e: Event)
    ensures Transition(s, e).openTurn ==
              if e.kind.RunFinished? || (e.kind.LlmResponse? && s.openTurn.Some? && e.turn == Some(s.openTurn.value.0))
              then None else s.openTurn
  {
  }

  lemma {:induction false} AssembleOne(parse: A.Parser, chunks: seq<StreamChunk>, chunk: StreamChunk)
    ensures A.Assemble(parse, chunks + [chunk]) == A.Push(parse, A.Assemble(parse, chunks), chunk)
    ensures A.Assemble(parse, []) == A.FRESH
  {
    assert (chunks + [chunk])[..|chunks|] == chunks;
  }
}
