/**
 One run's hub: bounded queues per subscriber, an atomic handshake, and the
 replica every attach is served from.
 */
module Broadcasting {
  import opened Prelude
  import opened Contract
  import opened Transport
  import A = Assembler
  import T = Trajectory

  datatype Update = Item(item: LiveItem) | Lagged

  /** One subscription's queue: `connected` while the hub holds the sending end,
      `receiving` while the client holds the reading end. */
  datatype Line = Line(queue: seq<LiveItem>, connected: bool, receiving: bool, lagged: bool)

  /** What one publish does to a subscription: a reader that is gone ends it
      quietly, a full queue ends it with the lag flag. */
  function Offer(line: Line, capacity: nat, item: LiveItem): Line {
    if !line.receiving then line.(connected := false)
    else if |line.queue| < capacity then line.(queue := line.queue + [item])
    else line.(connected := false, lagged := true)
  }

  /** The next update, once one is there or the sending end is gone. */
  function Receive(line: Line, reported: bool): (r: (Option<Update>, Line, bool)) {
    if line.queue != [] then (Some(Item(line.queue[0])), line.(queue := line.queue[1..]), reported)
    else if !reported && line.lagged then (Some(Lagged), line, true)
    else (None, line, reported)
  }

  class Channel {
    const capacity: nat
    var queue: seq<LiveItem>
    var connected: bool
    var receiving: bool
    var lagged: bool

    ghost function Model(): Line
      reads this
    {
      Line(queue, connected, receiving, lagged)
    }

    constructor (capacity: nat, connected: bool)
      ensures this.capacity == capacity && Model() == Line([], connected, true, false)
    {
      this.capacity, this.connected := capacity, connected;
      queue, receiving, lagged := [], true, false;
    }

    method TrySend(item: LiveItem) returns (kept: bool)
      requires connected
      modifies this
      ensures Model() == Offer(old(Model()), capacity, item) && kept == connected
    {
      if !receiving {
        connected := false;
      } else if |queue| < capacity {
        queue := queue + [item];
      } else {
        lagged := true;
        connected := false;
      }
      kept := connected;
    }
  }

  class Tail {
    const channel: Channel
    var laggedReported: bool

    constructor (channel: Channel)
      ensures this.channel == channel && !laggedReported
    {
      this.channel, laggedReported := channel, false;
    }

    method Next() returns (update: Option<Update>)
      requires channel.queue != [] || !channel.connected
      modifies this, channel
      ensures (update, channel.Model(), laggedReported) == Receive(old(channel.Model()), old(laggedReported))
    {
      if channel.queue != [] {
        update := Some(Item(channel.queue[0]));
        channel.queue := channel.queue[1..];
      } else if !laggedReported && channel.lagged {
        laggedReported := true;
        update := Some(Lagged);
      } else {
        update := None;
      }
    }
  }

  /** The subscribers a publish leaves in the list, in order. */
  ghost function StillConnected(subscribers: seq<Channel>): seq<Channel>
    reads subscribers
  {
    if subscribers == [] then []
    else StillConnected(subscribers[..|subscribers| - 1])
         + (if subscribers[|subscribers| - 1].connected then [subscribers[|subscribers| - 1]] else [])
  }

  /** Distinct, and all still connected. */
  ghost predicate Connections(subscribers: seq<Channel>)
    reads subscribers
  {
    Distinct(subscribers) && forall i :: 0 <= i < |subscribers| ==> subscribers[i].connected
  }

  ghost predicate Distinct(subscribers: seq<Channel>) {
    forall i, j :: 0 <= i < j < |subscribers| ==> subscribers[i] != subscribers[j]
  }

  lemma {:induction false} KeptConnected(subscribers: seq<Channel>)
    requires Distinct(subscribers)
    ensures Connections(StillConnected(subscribers))
    ensures forall c :: c in StillConnected(subscribers) ==> c in subscribers
    decreases |subscribers|
  {
    if subscribers != [] {
      var init := subscribers[..|subscribers| - 1];
      KeptConnected(init);
      assert subscribers[|subscribers| - 1] !in init;
    }
  }

  lemma {:induction false} StillSnoc(subscribers: seq<Channel>, c: Channel)
    ensures StillConnected(subscribers + [c]) == if c.connected then StillConnected(subscribers) + [c] else StillConnected(subscribers)
  {
    assert (subscribers + [c])[..|subscribers|] == subscribers;
    assert StillConnected(subscribers) + [] == StillConnected(subscribers);
  }

  lemma {:induction false} NoneStill()
    ensures StillConnected([]) == []
  {
  }

  /** Offers the item to each subscriber, keeping those it could reach. */
  method OfferAll(all: seq<Channel>, item: LiveItem) returns (kept: seq<Channel>)
    requires Connections(all)
    modifies all
    ensures forall c :: c in all ==> c.Model() == Offer(old(c.Model()), c.capacity, item)
    ensures kept == StillConnected(all) && Connections(kept) && forall c :: c in kept ==> c in all
  {
    hide Offer, StillConnected;
    kept := [];
    NoneStill();
    var i := 0;
    while i < |all|
      invariant 0 <= i <= |all|
      invariant forall j :: 0 <= j < i ==> all[j].Model() == Offer(old(all[j].Model()), all[j].capacity, item)
      invariant forall j :: i <= j < |all| ==> all[j].Model() == old(all[j].Model())
      invariant kept == StillConnected(all[..i])
    {
      assert all[i].Model().connected;
      assert all[i] !in all[..i];
      var sent := all[i].TrySend(item);
      StillSnoc(all[..i], all[i]);
      assert all[..i + 1] == all[..i] + [all[i]];
      if sent { kept := kept + [all[i]]; }
      i := i + 1;
    }
    assert all[..|all|] == all;
    KeptConnected(all);
  }

  /** Drops the sending end of every subscription. */
  method Disconnect(all: seq<Channel>)
    modifies all
    ensures forall c :: c in all ==> c.Model() == old(c.Model()).(connected := false)
  {
    var i := 0;
    while i < |all|
      invariant 0 <= i <= |all|
      invariant forall c :: c in all[..i] ==> c.Model() == old(c.Model()).(connected := false)
      invariant forall c :: c in all && c !in all[..i] ==> c.Model() == old(c.Model())
    {
      all[i].connected := false;
      i := i + 1;
    }
  }

  /** The id set plays no part in a transition. */
  lemma {:induction false} SeenAside(marked: State, s: State, e: Event)
    requires marked == s.(seen := s.seen + {e.id})
    ensures Transition(marked, e) == Transition(s, e).(seen := s.seen + {e.id})
  {
    hide RetireAll, Remember, BatchDecisions, DropSpan, Position, DecisionValues, Without, ResolveCall, ResolveBatch;
    if e.kind.Issued? {
      match e.kind.command
      case ResolveApproval(id, decisions) => BatchAside(marked, s, id, decisions);
      case ResolveApprovalCall(id, index, decision) => CallAside(marked, s, id, index, decision);
      case _ =>
    }
  }

  lemma {:induction false} BatchAside(marked: State, s: State, id: string, decisions: seq<Approval>)
    requires marked == s.(seen := marked.seen)
    ensures ResolveBatch(marked, id, decisions) == ResolveBatch(s, id, decisions).(seen := marked.seen)
  {
    hide Remember, BatchDecisions, Position, Without;
  }

  lemma {:induction false} CallAside(marked: State, s: State, id: string, index: nat, decision: Approval)
    requires marked == s.(seen := marked.seen)
    ensures ResolveCall(marked, id, index, decision) == ResolveCall(s, id, index, decision).(seen := marked.seen)
  {
    hide Remember, Position, DecisionValues, Without;
  }

  class Broadcaster {
    const parse: A.Parser
    const queueCapacity: nat
    var events: seq<Event>
    var seenEventIds: set<string>
    var openTurn: Option<nat>
    var replica: A.MessageAssembler
    var pendingApprovals: seq<Pending>
    var completedTools: seq<Completion>
    var settledApprovals: seq<Settled>
    var lastSeq: nat
    var subscribers: seq<Channel>
    var closed: bool

    ghost predicate Valid()
      reads this, replica, subscribers
    {
      && replica.parse == parse
      && Connections(subscribers)
      && (closed ==> subscribers == [])
      && Slotted(pendingApprovals)
    }

    /** The replica, as the specification sees it. */
    ghost function Model(): State
      reads this, replica
    {
      State(events, seenEventIds, if openTurn.Some? then Some((openTurn.value, replica.Model())) else None,
            pendingApprovals, completedTools, settledApprovals, lastSeq, closed)
    }

    constructor (parse: A.Parser, queueCapacity: nat)
      ensures Valid() && fresh(replica) && Model() == INITIAL && subscribers == []
      ensures this.parse == parse && this.queueCapacity == queueCapacity
    {
      this.parse, this.queueCapacity := parse, queueCapacity;
      events, seenEventIds, openTurn := [], {}, None;
      replica := new A.MessageAssembler(parse);
      pendingApprovals, completedTools, settledApprovals := [], [], [];
      lastSeq, subscribers, closed := 0, [], false;
    }

    /** Appends, then drops from the front while over the window. */
    method RememberSettlement(s: Settled)
      modifies this`settledApprovals
      ensures settledApprovals == Remember(old(settledApprovals), s)
    {
      var all := settledApprovals + [s];
      settledApprovals := all;
      while |settledApprovals| > SETTLED_APPROVAL_WINDOW
        invariant |settledApprovals| <= |all| && settledApprovals == all[|all| - |settledApprovals|..]
        invariant |all| >= SETTLED_APPROVAL_WINDOW ==> |settledApprovals| >= SETTLED_APPROVAL_WINDOW
        invariant |all| < SETTLED_APPROVAL_WINDOW ==> settledApprovals == all
      {
        settledApprovals := settledApprovals[1..];
      }
    }

    method ResolveApprovalCall(requestId: string, callIndex: nat, decision: Approval)
      requires Slotted(pendingApprovals)
      modifies this`pendingApprovals, this`settledApprovals
      ensures Model() == ResolveCall(old(Model()), requestId, callIndex, decision)
      ensures Slotted(pendingApprovals)
    {
      var position := Position(pendingApprovals, requestId);
      if position == |pendingApprovals| { return; }
      var p := pendingApprovals[position];
      if callIndex >= |p.calls| || p.decisions[callIndex].Some? { return; }
      p := p.(decisions := p.decisions[callIndex := Some(decision)]);
      pendingApprovals := pendingApprovals[position := p];
      if AllDecided(p.decisions) {
        assert Without(pendingApprovals, position) == Without(old(pendingApprovals), position);
        pendingApprovals := Without(pendingApprovals, position);
        RememberSettlement(Settled(p.requestId, p.messageIndex, p.calls, DecisionValues(p.decisions)));
      }
    }

    method ResolveApprovalBatch(requestId: string, decisions: seq<Approval>)
      requires Slotted(pendingApprovals)
      modifies this`pendingApprovals, this`settledApprovals
      ensures Model() == ResolveBatch(old(Model()), requestId, decisions)
      ensures Slotted(pendingApprovals)
    {
      var position := Position(pendingApprovals, requestId);
      if position == |pendingApprovals| { return; }
      var p := pendingApprovals[position];
      pendingApprovals := Without(pendingApprovals, position);
      var answers := BatchDecisions(p, decisions);
      RememberSettlement(Settled(p.requestId, p.messageIndex, p.calls, answers));
    }

    method RetirePendingApprovals()
      modifies this`pendingApprovals, this`settledApprovals
      ensures Model() == Retire(old(Model()))
    {
      var rest := pendingApprovals;
      ghost var goal := RetireAll(settledApprovals, rest);
      pendingApprovals := [];
      while rest != []
        invariant pendingApprovals == [] && RetireAll(settledApprovals, rest) == goal
        decreases |rest|
      {
        var p := rest[0];
        var calls, answers := DecidedCalls(p.calls, p.decisions), DecidedAnswers(p.calls, p.decisions);
        if answers != [] {
          RememberSettlement(Settled(p.requestId, p.messageIndex, calls, answers));
        }
        rest := rest[1..];
      }
    }

    /** The transitions a first-seen event drives. */
    method ApplyTransition(e: Event)
      requires Slotted(pendingApprovals)
      modifies this`openTurn, this`pendingApprovals, this`completedTools, this`settledApprovals
      ensures Slotted(pendingApprovals) && Model() == Transition(old(Model()), e)
    {
      hide ResolveBatch, ResolveCall, RetireAll, DropSpan;
      match e.kind {
        case LlmResponse(_, _) =>
          if openTurn.Some? && e.turn == openTurn { openTurn := None; }
        case ToolResult(_, _) => completedTools := DropSpan(completedTools, e.spanId);
        case LlmRequest => completedTools := [];
        case Issued(command) => {
          match command
          case ResolveApproval(requestId, decisions) => ResolveApprovalBatch(requestId, decisions);
          case ResolveApprovalCall(requestId, index, decision) => ResolveApprovalCall(requestId, index, decision);
          case _ =>
        }
        case RunFinished(_) => {
          openTurn := None;
          RetirePendingApprovals();
          completedTools := [];
        }
        case _ =>
      }
    }

    method TrackRecordedEvent(e: Event)
      requires Slotted(pendingApprovals)
      modifies this`events, this`seenEventIds, this`openTurn, this`pendingApprovals, this`completedTools, this`settledApprovals
      ensures Slotted(pendingApprovals) && Model() == TrackRecorded(old(Model()), e)
    {
      hide Transition;
      if e.id in seenEventIds { return; }
      seenEventIds := seenEventIds + {e.id};
      ghost var before := Model();
      ApplyTransition(e);
      SeenAside(before, old(Model()), e);
      events := events + [e];
    }

    method Complete(completion: Completion)
      modifies this`completedTools
      ensures completedTools == Transport.Complete(old(completedTools), completion)
    {
      completedTools := OnTurn(completedTools, completion.turn);
      var k := FindSpan(completedTools, completion.spanId);
      if k < |completedTools| {
        completedTools := completedTools[k := completion];
      } else {
        completedTools := completedTools + [completion];
      }
    }

    method Present(requestId: string, turn: nat, calls: seq<ToolCall>)
      requires Slotted(pendingApprovals)
      modifies this`pendingApprovals
      ensures Slotted(pendingApprovals)
      ensures pendingApprovals == old(pendingApprovals) + [NewPending(events, requestId, turn, calls)]
    {
      hide T.Anchor;
      var anchor := T.LatestResponseAnchor(events);
      var index := match anchor
        case Some((responseTurn, at)) => if responseTurn == turn then Some(at) else None
        case None => None;
      pendingApprovals := pendingApprovals + [Pending(requestId, turn, index, calls, seq(|calls|, _ => None))];
    }

    method Grow(turn: nat, chunk: StreamChunk)
      requires replica.parse == parse
      modifies this`openTurn, this`replica, replica
      ensures replica.parse == parse && (replica == old(replica) || fresh(replica)) && openTurn == Some(turn)
      ensures replica.Model() == A.Push(parse, if old(openTurn) == Some(turn) then old(replica.Model()) else A.FRESH, chunk)
    {
      hide A.Push;
      if openTurn != Some(turn) {
        openTurn := Some(turn);
        replica := new A.MessageAssembler(parse);
      }
      replica.PushChunk(chunk);
    }

    /** Folds one published item into the replica. */
    method TrackItem(item: LiveItem)
      requires Slotted(pendingApprovals) && replica.parse == parse
      modifies this`lastSeq, this`events, this`seenEventIds, this`openTurn, this`replica, replica,
               this`pendingApprovals, this`completedTools, this`settledApprovals
      ensures Slotted(pendingApprovals) && replica.parse == parse && (replica == old(replica) || fresh(replica))
      ensures Model() == Track(parse, old(Model()), item)
    {
      hide TrackRecorded, A.Push, Transport.Complete, NewPending, Slotted;
      if item.position > lastSeq { lastSeq := item.position; }
      match item.kind
      case Recorded(event) => TrackRecordedEvent(event);
      case AssistantDelta(turn, chunk) => Grow(turn, chunk);
      case ToolCompleted(completion) => Complete(completion);
      case ApprovalRequested(requestId, turn, calls) => Present(requestId, turn, calls);
    }

    /** Tracks the item, then offers it to every subscriber without waiting. */
    method Publish(item: LiveItem)
      requires Valid()
      modifies this, replica, subscribers
      ensures Valid() && Model() == Transport.Publish(parse, old(Model()), item)
      ensures replica == old(replica) || fresh(replica)
      ensures !old(closed) ==> forall c :: c in old(subscribers) ==> c.Model() == Offer(old(c.Model()), c.capacity, item)
      ensures subscribers == StillConnected(old(subscribers))
    {
      hide Track, Offer, StillConnected, Connections, Slotted;
      NoneStill();
      if closed { return; }
      TrackItem(item);
      subscribers := OfferAll(subscribers, item);
    }

    /** Snapshot and subscription in one step, so nothing slips between them. */
    method Attach() returns (sync: Sync, tail: Tail)
      requires Valid()
      modifies this`subscribers
      ensures Valid() && Model() == old(Model())
      ensures sync == Handshake(old(Model()))
      ensures fresh(tail) && fresh(tail.channel) && !tail.laggedReported
      ensures tail.channel.capacity == queueCapacity && tail.channel.Model() == Line([], !closed, true, false)
      ensures subscribers == if closed then old(subscribers) else old(subscribers) + [tail.channel]
    {
      var history := T.ReplayTrace(events);
      var open: Option<(nat, A.TurnSnapshot)> := None;
      if openTurn.Some? {
        var partial := replica.TakeSnapshot();
        open := Some((openTurn.value, partial));
      }
      sync := Sync(history, open, pendingApprovals, completedTools, settledApprovals, lastSeq);
      var channel := new Channel(queueCapacity, !closed);
      if !closed { subscribers := subscribers + [channel]; }
      tail := new Tail(channel);
    }

    /** Ends every tail: readers drain what they have. */
    method Close()
      requires Valid()
      modifies this, subscribers
      ensures Valid() && Model() == Transport.Close(old(Model())) && subscribers == []
      ensures forall c :: c in old(subscribers) ==> c.Model() == old(c.Model()).(connected := false)
    {
      closed := true;
      RetirePendingApprovals();
      completedTools := [];
      Disconnect(subscribers);
      subscribers := [];
    }
  }
}
