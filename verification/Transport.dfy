/**
 The broadcaster's state on values: what one published item does to the
 attach-time replica, and what an attaching client is handed.
 */
module Transport {
  import opened Prelude
  import opened Contract
  import A = Assembler
  import T = Trajectory

  const SETTLED_APPROVAL_WINDOW: nat := 32

  datatype State = State(
    events: seq<Event>,
    seen: set<string>,
    openTurn: Option<(nat, A.Turn)>,
    pending: seq<Pending>,
    completed: seq<Completion>,
    settled: seq<Settled>,
    lastSeq: nat,
    closed: bool)

  const INITIAL := State([], {}, None, [], [], [], 0, false)

  /** Position of the first pending batch with this request id. */
  function Position(pending: seq<Pending>, requestId: string): (k: nat)
    ensures k <= |pending| && (k < |pending| ==> pending[k].requestId == requestId)
    ensures forall i :: 0 <= i < k ==> pending[i].requestId != requestId
  {
    if pending == [] || pending[0].requestId == requestId then 0 else 1 + Position(pending[1..], requestId)
  }

  function Without<T>(s: seq<T>, k: nat): seq<T>
    requires k < |s|
  {
    s[..k] + s[k + 1..]
  }

  /** One decision slot per call. */
  predicate Slotted(pending: seq<Pending>) {
    forall k :: 0 <= k < |pending| ==> |pending[k].decisions| == |pending[k].calls|
  }

  predicate AllDecided(decisions: seq<Option<Approval>>) {
    forall i :: 0 <= i < |decisions| ==> decisions[i].Some?
  }

  /** The settled window keeps the newest batches. */
  function Remember(settled: seq<Settled>, s: Settled): seq<Settled> {
    Last(settled + [s], SETTLED_APPROVAL_WINDOW)
  }

  const DENIED := Rejected(None)

  /** The answer a batch reply gives slot `i`: by original position, missing denies. */
  function BatchAnswer(decisions: seq<Approval>, i: nat): Approval {
    if i < |decisions| then decisions[i] else DENIED
  }

  function DecisionValues(decisions: seq<Option<Approval>>): (r: seq<Approval>)
    requires AllDecided(decisions)
    ensures |r| == |decisions| && forall i :: 0 <= i < |r| ==> decisions[i] == Some(r[i])
  {
    seq(|decisions|, i requires 0 <= i < |decisions| => decisions[i].value)
  }

  function ResolveCall(s: State, requestId: string, index: nat, decision: Approval): State {
    var k := Position(s.pending, requestId);
    if k == |s.pending| then s
    else
      var p := s.pending[k];
      if index >= |p.calls| || index >= |p.decisions| || p.decisions[index].Some? then s
      else
        var decided := p.(decisions := p.decisions[index := Some(decision)]);
        if AllDecided(decided.decisions) then
          s.(pending := Without(s.pending, k),
             settled := Remember(s.settled, Settled(p.requestId, p.messageIndex, p.calls, DecisionValues(decided.decisions))))
        else s.(pending := s.pending[k := decided])
  }

  /** A batch reply fills the open slots; an empty batch keeps the reply verbatim. */
  function BatchDecisions(p: Pending, decisions: seq<Approval>): (r: seq<Approval>)
    ensures p.calls == [] ==> r == decisions
    ensures p.calls != [] ==> |r| == |p.decisions|
    ensures p.calls != [] ==> forall i :: 0 <= i < |r| ==>
              r[i] == if p.decisions[i].Some? then p.decisions[i].value else BatchAnswer(decisions, i)
  {
    if p.calls == [] then decisions
    else seq(|p.decisions|, i requires 0 <= i < |p.decisions| =>
               if p.decisions[i].Some? then p.decisions[i].value else BatchAnswer(decisions, i))
  }

  function ResolveBatch(s: State, requestId: string, decisions: seq<Approval>): State {
    var k := Position(s.pending, requestId);
    if k == |s.pending| then s
    else
      var p := s.pending[k];
      s.(pending := Without(s.pending, k),
         settled := Remember(s.settled, Settled(p.requestId, p.messageIndex, p.calls, BatchDecisions(p, decisions))))
  }

  /** The decided calls of a batch, in original relative order. */
  function DecidedCalls(calls: seq<ToolCall>, decisions: seq<Option<Approval>>): seq<ToolCall> {
    if calls == [] || decisions == [] then []
    else (if decisions[0].Some? then [calls[0]] else []) + DecidedCalls(calls[1..], decisions[1..])
  }

  function DecidedAnswers(calls: seq<ToolCall>, decisions: seq<Option<Approval>>): seq<Approval> {
    if calls == [] || decisions == [] then []
    else (if decisions[0].Some? then [decisions[0].value] else []) + DecidedAnswers(calls[1..], decisions[1..])
  }

  /** Termination keeps what was decided and invents nothing for the rest. */
  function RetireAll(settled: seq<Settled>, pending: seq<Pending>): seq<Settled>
    decreases |pending|
  {
    if pending == [] then settled
    else
      var p := pending[0];
      var answers := DecidedAnswers(p.calls, p.decisions);
      RetireAll(if answers == [] then settled
                else Remember(settled, Settled(p.requestId, p.messageIndex, DecidedCalls(p.calls, p.decisions), answers)),
                pending[1..])
  }

  function Retire(s: State): State {
    s.(pending := [], settled := RetireAll(s.settled, s.pending))
  }

  function DropSpan(completed: seq<Completion>, spanId: string): seq<Completion> {
    if completed == [] then []
    else (if completed[0].spanId != spanId then [completed[0]] else []) + DropSpan(completed[1..], spanId)
  }

  function OnTurn(completed: seq<Completion>, turn: nat): seq<Completion> {
    if completed == [] then []
    else (if completed[0].turn == turn then [completed[0]] else []) + OnTurn(completed[1..], turn)
  }

  function FindSpan(completed: seq<Completion>, spanId: string): (k: nat)
    ensures k <= |completed|
  {
    if completed == [] || completed[0].spanId == spanId then 0 else 1 + FindSpan(completed[1..], spanId)
  }

  function Complete(completed: seq<Completion>, c: Completion): seq<Completion> {
    var kept := OnTurn(completed, c.turn);
    var k := FindSpan(kept, c.spanId);
    if k < |kept| then kept[k := c] else kept + [c]
  }

  /** The transitions a recorded event drives, before it joins the log. */
  function Transition(s: State, e: Event): State {
    match e.kind
    case LlmResponse(_, _) =>
      if s.openTurn.Some? && e.turn == Some(s.openTurn.value.0) then s.(openTurn := None) else s
    case ToolResult(_, _) => s.(completed := DropSpan(s.completed, e.spanId))
    case LlmRequest => s.(completed := [])
    case Issued(command) =>
      (match command
       case ResolveApproval(requestId, decisions) => ResolveBatch(s, requestId, decisions)
       case ResolveApprovalCall(requestId, index, decision) => ResolveCall(s, requestId, index, decision)
       case _ => s)
    case RunFinished(_) => Retire(s.(openTurn := None)).(completed := [])
    case _ => s
  }

  function TrackRecorded(s: State, e: Event): State {
    if e.id in s.seen then s
    else
      var t := Transition(s, e);
      t.(seen := s.seen + {e.id}, events := s.events + [e])
  }

  function AnchorFor(events: seq<Event>, turn: nat): Option<nat> {
    match T.Anchor(events)
    case Some((responseTurn, index)) => if responseTurn == turn then Some(index) else None
    case None => None
  }

  function NewPending(events: seq<Event>, requestId: string, turn: nat, calls: seq<ToolCall>): (p: Pending)
    ensures |p.decisions| == |calls|
  {
    Pending(requestId, turn, AnchorFor(events, turn), calls, seq(|calls|, _ => None))
  }

  /** The highest position seen. */
  function Positioned(s: State, item: LiveItem): State {
    s.(lastSeq := if item.position > s.lastSeq then item.position else s.lastSeq)
  }

  /** Folds one published item into the attach-time replica. */
  function Track(parse: A.Parser, before: State, item: LiveItem): State {
    var s := Positioned(before, item);
    match item.kind
    case Recorded(event) => TrackRecorded(s, event)
    case AssistantDelta(turn, chunk) =>
      var replica := if s.openTurn.Some? && s.openTurn.value.0 == turn then s.openTurn.value.1 else A.FRESH;
      s.(openTurn := Some((turn, A.Push(parse, replica, chunk))))
    case ToolCompleted(completion) => s.(completed := Complete(s.completed, completion))
    case ApprovalRequested(requestId, turn, calls) =>
      s.(pending := s.pending + [NewPending(s.events, requestId, turn, calls)])
  }

  /** Publishing after close changes nothing. */
  function Publish(parse: A.Parser, s: State, item: LiveItem): State {
    if s.closed then s else Track(parse, s, item)
  }

  function Close(s: State): State {
    Retire(s).(completed := [], closed := true)
  }

  /** The items of a run, oldest first, tracked on top of `s`. */
  function TrackAll(parse: A.Parser, s: State, items: seq<LiveItem>): State {
    if items == [] then s
    else Track(parse, TrackAll(parse, s, items[..|items| - 1]), items[|items| - 1])
  }

  datatype Sync = Sync(
    history: T.RunState,
    openTurn: Option<(nat, A.TurnSnapshot)>,
    pending: seq<Pending>,
    completed: seq<Completion>,
    settled: seq<Settled>,
    asOfSeq: nat)

  ghost function Handshake(s: State): Sync {
    Sync(T.Replay(s.events),
         if s.openTurn.Some? then Some((s.openTurn.value.0, A.Snapshot(s.openTurn.value.1))) else None,
         s.pending, s.completed, s.settled, s.lastSeq)
  }
}
