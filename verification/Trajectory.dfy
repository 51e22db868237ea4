/**
 The log fold and the approval anchor: two walks over one log. Both drop
 duplicate event ids and seed the history from the first `start_run` only.
 */
module Trajectory {
  import opened Prelude
  import opened Contract

  datatype Projection = Projection(messageIndex: nat, requestId: string, callIndex: nat)

  datatype FinishRecord = FinishRecord(turns: nat, failed: bool, error: Option<string>)

  datatype RunState = RunState(
    traceId: string,
    provider: Option<string>,
    model: Option<string>,
    messages: seq<Message>,
    toolResults: seq<Projection>,
    turns: nat,
    warnings: seq<string>,
    scores: seq<string>,
    openCalls: seq<string>,
    finished: Option<FinishRecord>)

  const BLANK := RunState("", None, None, [], [], 0, [], [], [], None)

  /** The ids of a log. */
  function Ids(events: seq<Event>): set<string> {
    set i | 0 <= i < |events| :: events[i].id
  }

  predicate IsStart(e: Event) {
    e.kind.Issued? && e.kind.command.StartRun?
  }

  /** Whether a `start_run` took effect; a duplicate id never does. */
  predicate Started(events: seq<Event>) {
    events != [] &&
    var log, e := events[..|events| - 1], events[|events| - 1];
    Started(log) || (IsStart(e) && e.id !in Ids(log))
  }

  /** Whether the event right after `log` is neither a duplicate nor a repeated start. */
  predicate Counts(log: seq<Event>, e: Event) {
    e.id !in Ids(log) && !(IsStart(e) && Started(log))
  }

  /** Position of the first element equal to `x`, or the length. */
  function Find(s: seq<string>, x: string): (k: nat)
    ensures k <= |s| && (k < |s| ==> s[k] == x) && (forall i :: 0 <= i < k ==> s[i] != x)
  {
    if s == [] then 0 else if s[0] == x then 0 else 1 + Find(s[1..], x)
  }

  function RemoveFirst(s: seq<string>, x: string): seq<string> {
    var k := Find(s, x);
    if k < |s| then s[..k] + s[k + 1..] else s
  }

  function InjectedText(path: string, content: string): string {
    "Entered a new subtree; its instruction file now applies (nearest-file precedence):\n\n## "
    + path + "\n\n" + Trim(content)
  }

  /** The state effect of one event that counts. */
  function Apply(s: RunState, e: Event): RunState {
    match e.kind
    case Issued(command) =>
      (match command
       case StartRun(base) => s.(messages := base, toolResults := [], provider := e.provider, model := e.model)
       case Steer(text) => s.(messages := s.messages + [UserMessage(text)])
       case _ => s)
    case LlmRequest => s
    case Fold(_) => s
    case InstructionInjected(path, content) =>
      s.(messages := s.messages + [UserMessage(InjectedText(path, content))])
    case LlmResponse(message, warnings) =>
      s.(messages := s.messages + [message], warnings := s.warnings + warnings,
         turns := if e.failed then s.turns else s.turns + 1)
    case CallOpened(call) => s.(openCalls := s.openCalls + [call.id])
    case ToolResult(callId, result) =>
      var projected :=
        if e.approvalRequest.Some? && e.approvalIndex.Some?
        then [Projection(|s.messages|, e.approvalRequest.value, e.approvalIndex.value)] else [];
      s.(openCalls := RemoveFirst(s.openCalls, callId),
         toolResults := s.toolResults + projected,
         messages := s.messages + [ToolMessage(callId, result, e.error.Some?)])
    case EvalScore(score) => s.(scores := s.scores + [score])
    case RunFinished(turns) => s.(finished := Some(FinishRecord(turns, e.failed, e.error)))
  }

  function Replay(events: seq<Event>): RunState {
    if events == [] then BLANK
    else
      var log, e := events[..|events| - 1], events[|events| - 1];
      var s := if log == [] then BLANK.(traceId := e.traceId) else Replay(log);
      if Counts(log, e) then Apply(s, e) else s
  }

  // -------------------------------------------------------------- the anchor

  datatype Walk = Walk(count: nat, latest: Option<(nat, nat)>)

  function Advance(w: Walk, e: Event): Walk {
    match e.kind
    case Issued(command) =>
      (match command
       case StartRun(base) => Walk(|base|, None)
       case Steer(_) => w.(count := w.count + 1)
       case _ => w)
    case LlmResponse(_, _) =>
      Walk(w.count + 1, if e.turn.Some? then Some((e.turn.value, w.count)) else None)
    case InstructionInjected(_, _) => w.(count := w.count + 1)
    case ToolResult(_, _) => w.(count := w.count + 1)
    case _ => w
  }

  function Walked(events: seq<Event>): Walk {
    if events == [] then Walk(0, None)
    else
      var log, e := events[..|events| - 1], events[|events| - 1];
      if Counts(log, e) then Advance(Walked(log), e) else Walked(log)
  }

  /** Turn and message index of the latest response. */
  function Anchor(events: seq<Event>): Option<(nat, nat)> {
    Walked(events).latest
  }

  // --------------------------------------------------- the walks as the code

  lemma {:induction false} Snoc(events: seq<Event>, i: nat)
    requires i < |events|
    ensures events[..i + 1][..i] == events[..i] && events[..i + 1][i] == events[i]
    ensures Ids(events[..i + 1]) == Ids(events[..i]) + {events[i].id}
    ensures Started(events[..i + 1]) <==> Started(events[..i]) || (IsStart(events[i]) && events[i].id !in Ids(events[..i]))
  {
    IdsSnoc(events[..i], events[i]);
    assert events[..i + 1] == events[..i] + [events[i]];
  }

  lemma {:induction false} IdsSnoc(log: seq<Event>, e: Event)
    ensures Ids(log + [e]) == Ids(log) + {e.id}
  {
    var b := log + [e];
    assert b[|log|] == e;
    assert forall k :: 0 <= k < |log| ==> b[k] == log[k];
    forall id | id in Ids(log) ensures id in Ids(b) {
      var k :| 0 <= k < |log| && log[k].id == id;
      assert b[k].id == id;
    }
  }

  lemma {:induction false} ReplaySnoc(events: seq<Event>, i: nat)
    requires i < |events|
    ensures Replay(events[..i + 1])
         == var s := if i == 0 then BLANK.(traceId := events[0].traceId) else Replay(events[..i]);
            if Counts(events[..i], events[i]) then Apply(s, events[i]) else s
    ensures Walked(events[..i + 1])
         == if Counts(events[..i], events[i]) then Advance(Walked(events[..i]), events[i]) else Walked(events[..i])
  {
    Snoc(events, i);
  }

  lemma {:induction false} EmptyLog()
    ensures Ids([]) == {} && !Started([]) && Replay([]) == BLANK && Walked([]) == Walk(0, None)
  {
  }

  method ReplayTrace(events: seq<Event>) returns (state: RunState)
    ensures state == Replay(events)
  {
    hide Replay, Ids, Started, Apply;
    EmptyLog();
    assert events[..0] == [];
    state := if events == [] then BLANK else BLANK.(traceId := events[0].traceId);
    var openCalls: seq<string> := [];
    var seen: set<string> := {};
    var started := false;
    var i := 0;
    while i < |events|
      invariant 0 <= i <= |events|
      invariant seen == Ids(events[..i]) && started == Started(events[..i])
      invariant i > 0 ==> state.(openCalls := openCalls) == Replay(events[..i])
      invariant i == 0 ==> openCalls == [] && state == if events == [] then BLANK else BLANK.(traceId := events[0].traceId)
    {
      var e := events[i];
      Snoc(events, i);
      ReplaySnoc(events, i);
      i := i + 1;
      if e.id in seen { continue; }
      seen := seen + {e.id};
      if IsStart(e) {
        if started { continue; }
        started := true;
      }
      state, openCalls := FoldEvent(state, openCalls, e);
    }
    state := state.(openCalls := openCalls);
    assert events[..|events|] == events;
  }

  /** One arm of the fold; the open calls ride beside the state until the end. */
  method FoldEvent(before: RunState, open: seq<string>, e: Event) returns (state: RunState, openCalls: seq<string>)
    ensures state.(openCalls := openCalls) == Apply(before.(openCalls := open), e)
  {
    hide InjectedText, ToolMessage, UserMessage;
    state, openCalls := before, open;
    match e.kind {
      case Issued(command) =>
        match command {
          case StartRun(base) =>
            state := state.(messages := base, toolResults := [], provider := e.provider, model := e.model);
          case Steer(text) =>
            state := state.(messages := state.messages + [UserMessage(text)]);
          case _ =>
        }
      case LlmRequest =>
      case Fold(_) =>
      case InstructionInjected(path, content) =>
        state := state.(messages := state.messages + [UserMessage(InjectedText(path, content))]);
      case LlmResponse(message, warnings) =>
        state := state.(messages := state.messages + [message], warnings := state.warnings + warnings);
        if !e.failed { state := state.(turns := state.turns + 1); }
      case CallOpened(call) =>
        openCalls := openCalls + [call.id];
      case ToolResult(callId, result) =>
        var position := Find(openCalls, callId);
        if position < |openCalls| {
          openCalls := openCalls[..position] + openCalls[position + 1..];
        }
        if e.approvalRequest.Some? && e.approvalIndex.Some? {
          state := state.(toolResults := state.toolResults
            + [Projection(|state.messages|, e.approvalRequest.value, e.approvalIndex.value)]);
        }
        state := state.(messages := state.messages + [ToolMessage(callId, result, e.error.Some?)]);
      case EvalScore(score) =>
        state := state.(scores := state.scores + [score]);
      case RunFinished(turns) =>
        state := state.(finished := Some(FinishRecord(turns, e.failed, e.error)));
    }
  }

  method LatestResponseAnchor(events: seq<Event>) returns (latest: Option<(nat, nat)>)
    ensures latest == Anchor(events)
  {
    hide Replay, Ids, Started;
    EmptyLog();
    assert events[..0] == [];
    var seen: set<string> := {};
    var started := false;
    var count: nat := 0;
    latest := None;
    var i := 0;
    while i < |events|
      invariant 0 <= i <= |events|
      invariant seen == Ids(events[..i]) && started == Started(events[..i])
      invariant Walk(count, latest) == Walked(events[..i])
    {
      var e := events[i];
      Snoc(events, i);
      ReplaySnoc(events, i);
      i := i + 1;
      if e.id in seen { continue; }
      seen := seen + {e.id};
      match e.kind {
        case Issued(command) =>
          match command {
            case StartRun(base) =>
              if started { continue; }
              started := true;
              count, latest := |base|, None;
            case Steer(_) => count := count + 1;
            case _ =>
          }
        case LlmResponse(_, _) =>
          latest := if e.turn.Some? then Some((e.turn.value, count)) else None;
          count := count + 1;
        case InstructionInjected(_, _) => count := count + 1;
        case ToolResult(_, _) => count := count + 1;
        case _ =>
      }
    }
    assert events[..|events|] == events;
  }
}
