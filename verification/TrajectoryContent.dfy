/**
 What the fold says, event by event: which message stands where, and every other field
 as a plain reading of the events that count.
 */
module TrajectoryContent {
  import opened Prelude
  import opened Contract
  import opened Arguments
  import opened Trajectory
  import opened TrajectoryLaws

  // ---------------------------------------------------------- which events count

  predicate Fresh(log: seq<Event>, e: Event) {
    forall i :: 0 <= i < |log| ==> log[i].id != e.id
  }

  /** Position `k` holds a start that is no duplicate. */
  predicate StartsAt(log: seq<Event>, k: nat) {
    k < |log| && IsStart(log[k]) && Fresh(log[..k], log[k])
  }

  ghost predicate HasStart(log: seq<Event>) {
    exists k :: StartsAt(log, k)
  }

  lemma {:induction false} StartedMeans(log: seq<Event>)
    ensures Started(log) <==> HasStart(log)
    decreases |log|
  {
    if log != [] {
      var n := |log| - 1;
      StartedMeans(log[..n]);
      if Started(log[..n]) {
        var k: nat :| StartsAt(log[..n], k);
        assert log[..n][..k] == log[..k] && StartsAt(log, k);
      } else if Started(log) {
        assert StartsAt(log, n);
      } else if k: nat :| StartsAt(log, k) {
        if k < n { assert log[..n][..k] == log[..k] && StartsAt(log[..n], k); }
      }
    }
  }

  /** An event counts unless its id was seen or it starts a run already started. */
  lemma {:induction false} CountsMeans(log: seq<Event>, e: Event)
    ensures Counts(log, e) <==> Fresh(log, e) && !(IsStart(e) && HasStart(log))
  {
    StartedMeans(log);
  }

  function Counted(events: seq<Event>): seq<Event> {
    if events == [] then []
    else
      var log, e := events[..|events| - 1], events[|events| - 1];
      Counted(log) + (if Counts(log, e) then [e] else [])
  }

  // ------------------------------------------------------------------ the messages

  const INJECTED := "Entered a new subtree; its instruction file now applies (nearest-file precedence):\n\n## "

  /** The message one event adds to the history. */
  ghost function MessageOf(e: Event): Option<Message> {
    match e.kind
    case Issued(Steer(text)) => Some(Message(User, [TextPart(text)], None, false, None))
    case InstructionInjected(path, content) =>
      Some(Message(User, [TextPart(INJECTED + path + "\n\n" + (if AllSpace(content) then "" else CoreOf(content)))], None, false, None))
    case LlmResponse(message, _) => Some(message)
    case ToolResult(callId, result) => Some(Message(Tool, [ResultPart(result)], Some(callId), e.error.Some?, None))
    case _ => None
  }

  /** Where the history begins anew: right after the start that took effect. */
  function Since(events: seq<Event>): nat {
    if events == [] then 0
    else
      var n := |events| - 1;
      if Counts(events[..n], events[n]) && IsStart(events[n]) then n + 1 else Since(events[..n])
  }

  function BaseOf(events: seq<Event>): seq<Message> {
    if events == [] then []
    else
      var n := |events| - 1;
      if Counts(events[..n], events[n]) && IsStart(events[n]) then events[n].kind.command.base else BaseOf(events[..n])
  }

  ghost predicate Bears(events: seq<Event>, k: nat)
    requires k < |events|
  {
    Counts(events[..k], events[k]) && MessageOf(events[k]).Some?
  }

  /** How many messages the events from `from` to before `k` add. */
  ghost function Bearing(events: seq<Event>, from: nat, k: nat): nat
    requires k <= |events|
  {
    if k <= from then 0 else Bearing(events, from, k - 1) + (if Bears(events, k - 1) then 1 else 0)
  }

  lemma {:induction false} SinceWithin(events: seq<Event>)
    ensures Since(events) <= |events|
    ensures Since(events) > 0 ==> StartsAt(events, Since(events) - 1) && BaseOf(events) == events[Since(events) - 1].kind.command.base
    ensures Since(events) == 0 ==> BaseOf(events) == [] && !HasStart(events)
    decreases |events|
  {
    hide Started;
    if events != [] {
      var n := |events| - 1;
      var log := events[..n];
      SinceWithin(log);
      CountsMeans(log, events[n]);
      if Counts(log, events[n]) && IsStart(events[n]) {
        assert StartsAt(events, n);
      } else if Since(log) > 0 {
        assert log[..Since(log) - 1] == events[..Since(log) - 1];
      } else {
        forall k: nat ensures !StartsAt(events, k) {
          assert k < n ==> log[..k] == events[..k] && log[k] == events[k];
          assert !StartsAt(log, k);
        }
      }
    }
  }

  lemma {:induction false} BearingPrefix(events: seq<Event>, from: nat, k: nat, n: nat)
    requires k <= n <= |events|
    ensures Bearing(events[..n], from, k) == Bearing(events, from, k)
    decreases k
  {
    hide Bears;
    if k > from {
      BearingPrefix(events, from, k - 1, n);
      BearsPrefix(events, k - 1, n);
    }
  }

  lemma {:induction false} BearsPrefix(events: seq<Event>, k: nat, n: nat)
    requires k < n <= |events|
    ensures Bears(events[..n], k) == Bears(events, k)
  {
    hide Counts, MessageOf;
    assert events[..n][..k] == events[..k];
  }

  lemma {:induction false} ApplySays(s: RunState, e: Event)
    ensures Apply(s, e).messages ==
              if IsStart(e) then e.kind.command.base
              else s.messages + (if MessageOf(e).Some? then [MessageOf(e).value] else [])
    ensures IsStart(e) ==> MessageOf(e).None?
  {
    hide RemoveFirst, InjectedText, CoreOf, AllSpace;
    assert s.messages + [] == s.messages;
    if e.kind.InstructionInjected? { InjectedReads(e.kind.path, e.kind.content); }
  }

  lemma {:induction false} InjectedReads(path: string, content: string)
    ensures InjectedText(path, content) == INJECTED + path + "\n\n" + (if AllSpace(content) then "" else CoreOf(content))
  {
    hide Trim, AllSpace, CoreOf, CoreAt;
    TrimReads(content);
  }

  /** `messages` is `base`, then one message for each bearing event from `from` on, in
      order, and nothing else. */
  ghost predicate Told(messages: seq<Message>, events: seq<Event>, base: seq<Message>, from: nat) {
    && from <= |events|
    && |messages| == |base| + Bearing(events, from, |events|)
    && messages[..|base|] == base
    && forall k :: from <= k < |events| && Bears(events, k) ==>
         |base| + Bearing(events, from, k) < |messages|
         && messages[|base| + Bearing(events, from, k)] == MessageOf(events[k]).value
  }

  lemma {:induction false} ToldNext(messages: seq<Message>, events: seq<Event>, base: seq<Message>, from: nat)
    requires events != [] && Told(messages, events[..|events| - 1], base, from)
    ensures var n := |events| - 1;
            Told(messages + (if Bears(events, n) then [MessageOf(events[n]).value] else []), events, base, from)
  {
    hide Counts, MessageOf, Bearing;
    var n := |events| - 1;
    var log := events[..n];
    MessagesNext(events, from);
    var more := if Bears(events, n) then [MessageOf(events[n]).value] else [];
    var after := messages + more;
    assert after[..|base|] == base;
    forall k | from <= k < |events| && Bears(events, k)
      ensures |base| + Bearing(events, from, k) < |after|
      ensures after[|base| + Bearing(events, from, k)] == MessageOf(events[k]).value
    {
      if k < n {
        assert Bears(log, k) && log[k] == events[k];
        assert after[|base| + Bearing(log, from, k)] == messages[|base| + Bearing(log, from, k)];
      } else {
        assert after[|messages|] == more[0];
      }
    }
  }

  lemma {:induction false} ToldAnew(events: seq<Event>, base: seq<Message>)
    ensures Told(base, events, base, |events|)
  {
  }

  lemma {:induction false} SinceNext(events: seq<Event>)
    requires events != []
    ensures var n := |events| - 1;
            var starts := Counts(events[..n], events[n]) && IsStart(events[n]);
            && Since(events) == (if starts then |events| else Since(events[..n]))
            && BaseOf(events) == (if starts then events[n].kind.command.base else BaseOf(events[..n]))
  {
    hide Counts;
  }

  lemma {:induction false} NothingTold()
    ensures Told(Replay([]).messages, [], BaseOf([]), Since([]))
  {
  }

  /** The state the last event finds. */
  function Prior(events: seq<Event>): RunState
    requires events != []
  {
    var log := events[..|events| - 1];
    if log == [] then BLANK.(traceId := events[0].traceId) else Replay(log)
  }

  lemma {:induction false} ReplayNext(events: seq<Event>)
    requires events != []
    ensures var n := |events| - 1;
            Replay(events) == if Counts(events[..n], events[n]) then Apply(Prior(events), events[n]) else Prior(events)
    ensures var log := events[..|events| - 1];
            && Prior(events).messages == Replay(log).messages && Prior(events).toolResults == Replay(log).toolResults
            && Prior(events).(traceId := Replay(log).traceId) == Replay(log)
            && Prior(events).traceId == (if log == [] then events[0].traceId else Replay(log).traceId)
  {
    hide Counts, Apply;
    var n := |events| - 1;
    ReplayAppend(events[..n], events[n]);
    assert events == events[..n] + [events[n]];
  }

  /** The whole history: the base of the start that took effect, then one message for
      each event after it that counts and bears one, in order, and nothing else. */
  lemma {:induction false} MessagesAre(events: seq<Event>)
    ensures Told(Replay(events).messages, events, BaseOf(events), Since(events))
    decreases |events|
  {
    hide Counts, Replay, Apply, MessageOf, Told, Since, BaseOf, Prior;
    if events == [] {
      NothingTold();
    } else {
      var n := |events| - 1;
      var log, e := events[..n], events[n];
      MessagesAre(log);
      ReplayNext(events);
      SinceNext(events);
      ApplySays(Prior(events), e);
      if Counts(log, e) && IsStart(e) {
        ToldAnew(events, e.kind.command.base);
      } else {
        ToldNext(Replay(log).messages, events, BaseOf(log), Since(log));
        assert Replay(log).messages + [] == Replay(log).messages;
      }
    }
  }

  lemma {:induction false} MessagesNext(events: seq<Event>, from: nat)
    requires events != [] && from <= |events| - 1
    ensures var n, log := |events| - 1, events[..|events| - 1];
            && Bearing(events, from, |events|) == Bearing(log, from, n) + (if Bears(events, n) then 1 else 0)
            && Bearing(events, from, n) == Bearing(log, from, n)
            && forall k :: from <= k < n ==>
                 Bears(events, k) == Bears(log, k) && Bearing(events, from, k) == Bearing(log, from, k)
  {
    hide Bears;
    var n, log := |events| - 1, events[..|events| - 1];
    BearingPrefix(events, from, n, n);
    forall k | from <= k < n
      ensures Bears(events, k) == Bears(log, k) && Bearing(events, from, k) == Bearing(log, from, k)
    {
      BearsPrefix(events, k, n);
      BearingPrefix(events, from, k, n);
    }
  }

  // ---------------------------------------------------------------- the other fields

  /** Where the result of an approved call stands, with its own request and position. */
  ghost function ProjectionOf(events: seq<Event>, from: nat, base: nat, k: nat): seq<Projection>
    requires k < |events|
  {
    var e := events[k];
    if Counts(events[..k], e) && e.kind.ToolResult? && e.approvalRequest.Some? && e.approvalIndex.Some?
    then [Projection(base + Bearing(events, from, k), e.approvalRequest.value, e.approvalIndex.value)] else []
  }

  ghost function Projected(events: seq<Event>, from: nat, base: nat, n: nat): seq<Projection>
    requires n <= |events|
  {
    if n <= from then [] else Projected(events, from, base, n - 1) + ProjectionOf(events, from, base, n - 1)
  }

  lemma {:induction false} ProjectionPrefix(events: seq<Event>, from: nat, base: nat, k: nat, n: nat)
    requires k < n <= |events|
    ensures ProjectionOf(events[..n], from, base, k) == ProjectionOf(events, from, base, k)
  {
    hide Counts, Bearing;
    BearingPrefix(events, from, k, n);
    assert events[..n][..k] == events[..k] && events[..n][k] == events[k];
  }

  lemma {:induction false} ProjectedPrefix(events: seq<Event>, from: nat, base: nat, k: nat, n: nat)
    requires k <= n <= |events|
    ensures Projected(events[..n], from, base, k) == Projected(events, from, base, k)
    decreases k
  {
    hide ProjectionOf;
    if k > from {
      ProjectedPrefix(events, from, base, k - 1, n);
      ProjectionPrefix(events, from, base, k - 1, n);
    }
  }

  lemma {:induction false} ProjectedNext(events: seq<Event>, from: nat, base: nat)
    requires events != [] && from <= |events| - 1
    ensures var n, log := |events| - 1, events[..|events| - 1];
            var e := events[n];
            Projected(events, from, base, |events|) == Projected(log, from, base, n)
              + (if Counts(log, e) && e.kind.ToolResult? && e.approvalRequest.Some? && e.approvalIndex.Some?
                 then [Projection(base + Bearing(log, from, n), e.approvalRequest.value, e.approvalIndex.value)] else [])
    ensures Projected(events[..|events| - 1], from, base, |events| - 1) + [] == Projected(events[..|events| - 1], from, base, |events| - 1)
  {
    hide Counts, Bearing;
    var n := |events| - 1;
    ProjectedPrefix(events, from, base, n, n);
    BearingPrefix(events, from, n, n);
  }

  lemma {:induction false} NoneProjected(events: seq<Event>, base: nat)
    ensures Projected(events, |events|, base, |events|) == []
  {
  }

  lemma {:induction false} ToldLength(messages: seq<Message>, events: seq<Event>, base: seq<Message>, from: nat)
    requires Told(messages, events, base, from)
    ensures from <= |events| && |messages| == |base| + Bearing(events, from, |events|)
  {
  }

  lemma {:induction false} ProjectionsAre(events: seq<Event>)
    ensures Since(events) <= |events|
    ensures Replay(events).toolResults == Projected(events, Since(events), |BaseOf(events)|, |events|)
    decreases |events|
  {
    hide Counts, Replay, Apply, MessageOf, Bearing, Projected, Since, BaseOf, Prior, Told;
    MessagesAre(events);
    ToldLength(Replay(events).messages, events, BaseOf(events), Since(events));
    if events == [] {
      NothingProjected();
    } else {
      var n := |events| - 1;
      var log, e := events[..n], events[n];
      ProjectionsAre(log);
      MessagesAre(log);
      ToldLength(Replay(log).messages, log, BaseOf(log), Since(log));
      ReplayNext(events);
      SinceNext(events);
      ApplyProjected(Prior(events), e);
      if Counts(log, e) && IsStart(e) {
        NoneProjected(events, |e.kind.command.base|);
      } else {
        ProjectedNext(events, Since(log), |BaseOf(log)|);
      }
    }
  }

  lemma {:induction false} NothingProjected()
    ensures Replay([]).toolResults == [] && Projected([], Since([]), |BaseOf([])|, 0) == []
  {
  }

  lemma {:induction false} ApplyProjected(s: RunState, e: Event)
    ensures Apply(s, e).toolResults ==
              if IsStart(e) then []
              else s.toolResults
                   + (if e.kind.ToolResult? && e.approvalRequest.Some? && e.approvalIndex.Some?
                      then [Projection(|s.messages|, e.approvalRequest.value, e.approvalIndex.value)] else [])
  {
    hide RemoveFirst, InjectedText;
    assert s.toolResults + [] == s.toolResults;
  }

  function Answered(events: seq<Event>): nat {
    if events == [] then 0
    else
      var last := events[|events| - 1];
      Answered(events[..|events| - 1]) + (if last.kind.LlmResponse? && !last.failed then 1 else 0)
  }

  function Warned(events: seq<Event>): seq<string> {
    if events == [] then []
    else
      var last := events[|events| - 1];
      Warned(events[..|events| - 1]) + (if last.kind.LlmResponse? then last.kind.warnings else [])
  }

  function Scored(events: seq<Event>): seq<string> {
    if events == [] then []
    else
      var last := events[|events| - 1];
      Scored(events[..|events| - 1]) + (if last.kind.EvalScore? then [last.kind.score] else [])
  }

  function LastFinish(events: seq<Event>): Option<FinishRecord> {
    if events == [] then None
    else
      var last := events[|events| - 1];
      if last.kind.RunFinished? then Some(FinishRecord(last.kind.turns, last.failed, last.error))
      else LastFinish(events[..|events| - 1])
  }

  lemma {:induction false} CountedNext(events: seq<Event>)
    requires events != []
    ensures var n := |events| - 1;
            var c, e := Counted(events[..n]), events[n];
            Counted(events) == (if Counts(events[..n], e) then c + [e] else c)
    ensures var n := |events| - 1;
            var c, e := Counted(events[..n]), events[n];
            && Answered(c + [e]) == Answered(c) + (if e.kind.LlmResponse? && !e.failed then 1 else 0)
            && Warned(c + [e]) == Warned(c) + (if e.kind.LlmResponse? then e.kind.warnings else [])
            && Scored(c + [e]) == Scored(c) + (if e.kind.EvalScore? then [e.kind.score] else [])
            && LastFinish(c + [e]) == (if e.kind.RunFinished? then Some(FinishRecord(e.kind.turns, e.failed, e.error)) else LastFinish(c))
  {
    hide Counts;
    var n := |events| - 1;
    var c, e := Counted(events[..n]), events[n];
    assert (c + [e])[..|c|] == c && c + [] == c;
  }

  /** Turns are the responses that did not fail, warnings and scores are all of theirs in
      order, the finish is the last one recorded, provider and model are the start's, the
      trace the first event's. */
  lemma {:induction false} FieldsAre(events: seq<Event>)
    ensures var s, counted := Replay(events), Counted(events);
            && s.turns == Answered(counted) && s.warnings == Warned(counted) && s.scores == Scored(counted)
            && s.finished == LastFinish(counted)
            && s.traceId == (if events == [] then "" else events[0].traceId)
    ensures Since(events) <= |events|
    ensures var s, from := Replay(events), Since(events);
            if from == 0 then s.provider == None && s.model == None
            else s.provider == events[from - 1].provider && s.model == events[from - 1].model
    decreases |events|
  {
    hide Counts, Replay, Apply, Counted, Answered, Warned, Scored, LastFinish, Since, Prior;
    NothingFolded();
    if events != [] {
      FieldsAre(events[..|events| - 1]);
      ReplayNext(events);
      SinceNext(events);
      CountedNext(events);
      ApplyFields(Prior(events), events[|events| - 1]);
    }
  }

  lemma {:induction false} NothingFolded()
    ensures Replay([]) == BLANK && Since([]) == 0 && Counted([]) == [] && Answered([]) == 0 && Warned([]) == [] && Scored([]) == []
    ensures LastFinish([]) == None
  {
  }

  lemma {:induction false} ApplyFields(s: RunState, e: Event)
    ensures var u := Apply(s, e);
            && u.traceId == s.traceId
            && u.turns == s.turns + (if e.kind.LlmResponse? && !e.failed then 1 else 0)
            && u.warnings == s.warnings + (if e.kind.LlmResponse? then e.kind.warnings else [])
            && u.scores == s.scores + (if e.kind.EvalScore? then [e.kind.score] else [])
            && u.finished == (if e.kind.RunFinished? then Some(FinishRecord(e.kind.turns, e.failed, e.error)) else s.finished)
            && u.provider == (if IsStart(e) then e.provider else s.provider)
            && u.model == (if IsStart(e) then e.model else s.model)
  {
    hide RemoveFirst, InjectedText;
    assert s.warnings + [] == s.warnings && s.scores + [] == s.scores;
  }
}
