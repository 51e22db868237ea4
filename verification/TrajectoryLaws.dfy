/** What the log fold promises: tolerance of duplicates, stable message indices,
    agreement of the two walks, and an honest record of dangling calls. */
module TrajectoryLaws {
  import opened Prelude
  import opened Contract
  import opened Trajectory

  lemma {:induction false} ReplayAppend(log: seq<Event>, e: Event)
    ensures Replay(log + [e])
         == var s := if log == [] then BLANK.(traceId := e.traceId) else Replay(log);
            if Counts(log, e) then Apply(s, e) else s
    ensures Walked(log + [e]) == if Counts(log, e) then Advance(Walked(log), e) else Walked(log)
    ensures Started(log + [e]) <==> Started(log) || (IsStart(e) && e.id !in Ids(log))
  {
    assert (log + [e])[..|log|] == log;
  }

  // ------------------------------------------------------- the two walks agree

  /** Position in the log of the response the anchor names: the last one that
      counts since the start. */
  function LastResponse(events: seq<Event>): (k: Option<nat>)
    ensures k.Some? ==> k.value < |events| && events[k.value].kind.LlmResponse?
  {
    if events == [] then None
    else
      var n := |events| - 1;
      if !Counts(events[..n], events[n]) then LastResponse(events[..n])
      else if IsStart(events[n]) then None
      else if events[n].kind.LlmResponse? then Some(n)
      else LastResponse(events[..n])
  }

  /** `i` is where the fold put the message of the response at position `k`. */
  predicate PlacedAt(events: seq<Event>, k: nat, i: nat) {
    && k < |events| && events[k].kind.LlmResponse?
    && i == |Replay(events[..k]).messages|
    && i < |Replay(events).messages|
    && Replay(events).messages[i] == events[k].kind.message
  }

  /** The anchor walk and the fold agree on every log: the count is the fold's
      message count, and the anchor is exactly the last response with its turn,
      at the index where the fold put that response's message. */
  lemma {:induction false} AnchorAgrees(events: seq<Event>)
    ensures Walked(events).count == |Replay(events).messages|
    ensures LastResponse(events).None? ==> Anchor(events) == None
    ensures LastResponse(events).Some? ==>
              var k := LastResponse(events).value;
              if events[k].turn.None? then Anchor(events) == None
              else Anchor(events).Some? && Anchor(events).value.0 == events[k].turn.value
                   && PlacedAt(events, k, Anchor(events).value.1)
    decreases |events|
  {
    hide Counts, Replay, Walked, Apply, Advance;
    NoEvents();
    if events != [] {
      var n := |events| - 1;
      var log, e := events[..n], events[n];
      var s := if log == [] then BLANK.(traceId := e.traceId) else Replay(log);
      AnchorAgrees(log);
      assert events == log + [e];
      ReplayAppend(log, e);
      ApplyAdvances(s, Walked(log), e);
      if LastResponse(events).Some? {
        var k := LastResponse(events).value;
        if k < n { assert events[..k] == log[..k] && events[k] == log[k]; }
      }
    }
  }

  /** One event, on the fold and on the walk beside it. */
  lemma {:induction false} ApplyAdvances(s: RunState, w: Walk, e: Event)
    requires w.count == |s.messages|
    ensures Advance(w, e).count == |Apply(s, e).messages|
    ensures IsStart(e) ==> Advance(w, e).latest == None
    ensures !IsStart(e) ==> s.messages <= Apply(s, e).messages
    ensures e.kind.LlmResponse? ==>
              Apply(s, e).messages == s.messages + [e.kind.message]
              && Advance(w, e).latest == (if e.turn.Some? then Some((e.turn.value, w.count)) else None)
    ensures !IsStart(e) && !e.kind.LlmResponse? ==> Advance(w, e).latest == w.latest
  {
    hide InjectedText, RemoveFirst;
  }

  lemma {:induction false} NoEvents()
    ensures Replay([]).messages == [] && Walked([]) == Walk(0, None)
  {
  }

  /** Once started, the history only grows: an index handed out stays valid. */
  lemma {:induction false} MessagesGrow(log: seq<Event>, more: seq<Event>)
    requires Started(log)
    ensures Replay(log).messages <= Replay(log + more).messages
    ensures Started(log + more)
    decreases |more|
  {
    hide Replay, Started, InjectedText;
    if more == [] {
      assert log + more == log;
    } else {
      var init, e := more[..|more| - 1], more[|more| - 1];
      MessagesGrow(log, init);
      assert log + more == (log + init) + [e];
      ReplayAppend(log + init, e);
      EmptyLog();
    }
  }

  /** A request anchored once keeps naming the same message, whatever follows. */
  lemma {:induction false} AnchorStays(log: seq<Event>, more: seq<Event>)
    requires Started(log) && Anchor(log).Some?
    ensures LastResponse(log).Some?
    ensures PlacedAt(log + more, LastResponse(log).value, Anchor(log).value.1)
  {
    AnchorAgrees(log);
    var k := LastResponse(log).value;
    assert (log + more)[..k] == log[..k];
    MessagesGrow(log, more);
  }

  // ----------------------------------------------------------------- duplicates

  /** First occurrences only: what the transport's list of events keeps. */
  function Dedup(events: seq<Event>): seq<Event> {
    if events == [] then []
    else
      var log, e := events[..|events| - 1], events[|events| - 1];
      if e.id in Ids(log) then Dedup(log) else Dedup(log) + [e]
  }

  lemma {:induction false} DedupIds(events: seq<Event>)
    ensures Ids(Dedup(events)) == Ids(events) && Started(Dedup(events)) == Started(events)
    decreases |events|
  {
    hide Ids;
    if events == [] {
    } else {
      var log, e := events[..|events| - 1], events[|events| - 1];
      DedupIds(log);
      assert events == log + [e];
      IdsSnoc(log, e);
      if e.id !in Ids(log) {
        IdsSnoc(Dedup(log), e);
        ReplayAppend(Dedup(log), e);
      }
      ReplayAppend(log, e);
    }
  }

  /** Folding the deduplicated list is folding everything published. */
  lemma {:induction false} DedupFolds(events: seq<Event>)
    ensures Replay(Dedup(events)) == Replay(events) && Walked(Dedup(events)) == Walked(events)
    ensures events != [] ==> Dedup(events) != [] && Dedup(events)[0] == events[0]
    decreases |events|
  {
    hide Ids, Apply, Advance, Started;
    if events != [] {
      var log, e := events[..|events| - 1], events[|events| - 1];
      DedupFolds(log);
      DedupIds(log);
      assert events == log + [e];
      ReplayAppend(log, e);
      ReplayAppend(Dedup(log), e);
      if log == [] { EmptyLog(); }
    }
  }

  /** A duplicate inserted anywhere after its first occurrence is invisible. */
  lemma {:induction false} DuplicateInvisible(a: seq<Event>, e: Event, b: seq<Event>)
    requires e.id in Ids(a)
    ensures Replay(a + [e] + b) == Replay(a + b)
    ensures Anchor(a + [e] + b) == Anchor(a + b)
    ensures Walked(a + [e] + b) == Walked(a + b)
    ensures Ids(a + [e] + b) == Ids(a + b) && Started(a + [e] + b) == Started(a + b)
    decreases |b|
  {
    hide Ids, Apply, Advance, Started, Replay, Walked;
    EmptyLog();
    if b == [] {
      assert a + [e] + b == a + [e] && a + b == a;
      ReplayAppend(a, e);
      IdsSnoc(a, e);
    } else {
      var init, x := b[..|b| - 1], b[|b| - 1];
      DuplicateInvisible(a, e, init);
      assert a + [e] + b == (a + [e] + init) + [x] && a + b == (a + init) + [x];
      ReplayAppend(a + [e] + init, x);
      ReplayAppend(a + init, x);
      IdsSnoc(a + [e] + init, x);
      IdsSnoc(a + init, x);
    }
  }

  // ---------------------------------------------------------------- projections

  /** Projected indices strictly increase and point at tool messages. */
  predicate ProjectionsOk(s: RunState) {
    && (forall i :: 0 <= i < |s.toolResults| ==>
          s.toolResults[i].messageIndex < |s.messages| && s.messages[s.toolResults[i].messageIndex].role == Tool)
    && (forall i, j :: 0 <= i < j < |s.toolResults| ==>
          s.toolResults[i].messageIndex < s.toolResults[j].messageIndex)
  }

  lemma {:induction false} ApplyProjects(s: RunState, e: Event)
    requires ProjectionsOk(s)
    ensures ProjectionsOk(Apply(s, e))
  {
    hide InjectedText, RemoveFirst;
  }

  lemma {:induction false} ProjectionsHold(events: seq<Event>)
    ensures ProjectionsOk(Replay(events))
    decreases |events|
  {
    hide Apply, ProjectionsOk, Counts;
    if events == [] {
      BlankProjects(BLANK.traceId);
    } else {
      var log, e := events[..|events| - 1], events[|events| - 1];
      ProjectionsHold(log);
      BlankProjects(e.traceId);
      var s := if log == [] then BLANK.(traceId := e.traceId) else Replay(log);
      ApplyProjects(s, e);
    }
  }

  lemma {:induction false} BlankProjects(id: string)
    ensures ProjectionsOk(BLANK.(traceId := id)) && BLANK.(traceId := BLANK.traceId) == BLANK
  {
  }

  // ------------------------------------------------------------- dangling calls

  /** Calls opened minus results seen for one id, never below zero. */
  function Outstanding(events: seq<Event>, id: string): nat {
    if events == [] then 0
    else
      var log, e := events[..|events| - 1], events[|events| - 1];
      var n := Outstanding(log, id);
      if !Counts(log, e) then n
      else if e.kind.CallOpened? && e.kind.call.id == id then n + 1
      else if e.kind.ToolResult? && e.kind.callId == id && n > 0 then n - 1
      else n
  }

  /** The ids of the calls that count, in the order they opened. */
  function CallsOpened(events: seq<Event>): seq<string> {
    if events == [] then []
    else
      var log, e := events[..|events| - 1], events[|events| - 1];
      if Counts(log, e) && e.kind.CallOpened? then CallsOpened(log) + [e.kind.call.id] else CallsOpened(log)
  }

  predicate Subsequence(a: seq<string>, b: seq<string>) {
    a == [] || (b != [] && ((a[0] == b[0] && Subsequence(a[1..], b[1..])) || Subsequence(a, b[1..])))
  }

  lemma {:induction false} SubsequenceTail(a: seq<string>, b: seq<string>)
    requires Subsequence(a, b) && a != []
    ensures Subsequence(a[1..], b)
    decreases |b|
  {
    if a[1..] != [] && !(a[0] == b[0] && Subsequence(a[1..], b[1..])) {
      SubsequenceTail(a, b[1..]);
    }
  }

  lemma {:induction false} SubsequenceSnoc(a: seq<string>, b: seq<string>, x: string)
    requires Subsequence(a, b)
    ensures Subsequence(a + [x], b + [x]) && Subsequence(a, b + [x])
    decreases |b|
  {
    if b == [] {
      assert ([x] + [])[1..] == [] && (a + [x])[1..] == [];
    } else {
      assert (b + [x])[1..] == b[1..] + [x];
      if a == [] {
        SubsequenceSnoc([], b[1..], x);
        assert a + [x] == [] + [x];
      } else {
        assert (a + [x])[1..] == a[1..] + [x];
        if a[0] == b[0] && Subsequence(a[1..], b[1..]) {
          SubsequenceSnoc(a[1..], b[1..], x);
        } else {
          SubsequenceSnoc(a, b[1..], x);
        }
      }
    }
  }

  lemma {:induction false} RemoveKeepsOrder(a: seq<string>, x: string, b: seq<string>)
    requires Subsequence(a, b)
    ensures Subsequence(RemoveFirst(a, x), b)
    decreases |b|
  {
    hide RemoveFirst;
    RemoveCons(a, x);
    if a != [] {
      if a[0] == x {
        SubsequenceTail(a, b);
      } else if a[0] == b[0] && Subsequence(a[1..], b[1..]) {
        RemoveKeepsOrder(a[1..], x, b[1..]);
        assert RemoveFirst(a, x)[1..] == RemoveFirst(a[1..], x);
      } else {
        RemoveKeepsOrder(a, x, b[1..]);
      }
    }
  }

  lemma {:induction false} RemoveCons(a: seq<string>, x: string)
    ensures RemoveFirst(a, x) == if a == [] then [] else if a[0] == x then a[1..] else [a[0]] + RemoveFirst(a[1..], x)
  {
    if a != [] && a[0] != x {
      var rest := a[1..];
      var k := Find(rest, x);
      assert Find(a, x) == k + 1;
      hide Find;
      if k < |rest| { DropFurther(a, k); } else { assert a == [a[0]] + rest; }
    }
  }

  lemma {:induction false} DropFurther(a: seq<string>, k: nat)
    requires k + 1 < |a|
    ensures a[..k + 1] + a[k + 2..] == [a[0]] + (a[1..][..k] + a[1..][k + 1..])
  {
  }

  lemma {:induction false} RemoveCounts(a: seq<string>, x: string, id: string)
    ensures multiset(RemoveFirst(a, x))[id]
         == if id == x && multiset(a)[id] > 0 then multiset(a)[id] - 1 else multiset(a)[id]
  {
    var k := Find(a, x);
    if k < |a| {
      assert a == a[..k] + [a[k]] + a[k + 1..];
    } else {
      assert x !in a;
    }
  }

  /** Per id, the dangling calls are exactly the clipped counter. */
  lemma {:induction false} ApplyCounts(s: RunState, e: Event, id: string)
    ensures multiset(Apply(s, e).openCalls)[id]
         == match e.kind
            case CallOpened(call) => multiset(s.openCalls)[id] + (if call.id == id then 1 else 0)
            case ToolResult(callId, _) =>
              if callId == id && multiset(s.openCalls)[id] > 0 then multiset(s.openCalls)[id] - 1 else multiset(s.openCalls)[id]
            case _ => multiset(s.openCalls)[id]
  {
    hide InjectedText, RemoveFirst;
    if e.kind.ToolResult? { RemoveCounts(s.openCalls, e.kind.callId, id); }
  }

  lemma {:induction false} DanglingCount(events: seq<Event>, id: string)
    ensures multiset(Replay(events).openCalls)[id] == Outstanding(events, id)
    decreases |events|
  {
    hide Counts, Replay, Apply;
    if events == [] {
      NothingDangles();
    } else {
      var log, e := events[..|events| - 1], events[|events| - 1];
      DanglingCount(log, id);
      NothingDangles();
      ReplayAppend(log, e);
      assert log + [e] == events;
      ApplyCounts(if log == [] then BLANK.(traceId := e.traceId) else Replay(log), e, id);
    }
  }

  lemma {:induction false} NothingDangles()
    ensures Replay([]).openCalls == []
  {
  }

  /** Dangling calls are a subsequence of the calls in opening order. */
  lemma {:induction false} DanglingOrder(events: seq<Event>)
    ensures Subsequence(Replay(events).openCalls, CallsOpened(events))
    decreases |events|
  {
    hide Counts, InjectedText, RemoveFirst;
    if events != [] {
      var log, e := events[..|events| - 1], events[|events| - 1];
      DanglingOrder(log);
      var open := Replay(log).openCalls;
      match e.kind {
        case CallOpened(call) => SubsequenceSnoc(open, CallsOpened(log), call.id);
        case ToolResult(callId, _) => RemoveKeepsOrder(open, callId, CallsOpened(log));
        case _ =>
      }
    }
  }
}
