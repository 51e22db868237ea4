/**
 What an attach hands out, field by field, for every stream: the open turn as it looks
 live, the open and the settled approvals, the provisional outcomes, the position.
 */
module HandshakeLaws {
  import opened Prelude
  import opened Contract
  import opened StableSort
  import opened Arguments
  import opened AssemblerLaws
  import opened Transport
  import opened ApprovalLaws
  import A = Assembler
  import T = Trajectory
  import L = TrajectoryLaws

  // --------------------------------------------------------------- the open turn

  lemma {:induction false} KeyedOpenOf(partials: map<nat, A.Partial>, keys: seq<nat>, i: nat)
    requires forall k :: 0 <= k < |keys| ==> keys[k] in partials
    requires forall j, k :: 0 <= j < k < |keys| ==> keys[j] < keys[k]
    ensures Keyed(A.OpenOf(partials, keys), i)
         == if i in keys then [A.Open(partials[i].id, partials[i].name, partials[i].args)] else []
    decreases |keys|
  {
    hide A.OpenOf, Keyed;
    if keys == [] {
      KeyedNone<A.CallState>(i);
    } else {
      var init, last := keys[..|keys| - 1], keys[|keys| - 1];
      KeyedOpenOf(partials, init, i);
      var x := (last, A.Open(partials[last].id, partials[last].name, partials[last].args));
      assert A.OpenOf(partials, keys) == A.OpenOf(partials, init) + [x];
      KeyedSnoc(A.OpenOf(partials, init), x, i);
      LastKey(keys, i);
    }
  }

  lemma {:induction false} KeyedNone<T>(i: nat)
    ensures Keyed<T>([], i) == []
  {
  }

  lemma {:induction false} LastKey(keys: seq<nat>, i: nat)
    requires keys != [] && forall j, k :: 0 <= j < k < |keys| ==> keys[j] < keys[k]
    ensures var init, last := keys[..|keys| - 1], keys[|keys| - 1];
            && (i in keys <==> i in init || i == last)
            && !(i in init && i == last)
  {
    assert keys == keys[..|keys| - 1] + [keys[|keys| - 1]];
  }

  /** A live view shows, index by index, the sealed calls and then the open one. */
  lemma {:induction false} SnapshotLanes(t: A.Turn, i: nat)
    ensures var calls := A.Snapshot(t).calls;
            && Sorted(calls)
            && Keyed(calls, i) == Sealeds(Keyed(t.completed, i))
                 + (if i in t.partials then [A.Open(t.partials[i].id, t.partials[i].name, t.partials[i].args)] else [])
  {
    hide Keyed, SortByIndex, Sealeds;
    var sealed, open := A.SealedOf(t.completed), A.OpenOf(t.partials, A.OpenKeys(t));
    SortKeeps(sealed + open, i);
    KeyedConcat(sealed, open, i);
    KeyedSealed(t.completed, i);
    KeyedOpenOf(t.partials, A.OpenKeys(t), i);
  }

  /** The view of the turn these deltas make. */
  ghost predicate Views(parse: A.Parser, deltas: seq<StreamChunk>, view: A.TurnSnapshot) {
    && view.text == TextOf(deltas) && view.reasoning == ReasoningOf(deltas) && view.usage == LastUsage(deltas)
    && Sorted(view.calls)
    && forall i: nat ::
         var lane := LaneRun(parse, Project(deltas, i));
         Keyed(view.calls, i) == Sealeds(lane.done)
           + (match lane.partial case Some(p) => [A.Open(p.id, p.name, p.args)] case None => [])
  }

  lemma {:induction false} AssembledViews(parse: A.Parser, deltas: seq<StreamChunk>)
    ensures Views(parse, deltas, A.Snapshot(A.Assemble(parse, deltas)))
  {
    hide A.Assemble, LaneRun, Project, Keyed, Sealeds, A.Snapshot;
    var t := A.Assemble(parse, deltas);
    FieldsFollow(parse, deltas);
    SnapshotFields(t);
    SnapshotLanes(t, 0);
    forall i: nat
      ensures var lane := LaneRun(parse, Project(deltas, i));
              Keyed(A.Snapshot(t).calls, i) == Sealeds(lane.done)
                + (match lane.partial case Some(p) => [A.Open(p.id, p.name, p.args)] case None => [])
    {
      SnapshotLanes(t, i);
      LaneFollows(parse, deltas, i);
    }
  }

  /** An attach hands out the turn in flight, as its deltas since it opened make it, and
      none exactly when no delta is open. */
  lemma {:induction false} OpenTurnHandedOut(parse: A.Parser, items: seq<LiveItem>)
    ensures var open, deltas := Handshake(Hub(parse, items)).openTurn, OpenDeltas(items);
            match deltas
            case None => open == None
            case Some((turn, chunks)) => open.Some? && open.value.0 == turn && Views(parse, chunks, open.value.1)
  {
    hide Hub, OpenDeltas, Views, A.Snapshot, A.Assemble, T.Replay;
    OpenTurnIsFold(parse, items);
    if OpenDeltas(items).Some? { AssembledViews(parse, OpenDeltas(items).value.1); }
  }

  // --------------------------------------------------------------- the approvals

  /** It hands out the open requests with their first answers, and the newest part of
      everything settled, each settlement with the first answers after its request. */
  lemma {:induction false} ApprovalsHandedOut(parse: A.Parser, items: seq<LiveItem>)
    requires Unclashed(items)
    ensures var sync := Handshake(Hub(parse, items));
            && sync.pending == OpenRequests(items, |items|)
            && sync.settled == Last(Settlements(items), SETTLED_APPROVAL_WINDOW)
            && forall k :: 0 <= k < |sync.settled| ==> Settles(items, sync.settled[k])
  {
    hide Hub, OpenRequests, Settlements, Settles, T.Replay;
    PendingShowsFirstAnswers(parse, items);
    SettledIsWindow(parse, items);
    HubSettlesFirstAnswers(parse, items);
  }

  /** The highest position published. */
  function Highest(items: seq<LiveItem>): nat {
    if items == [] then 0
    else
      var before, last := Highest(items[..|items| - 1]), items[|items| - 1].position;
      if last > before then last else before
  }

  lemma {:induction false} HighestIs(items: seq<LiveItem>)
    ensures forall k :: 0 <= k < |items| ==> items[k].position <= Highest(items)
    ensures Highest(items) == 0 || exists k :: 0 <= k < |items| && items[k].position == Highest(items)
    decreases |items|
  {
    if items != [] {
      var init, last := items[..|items| - 1], items[|items| - 1].position;
      HighestIs(init);
      assert Highest(items) == if last > Highest(init) then last else Highest(init);
      hide Highest;
      forall k | 0 <= k < |items| ensures items[k].position <= Highest(items) {
        if k < |init| { assert items[k] == init[k]; }
      }
      if last > Highest(init) {
        assert items[|items| - 1].position == Highest(items);
      } else if Highest(init) != 0 {
        var k :| 0 <= k < |init| && init[k].position == Highest(init);
        assert items[k].position == Highest(items);
      }
    }
  }

  lemma {:induction false} PositionIs(parse: A.Parser, items: seq<LiveItem>)
    ensures Handshake(Hub(parse, items)).asOfSeq == Highest(items)
    decreases |items|
  {
    hide Track, T.Replay;
    if items != [] {
      var init, x := items[..|items| - 1], items[|items| - 1];
      PositionIs(parse, init);
      HubSnoc(parse, init, x);
      assert items == init + [x];
      TrackPosition(parse, Hub(parse, init), x);
    }
  }

  /** A baseline is current as of the highest position published. */
  lemma {:induction false} PositionHandedOut(parse: A.Parser, items: seq<LiveItem>)
    ensures var asOf := Handshake(Hub(parse, items)).asOfSeq;
            && (forall k :: 0 <= k < |items| ==> items[k].position <= asOf)
            && (asOf == 0 || exists k :: 0 <= k < |items| && items[k].position == asOf)
  {
    hide Hub, Highest, T.Replay;
    PositionIs(parse, items);
    HighestIs(items);
  }

  /** A batch names a message exactly when the newest response of the run is its turn's,
      and then that one. */
  lemma {:induction false} AnchorPresent(log: seq<Event>, turn: nat)
    ensures var k := L.LastResponse(log);
            && (AnchorFor(log, turn).Some? <==> k.Some? && log[k.value].turn == Some(turn))
            && (AnchorFor(log, turn).Some? ==> L.PlacedAt(log, k.value, AnchorFor(log, turn).value))
  {
    hide T.Replay, T.Walked, L.LastResponse;
    L.AnchorAgrees(log);
  }

  // ------------------------------------------------------- the provisional outcomes

  /** One span's outcome, and the position at which the span joined the list. */
  datatype Outcome = Outcome(joined: nat, completion: Completion)

  /** What one item makes of a span's outcome: a newer outcome of the span replaces it in
      its place, one of another turn drops it, and so do its recorded result, the next
      request and the run's end. */
  function SpanStep(was: Option<Outcome>, span: string, at: nat, x: LiveItem, counts: bool): Option<Outcome> {
    match x.kind
    case ToolCompleted(c) =>
      if c.spanId == span
      then Some(Outcome(if was.Some? && was.value.completion.turn == c.turn then was.value.joined else at, c))
      else if was.Some? && was.value.completion.turn != c.turn then None
      else was
    case Recorded(e) =>
      if counts && (e.kind.LlmRequest? || e.kind.RunFinished? || (e.kind.ToolResult? && e.spanId == span)) then None else was
    case _ => was
  }

  function SpanRun(items: seq<LiveItem>, span: string): Option<Outcome> {
    if items == [] then None
    else
      var init, x := items[..|items| - 1], items[|items| - 1];
      SpanStep(SpanRun(init, span), span, |init|, x, Effective(init, x))
  }

  /** `completed` lists each span's outcome once, in the order the spans joined. */
  ghost predicate Lists(completed: seq<Completion>, run: string -> Option<Outcome>) {
    && (forall k :: 0 <= k < |completed| ==>
          run(completed[k].spanId).Some? && run(completed[k].spanId).value.completion == completed[k])
    && (forall span :: run(span).Some? ==> run(span).value.completion.spanId == span && run(span).value.completion in completed)
    && (forall j, k :: 0 <= j < k < |completed| ==>
          run(completed[j].spanId).value.joined < run(completed[k].spanId).value.joined)
  }

  /** Kept elements stay in order. */
  ghost predicate Picks(s: seq<Completion>, r: seq<Completion>, at: seq<nat>) {
    && |at| == |r|
    && (forall i :: 0 <= i < |r| ==> at[i] < |s| && r[i] == s[at[i]])
    && (forall i, j :: 0 <= i < j < |at| ==> at[i] < at[j])
  }

  lemma {:induction false} PicksCons(s: seq<Completion>, keep: bool, r: seq<Completion>, at: seq<nat>)
    requires s != [] && Picks(s[1..], r, at)
    ensures Picks(s, (if keep then [s[0]] else []) + r, (if keep then [0] else []) + Shifted(at))
  {
    var lead := if keep then 1 else 0;
    var all, to := (if keep then [s[0]] else []) + r, (if keep then [0] else []) + Shifted(at);
    forall i | lead <= i < |all| ensures to[i] == at[i - lead] + 1 && to[i] < |s| && all[i] == s[to[i]] {
      assert all[i] == r[i - lead] && r[i - lead] == s[1..][at[i - lead]];
    }
  }

  lemma {:induction false} KeptOf(s: seq<Completion>, r: seq<Completion>, x: Completion, keep: bool)
    ensures forall c :: c in (if keep then [x] else []) + r <==> (keep && c == x) || c in r
    ensures forall c :: c in [x] + s <==> c == x || c in s
  {
  }

  lemma {:induction false} OnTurnCons(s: seq<Completion>, turn: nat)
    ensures OnTurn(s, turn)
         == if s == [] then [] else (if s[0].turn == turn then [s[0]] else []) + OnTurn(s[1..], turn)
  {
  }

  lemma {:induction false} OnTurnPicks(s: seq<Completion>, turn: nat) returns (at: seq<nat>)
    ensures Picks(s, OnTurn(s, turn), at)
    ensures forall c :: c in OnTurn(s, turn) <==> c in s && c.turn == turn
    decreases |s|
  {
    hide Picks, OnTurn;
    at := [];
    OnTurnCons(s, turn);
    if s == [] {
      NothingPicked();
    } else {
      var rest := OnTurnPicks(s[1..], turn);
      PicksCons(s, s[0].turn == turn, OnTurn(s[1..], turn), rest);
      at := (if s[0].turn == turn then [0] else []) + Shifted(rest);
      KeptOf(s[1..], OnTurn(s[1..], turn), s[0], s[0].turn == turn);
      assert s == [s[0]] + s[1..];
    }
  }

  lemma {:induction false} NothingPicked()
    ensures Picks([], [], [])
  {
  }

  lemma {:induction false} DropSpanCons(s: seq<Completion>, span: string)
    ensures DropSpan(s, span)
         == if s == [] then [] else (if s[0].spanId != span then [s[0]] else []) + DropSpan(s[1..], span)
  {
  }

  lemma {:induction false} DropSpanPicks(s: seq<Completion>, span: string) returns (at: seq<nat>)
    ensures Picks(s, DropSpan(s, span), at)
    ensures forall c :: c in DropSpan(s, span) <==> c in s && c.spanId != span
    decreases |s|
  {
    hide Picks, DropSpan;
    at := [];
    DropSpanCons(s, span);
    if s == [] {
      NothingPicked();
    } else {
      var rest := DropSpanPicks(s[1..], span);
      PicksCons(s, s[0].spanId != span, DropSpan(s[1..], span), rest);
      at := (if s[0].spanId != span then [0] else []) + Shifted(rest);
      KeptOf(s[1..], DropSpan(s[1..], span), s[0], s[0].spanId != span);
      assert s == [s[0]] + s[1..];
    }
  }

  function Shifted(at: seq<nat>): (r: seq<nat>)
    ensures |r| == |at| && forall i :: 0 <= i < |r| ==> r[i] == at[i] + 1
  {
    seq(|at|, i requires 0 <= i < |at| => at[i] + 1)
  }

  /** Keeping some of a list, in order, lists what the kept spans' runs still hold. */
  lemma {:induction false} PicksList(s: seq<Completion>, r: seq<Completion>, at: seq<nat>,
                                     run: string -> Option<Outcome>, next: string -> Option<Outcome>)
    requires Lists(s, run) && Picks(s, r, at)
    requires forall c :: c in r ==> next(c.spanId) == run(c.spanId)
    requires forall span :: next(span).Some? ==> next(span) == run(span) && next(span).value.completion in r
    ensures Lists(r, next)
  {
    forall j, k | 0 <= j < k < |r| ensures next(r[j].spanId).value.joined < next(r[k].spanId).value.joined {
      assert r[j] == s[at[j]] && r[k] == s[at[k]] && at[j] < at[k];
    }
  }

  lemma {:induction false} FindSpanIs(s: seq<Completion>, span: string)
    ensures var k := FindSpan(s, span);
            && (k < |s| ==> s[k].spanId == span)
            && forall i :: 0 <= i < k ==> s[i].spanId != span
    decreases |s|
  {
    if s != [] { FindSpanIs(s[1..], span); }
  }

  /** A newer outcome replaces its span's or joins at the end. */
  lemma {:induction false} PutLists(kept: seq<Completion>, c: Completion, at: nat, run: string -> Option<Outcome>, next: string -> Option<Outcome>)
    requires Lists(kept, run)
    requires forall span :: run(span).Some? ==> run(span).value.joined < at
    requires forall span :: span != c.spanId ==> next(span) == run(span)
    requires next(c.spanId) == Some(Outcome(if run(c.spanId).Some? then run(c.spanId).value.joined else at, c))
    ensures var k := FindSpan(kept, c.spanId);
            Lists(if k < |kept| then kept[k := c] else kept + [c], next)
  {
    hide FindSpan, Lists;
    FindSpanIs(kept, c.spanId);
    var k := FindSpan(kept, c.spanId);
    if k < |kept| {
      PutReplaces(kept, c, k, run, next);
    } else {
      NotListed(kept, c.spanId, run);
      PutAppends(kept, c, at, run, next);
    }
  }

  lemma {:induction false} PutReplaces(kept: seq<Completion>, c: Completion, k: nat, run: string -> Option<Outcome>, next: string -> Option<Outcome>)
    requires Lists(kept, run) && k < |kept| && kept[k].spanId == c.spanId
    requires forall span :: span != c.spanId ==> next(span) == run(span)
    requires run(c.spanId).Some? ==> next(c.spanId) == Some(Outcome(run(c.spanId).value.joined, c))
    ensures Lists(kept[k := c], next)
  {
    var r := kept[k := c];
    forall i | 0 <= i < |r|
      ensures next(r[i].spanId).Some? && next(r[i].spanId).value.completion == r[i]
      ensures next(r[i].spanId).value.joined == run(kept[i].spanId).value.joined
    {
      assert i != k ==> kept[i].spanId != kept[k].spanId;
    }
    forall span | next(span).Some?
      ensures next(span).value.completion.spanId == span && next(span).value.completion in r
    {
      if span == c.spanId {
        assert r[k] == c;
      } else {
        var i :| 0 <= i < |kept| && kept[i] == run(span).value.completion;
        assert r[i] == kept[i];
      }
    }
  }

  lemma {:induction false} NotListed(kept: seq<Completion>, span: string, run: string -> Option<Outcome>)
    requires Lists(kept, run) && forall i :: 0 <= i < |kept| ==> kept[i].spanId != span
    ensures run(span).None?
  {
  }

  lemma {:induction false} PutAppends(kept: seq<Completion>, c: Completion, at: nat, run: string -> Option<Outcome>, next: string -> Option<Outcome>)
    requires Lists(kept, run) && forall i :: 0 <= i < |kept| ==> kept[i].spanId != c.spanId
    requires forall span :: run(span).Some? ==> run(span).value.joined < at
    requires forall span :: span != c.spanId ==> next(span) == run(span)
    requires run(c.spanId).None? && next(c.spanId) == Some(Outcome(at, c))
    ensures Lists(kept + [c], next)
  {
    var r := kept + [c];
    forall i | 0 <= i < |r|
      ensures next(r[i].spanId).Some? && next(r[i].spanId).value.completion == r[i]
      ensures next(r[i].spanId).value.joined == (if i < |kept| then run(kept[i].spanId).value.joined else at)
    {
      assert i < |kept| ==> r[i] == kept[i];
    }
    forall span | next(span).Some?
      ensures next(span).value.completion.spanId == span && next(span).value.completion in r
    {
      if span == c.spanId {
        assert r[|kept|] == c;
      } else {
        assert run(span).value.completion in kept;
      }
    }
  }

  ghost function RunOf(items: seq<LiveItem>): string -> Option<Outcome> {
    (span: string) => SpanRun(items, span)
  }

  lemma {:induction false} SameLists(completed: seq<Completion>, run: string -> Option<Outcome>, next: string -> Option<Outcome>)
    requires Lists(completed, run) && forall span :: next(span) == run(span)
    ensures Lists(completed, next)
  {
  }

  lemma {:induction false} JoinedBefore(items: seq<LiveItem>, span: string)
    ensures SpanRun(items, span).Some? ==> SpanRun(items, span).value.joined < |items|
    decreases |items|
  {
    hide Log, T.Ids;
    if items != [] { JoinedBefore(items[..|items| - 1], span); }
  }

  lemma {:induction false} TransitionCompleted(s: State, e: Event)
    ensures Transition(s, e).completed ==
              if e.kind.LlmRequest? || e.kind.RunFinished? then []
              else if e.kind.ToolResult? then DropSpan(s.completed, e.spanId)
              else s.completed
  {
    hide RetireAll, Remember, Position, DropSpan;
  }

  lemma {:induction false} RunNext(items: seq<LiveItem>, x: LiveItem)
    ensures forall span :: RunOf(items + [x])(span) == SpanStep(RunOf(items)(span), span, |items|, x, Effective(items, x))
  {
    hide Effective, SpanStep;
    assert (items + [x])[..|items|] == items;
  }

  /** An outcome on the list. */
  lemma {:induction false} OutcomeJoins(items: seq<LiveItem>, c: Completion, position: nat, completed: seq<Completion>)
    requires Lists(completed, RunOf(items))
    ensures Lists(Transport.Complete(completed, c), RunOf(items + [LiveItem(position, ToolCompleted(c))]))
  {
    hide Lists, OnTurn, FindSpan, Effective, RunOf;
    var x := LiveItem(position, ToolCompleted(c));
    var run, next := RunOf(items), RunOf(items + [x]);
    RunNext(items, x);
    var at := OnTurnPicks(completed, c.turn);
    var kept := OnTurn(completed, c.turn);
    var middle := (span: string) => if run(span).Some? && run(span).value.completion.turn == c.turn then run(span) else None;
    ListsNames(completed, run);
    PicksList(completed, kept, at, run, middle);
    forall span: string | middle(span).Some? ensures middle(span).value.joined < |items| { RunJoined(items, span); }
    PutLists(kept, c, |items|, middle, next);
  }

  lemma {:induction false} ListsNames(completed: seq<Completion>, run: string -> Option<Outcome>)
    requires Lists(completed, run)
    ensures forall c :: c in completed ==> run(c.spanId).Some? && run(c.spanId).value.completion == c
    ensures forall span :: run(span).Some? ==> run(span).value.completion.spanId == span && run(span).value.completion in completed
  {
  }

  lemma {:induction false} RunJoined(items: seq<LiveItem>, span: string)
    ensures RunOf(items)(span).Some? ==> RunOf(items)(span).value.joined < |items|
  {
    JoinedBefore(items, span);
  }

  /** A counting event on the list. */
  lemma {:induction false} EventClears(items: seq<LiveItem>, x: LiveItem, s: State)
    requires x.kind.Recorded? && Effective(items, x) && Lists(s.completed, RunOf(items))
    ensures Lists(Transition(s, x.kind.event).completed, RunOf(items + [x]))
  {
    hide Lists, DropSpan, Transition, RunOf, Log, T.Ids;
    var e := x.kind.event;
    var run, next := RunOf(items), RunOf(items + [x]);
    RunNext(items, x);
    TransitionCompleted(s, e);
    if e.kind.LlmRequest? || e.kind.RunFinished? {
      NothingListed(next);
    } else if e.kind.ToolResult? {
      var at := DropSpanPicks(s.completed, e.spanId);
      ListsNames(s.completed, run);
      PicksList(s.completed, DropSpan(s.completed, e.spanId), at, run, next);
    } else {
      SameLists(s.completed, run, next);
    }
  }

  lemma {:induction false} NothingListed(run: string -> Option<Outcome>)
    requires forall span :: run(span).None?
    ensures Lists([], run)
  {
  }

  /** The provisional outcomes handed out are exactly those still to be recorded: for each
      span of the current turn its newest, neither recorded nor cleared since, in the order
      the spans joined. */
  lemma {:induction false} OutcomesHandedOut(parse: A.Parser, items: seq<LiveItem>)
    ensures Lists(Handshake(Hub(parse, items)).completed, RunOf(items))
    decreases |items|
  {
    hide Lists, Transition, Transport.Complete, NewPending, A.Push, T.Replay, RunOf, Log, T.Ids;
    if items == [] {
      NoneRun();
      NothingListed(RunOf([]));
    } else {
      var init, x := items[..|items| - 1], items[|items| - 1];
      OutcomesHandedOut(parse, init);
      var s := Hub(parse, init);
      HubSnoc(parse, init, x);
      HubLog(parse, init);
      assert items == init + [x];
      RunNext(init, x);
      match x.kind
      case ToolCompleted(c) =>
        assert x == LiveItem(x.position, ToolCompleted(c));
        OutcomeJoins(init, c, x.position, s.completed);
      case Recorded(e) =>
        if Effective(init, x) {
          EventClears(init, x, Positioned(s, x));
        } else {
          SameLists(s.completed, RunOf(init), RunOf(items));
        }
      case _ => SameLists(s.completed, RunOf(init), RunOf(items));
    }
  }

  lemma {:induction false} NoneRun()
    ensures forall span :: RunOf([])(span).None?
  {
  }

  /** A late attach gets the final baseline: closing retires what was pending and clears
      the provisional outcomes, and leaves the rest of what is handed out. */
  lemma {:induction false} FinalBaseline(parse: A.Parser, items: seq<LiveItem>)
    requires Unclashed(items)
    ensures var before, after := Handshake(Hub(parse, items)), Handshake(Close(Hub(parse, items)));
            && after.history == before.history && after.openTurn == before.openTurn && after.asOfSeq == before.asOfSeq
            && after.pending == [] && after.completed == []
            && after.settled == Last(Settlements(items) + CutOff(items), SETTLED_APPROVAL_WINDOW)
  {
    hide Hub, Settlements, CutOff, T.Replay, A.Snapshot, RetireAll, Answered, OpenAt, LeftShort, CutShort, Unclashed;
    CloseKeepsDecided(parse, items);
  }
}
