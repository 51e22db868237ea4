/** What aggregation promises: calls are independent lanes keyed by index, so the
    interleaving cannot matter, and the live view never disagrees with the end. */
module AssemblerLaws {
  import opened Prelude
  import opened Contract
  import opened StableSort
  import opened Assembler
  import opened Arguments

  lemma {:induction false} FoldSnoc(parse: Parser, t: Turn, chunks: seq<StreamChunk>, chunk: StreamChunk)
    ensures FoldFrom(parse, t, chunks + [chunk]) == Push(parse, FoldFrom(parse, t, chunks), chunk)
  {
    assert (chunks + [chunk])[..|chunks|] == chunks;
  }

  lemma {:induction false} FoldConcat(parse: Parser, t: Turn, a: seq<StreamChunk>, b: seq<StreamChunk>)
    ensures FoldFrom(parse, t, a + b) == FoldFrom(parse, FoldFrom(parse, t, a), b)
    decreases |b|
  {
    hide Push;
    if b == [] {
      assert a + b == a;
    } else {
      var init, last := b[..|b| - 1], b[|b| - 1];
      FoldConcat(parse, t, a, init);
      assert a + b == (a + init) + [last] && b == init + [last];
      FoldSnoc(parse, t, a + init, last);
      FoldSnoc(parse, FoldFrom(parse, t, a), init, last);
    }
  }

  // -------------------------------------------------------------------- lanes

  /** Everything the stream says about one call index. */
  datatype Lane = Lane(partial: Option<Partial>, done: seq<ToolCall>)

  predicate Addressed(chunk: StreamChunk, i: nat) {
    match chunk
    case ToolCallStart(index, _, _) => index == i
    case ToolArgsDelta(index, _) => index == i
    case ToolCallEnd(index) => index == i
    case _ => false
  }

  function Project(chunks: seq<StreamChunk>, i: nat): seq<StreamChunk> {
    if chunks == [] then []
    else
      var last := chunks[|chunks| - 1];
      Project(chunks[..|chunks| - 1], i) + (if Addressed(last, i) then [last] else [])
  }

  /** The start/args/end automaton of one index. */
  ghost function LaneStep(parse: Parser, lane: Lane, chunk: StreamChunk): Lane {
    match chunk
    case ToolCallStart(_, id, name) => lane.(partial := Some(Partial(id, name, "")))
    case ToolArgsDelta(index, fragment) =>
      var p := if lane.partial.Some? then lane.partial.value else Partial(SynthesizedId(index), "", "");
      lane.(partial := Some(p.(args := p.args + fragment)))
    case ToolCallEnd(_) =>
      if lane.partial.None? then lane
      else
        var p := lane.partial.value;
        (match Meaning(parse, p.args)
         case Some(arguments) => Lane(None, lane.done + [ToolCall(p.id, p.name, arguments)])
         case None => Lane(None, lane.done))
    case _ => lane
  }

  ghost function LaneRun(parse: Parser, chunks: seq<StreamChunk>): Lane {
    if chunks == [] then Lane(None, [])
    else LaneStep(parse, LaneRun(parse, chunks[..|chunks| - 1]), chunks[|chunks| - 1])
  }

  function LaneOf(t: Turn, i: nat): Lane {
    Lane(if i in t.partials then Some(t.partials[i]) else None, Keyed(t.completed, i))
  }

  lemma {:induction false} PushLane(parse: Parser, t: Turn, chunk: StreamChunk, i: nat)
    ensures LaneOf(Push(parse, t, chunk), i)
         == if Addressed(chunk, i) then LaneStep(parse, LaneOf(t, i), chunk) else LaneOf(t, i)
  {
    hide SynthesizedId, Meaning, Keyed, SealCall;
    match chunk
    case ToolCallEnd(index) =>
      if index in t.partials {
        var p := t.partials[index];
        SealedOrQuarantined(parse, t.(partials := t.partials - {index}), index, p);
        match Meaning(parse, p.args) {
          case Some(arguments) =>
            KeyedSnoc(t.completed, (index, ToolCall(p.id, p.name, arguments)), i);
            assert Keyed(t.completed, i) + [] == Keyed(t.completed, i);
          case None =>
        }
      }
    case ToolArgsDelta(index, fragment) => assert "" + fragment == fragment;
    case _ =>
  }

  /** Each index of the folded turn is its own projection run through the automaton. */
  lemma {:induction false} LaneFollows(parse: Parser, chunks: seq<StreamChunk>, i: nat)
    ensures LaneOf(Assemble(parse, chunks), i) == LaneRun(parse, Project(chunks, i))
    decreases |chunks|
  {
    hide Push, LaneStep, LaneOf;
    if chunks == [] {
      FreshLane(i);
    } else {
      var init, last := chunks[..|chunks| - 1], chunks[|chunks| - 1];
      LaneFollows(parse, init, i);
      PushLane(parse, Assemble(parse, init), last, i);
      assert Project(init, i) + [] == Project(init, i);
      if Addressed(last, i) { assert (Project(init, i) + [last])[..|Project(init, i)|] == Project(init, i); }
    }
  }

  lemma {:induction false} FreshLane(i: nat)
    ensures LaneOf(FRESH, i) == Lane(None, [])
  {
  }

  // -------------------------------------------------------- other projections

  function TextOf(chunks: seq<StreamChunk>): string {
    if chunks == [] then ""
    else
      var last := chunks[|chunks| - 1];
      TextOf(chunks[..|chunks| - 1]) + (if last.TextDelta? then last.delta else "")
  }

  function ReasoningOf(chunks: seq<StreamChunk>): string {
    if chunks == [] then ""
    else
      var last := chunks[|chunks| - 1];
      ReasoningOf(chunks[..|chunks| - 1]) + (if last.ReasoningDelta? then last.delta else "")
  }

  function OpaqueOf(chunks: seq<StreamChunk>): seq<Value> {
    if chunks == [] then []
    else
      var last := chunks[|chunks| - 1];
      OpaqueOf(chunks[..|chunks| - 1]) + (if last.OpaqueDelta? then [last.value] else [])
  }

  function MergeAll(values: seq<Value>): Option<Value> {
    if values == [] then None
    else MergeOpaque(MergeAll(values[..|values| - 1]), values[|values| - 1])
  }

  function LastUsage(chunks: seq<StreamChunk>): Option<Usage> {
    if chunks == [] then None
    else
      var last := chunks[|chunks| - 1];
      if last.UsageReport? then Some(last.usage) else LastUsage(chunks[..|chunks| - 1])
  }

  function LastFinish(chunks: seq<StreamChunk>): Option<FinishReason> {
    if chunks == [] then None
    else
      var last := chunks[|chunks| - 1];
      if last.Done? then Some(last.finish) else LastFinish(chunks[..|chunks| - 1])
  }

  lemma {:induction false} PushFields(parse: Parser, t: Turn, c: StreamChunk)
    ensures Push(parse, t, c).text == t.text + (if c.TextDelta? then c.delta else "")
    ensures Push(parse, t, c).reasoning == t.reasoning + (if c.ReasoningDelta? then c.delta else "")
    ensures Push(parse, t, c).opaqueValue == if c.OpaqueDelta? then MergeOpaque(t.opaqueValue, c.value) else t.opaqueValue
    ensures Push(parse, t, c).usage == if c.UsageReport? then Some(c.usage) else t.usage
    ensures Push(parse, t, c).finish == if c.Done? then Some(c.finish) else t.finish
  {
    hide MergeOpaque, SynthesizedId, ParseArgs;
    assert t.text + "" == t.text && t.reasoning + "" == t.reasoning;
  }

  lemma {:induction false} FieldsFollow(parse: Parser, chunks: seq<StreamChunk>)
    ensures var t := Assemble(parse, chunks);
            && t.text == TextOf(chunks) && t.reasoning == ReasoningOf(chunks)
            && t.opaqueValue == MergeAll(OpaqueOf(chunks))
            && t.usage == LastUsage(chunks) && t.finish == LastFinish(chunks)
    decreases |chunks|
  {
    hide MergeOpaque, Push;
    if chunks != [] {
      var init, last := chunks[..|chunks| - 1], chunks[|chunks| - 1];
      FieldsFollow(parse, init);
      PushFields(parse, Assemble(parse, init), last);
      assert TextOf(init) + "" == TextOf(init) && ReasoningOf(init) + "" == ReasoningOf(init);
      assert OpaqueOf(init) + [] == OpaqueOf(init);
      if last.OpaqueDelta? { assert (OpaqueOf(init) + [last.value])[..|OpaqueOf(init)|] == OpaqueOf(init); }
    }
  }

  /** The same chunks about every channel and every call, interleaved in any way. */
  ghost predicate SameProjections(a: seq<StreamChunk>, b: seq<StreamChunk>) {
    && TextOf(a) == TextOf(b) && ReasoningOf(a) == ReasoningOf(b) && OpaqueOf(a) == OpaqueOf(b)
    && LastUsage(a) == LastUsage(b) && LastFinish(a) == LastFinish(b)
    && forall i :: Project(a, i) == Project(b, i)
  }

  /** Interleaving independence: equal projections assemble to the same message,
      usage, finish and outcome, quarantine the same calls, and look the same live. */
  lemma {:induction false} InterleavingIndependent(parse: Parser, a: seq<StreamChunk>, b: seq<StreamChunk>)
    requires SameProjections(a, b)
    ensures var s, t := Assemble(parse, a), Assemble(parse, b);
            && Complete(s).(warnings := []) == Complete(t).(warnings := [])
            && QuarantineOf(s.partials, OpenKeys(s)) == QuarantineOf(t.partials, OpenKeys(t))
            && Snapshot(s) == Snapshot(t)
  {
    hide Push, LaneStep, Keyed, SortByIndex;
    var s, t := Assemble(parse, a), Assemble(parse, b);
    FieldsFollow(parse, a);
    FieldsFollow(parse, b);
    SameLanes(parse, a, b);
    SortDetermined(s.completed, t.completed);
    SealedSame(s.completed, t.completed);
    forall k ensures Keyed(SealedOf(s.completed) + OpenOf(s.partials, OpenKeys(s)), k)
                  == Keyed(SealedOf(t.completed) + OpenOf(t.partials, OpenKeys(t)), k) {
      KeyedConcat(SealedOf(s.completed), OpenOf(s.partials, OpenKeys(s)), k);
      KeyedConcat(SealedOf(t.completed), OpenOf(t.partials, OpenKeys(t)), k);
      assert Keyed(SealedOf(s.completed), k) == Keyed(SealedOf(t.completed), k);
    }
    SortDetermined(SealedOf(s.completed) + OpenOf(s.partials, OpenKeys(s)),
                   SealedOf(t.completed) + OpenOf(t.partials, OpenKeys(t)));
    assert |SortByIndex(s.completed)| == |s.completed| && |SortByIndex(t.completed)| == |t.completed|;
  }

  lemma {:induction false} SameLanes(parse: Parser, a: seq<StreamChunk>, b: seq<StreamChunk>)
    requires SameProjections(a, b)
    ensures Assemble(parse, a).partials == Assemble(parse, b).partials
    ensures SameKeyed(Assemble(parse, a).completed, Assemble(parse, b).completed)
  {
    hide Push, LaneStep, Keyed, Assemble;
    var s, t := Assemble(parse, a), Assemble(parse, b);
    forall i: nat ensures LaneOf(s, i) == LaneOf(t, i) {
      LaneFollows(parse, a, i);
      LaneFollows(parse, b, i);
      assert Project(a, i) == Project(b, i);
    }
    assert forall i :: i in s.partials ==> LaneOf(s, i) == LaneOf(t, i);
    assert forall i :: i in t.partials ==> LaneOf(s, i) == LaneOf(t, i);
    forall i ensures Keyed(s.completed, i) == Keyed(t.completed, i) {
      assert LaneOf(s, i) == LaneOf(t, i);
    }
  }

  function Sealeds(calls: seq<ToolCall>): (r: seq<CallState>)
    ensures |r| == |calls|
  {
    seq(|calls|, i requires 0 <= i < |calls| => Sealed(calls[i]))
  }

  lemma {:induction false} KeyedSealed(completed: seq<(nat, ToolCall)>, k: nat)
    ensures Keyed(SealedOf(completed), k) == Sealeds(Keyed(completed, k))
    decreases |completed|
  {
    if completed != [] {
      var init, last := completed[..|completed| - 1], completed[|completed| - 1];
      KeyedSealed(init, k);
      assert SealedOf(completed) == SealedOf(init) + [(last.0, Sealed(last.1))];
      KeyedSnoc(SealedOf(init), (last.0, Sealed(last.1)), k);
      assert completed == init + [last];
      KeyedSnoc(init, last, k);
      assert Sealeds(Keyed(init, k) + [last.1]) == Sealeds(Keyed(init, k)) + [Sealed(last.1)];
      assert Sealeds(Keyed(init, k) + []) == Sealeds(Keyed(init, k)) + [];
    }
  }

  lemma {:induction false} SealedSame(a: seq<(nat, ToolCall)>, b: seq<(nat, ToolCall)>)
    requires SameKeyed(a, b)
    ensures SameKeyed(SealedOf(a), SealedOf(b))
  {
    forall k ensures Keyed(SealedOf(a), k) == Keyed(SealedOf(b), k) {
      KeyedSealed(a, k);
      KeyedSealed(b, k);
      assert Keyed(a, k) == Keyed(b, k);
    }
  }

  // ------------------------------------------------------------ the live view

  /** The sealed calls of a snapshot, with their indices. */
  function SealedIn(calls: seq<(nat, CallState)>): seq<(nat, ToolCall)> {
    if calls == [] then []
    else
      var last := calls[|calls| - 1];
      SealedIn(calls[..|calls| - 1]) + (if last.1.Sealed? then [(last.0, last.1.call)] else [])
  }

  function OpenIn(calls: seq<(nat, CallState)>): (r: seq<(nat, CallState)>)
    ensures forall i :: 0 <= i < |r| ==> r[i].1.Open?
  {
    if calls == [] then []
    else
      var last := calls[|calls| - 1];
      OpenIn(calls[..|calls| - 1]) + (if last.1.Open? then [last] else [])
  }

  function SealedVals(calls: seq<CallState>): seq<ToolCall> {
    if calls == [] then []
    else
      var last := calls[|calls| - 1];
      SealedVals(calls[..|calls| - 1]) + (if last.Sealed? then [last.call] else [])
  }

  function OpenVals(calls: seq<CallState>): seq<CallState> {
    if calls == [] then []
    else
      var last := calls[|calls| - 1];
      OpenVals(calls[..|calls| - 1]) + (if last.Open? then [last] else [])
  }

  lemma {:induction false} FilterSorted(calls: seq<(nat, CallState)>)
    requires Sorted(calls)
    ensures Sorted(SealedIn(calls)) && Sorted(OpenIn(calls))
    ensures forall x :: x in SealedIn(calls) ==> (x.0, Sealed(x.1)) in calls
    ensures forall x :: x in OpenIn(calls) ==> x in calls
    decreases |calls|
  {
    if calls != [] {
      var init, last := calls[..|calls| - 1], calls[|calls| - 1];
      FilterSorted(init);
      var s, o := SealedIn(init), OpenIn(init);
      forall i | 0 <= i < |s| ensures s[i].0 <= last.0 { assert (s[i].0, Sealed(s[i].1)) in init; }
      forall i | 0 <= i < |o| ensures o[i].0 <= last.0 { assert o[i] in init; }
      if last.1.Sealed? { SortedSnoc(s, (last.0, last.1.call)); } else { SortedSnoc(o, last); }
      hide Sorted;
    }
  }

  lemma {:induction false} SortedSnoc<T>(s: seq<(nat, T)>, x: (nat, T))
    requires Sorted(s) && forall i :: 0 <= i < |s| ==> s[i].0 <= x.0
    ensures Sorted(s + [x])
  {
  }

  lemma {:induction false} FilterKeyed(calls: seq<(nat, CallState)>, k: nat)
    ensures Keyed(SealedIn(calls), k) == SealedVals(Keyed(calls, k))
    ensures Keyed(OpenIn(calls), k) == OpenVals(Keyed(calls, k))
    decreases |calls|
  {
    if calls != [] {
      var init, last := calls[..|calls| - 1], calls[|calls| - 1];
      FilterKeyed(init, k);
      var vals := Keyed(init, k);
      assert (vals + [last.1])[..|vals|] == vals;
      assert vals + [] == vals && SealedIn(init) + [] == SealedIn(init) && OpenIn(init) + [] == OpenIn(init);
      assert SealedVals(vals) + [] == SealedVals(vals) && OpenVals(vals) + [] == OpenVals(vals);
      if last.1.Sealed? { KeyedSnoc(SealedIn(init), (last.0, last.1.call), k); } else { KeyedSnoc(OpenIn(init), last, k); }
    }
  }

  lemma {:induction false} ValsSnoc(s: seq<CallState>, x: CallState)
    ensures SealedVals(s + [x]) == SealedVals(s) + (if x.Sealed? then [x.call] else [])
    ensures OpenVals(s + [x]) == OpenVals(s) + (if x.Open? then [x] else [])
  {
    assert (s + [x])[..|s|] == s;
  }

  lemma {:induction false} NoVals()
    ensures SealedVals([]) == [] && OpenVals([]) == [] && Sealeds([]) == []
  {
  }

  lemma {:induction false} SplitSealed(calls: seq<ToolCall>, open: seq<CallState>)
    requires forall i :: 0 <= i < |open| ==> open[i].Open?
    ensures SealedVals(Sealeds(calls) + open) == calls && OpenVals(Sealeds(calls) + open) == open
    decreases |calls| + |open|
  {
    hide SealedVals, OpenVals;
    if open != [] {
      var init, last := open[..|open| - 1], open[|open| - 1];
      SplitSealed(calls, init);
      assert open == init + [last];
      assert Sealeds(calls) + open == (Sealeds(calls) + init) + [last];
      ValsSnoc(Sealeds(calls) + init, last);
      assert calls + [] == calls;
    } else if calls != [] {
      var init, last := calls[..|calls| - 1], calls[|calls| - 1];
      SplitSealed(init, []);
      assert calls == init + [last];
      assert Sealeds(calls) + [] == (Sealeds(init) + []) + [Sealed(last)];
      ValsSnoc(Sealeds(init) + [], Sealed(last));
    } else {
      NoVals();
      assert Sealeds(calls) + open == [];
    }
  }

  lemma {:induction false} KeyedOpen(open: seq<(nat, CallState)>, k: nat)
    requires forall i :: 0 <= i < |open| ==> open[i].1.Open?
    ensures forall i :: 0 <= i < |Keyed(open, k)| ==> Keyed(open, k)[i].Open?
    decreases |open|
  {
    if open != [] { KeyedOpen(open[..|open| - 1], k); }
  }

  /** Splitting the sorted snapshot gives back both sources, each in index order. */
  lemma {:induction false} SnapshotSplits(t: Turn)
    ensures SealedIn(Snapshot(t).calls) == SortByIndex(t.completed)
    ensures OpenIn(Snapshot(t).calls) == OpenOf(t.partials, OpenKeys(t))
  {
    hide Keyed, SortByIndex, SealedIn, OpenIn, SealedVals, OpenVals;
    var sealed, open := SealedOf(t.completed), OpenOf(t.partials, OpenKeys(t));
    var all := SortByIndex(sealed + open);
    SortKeeps(sealed + open, 0);
    FilterSorted(all);
    SortKeeps(t.completed, 0);
    forall k ensures Keyed(SealedIn(all), k) == Keyed(SortByIndex(t.completed), k) && Keyed(OpenIn(all), k) == Keyed(open, k) {
      FilterKeyed(all, k);
      SortKeeps(sealed + open, k);
      SortKeeps(t.completed, k);
      KeyedConcat(sealed, open, k);
      KeyedSealed(t.completed, k);
      KeyedOpen(open, k);
      SplitSealed(Keyed(t.completed, k), Keyed(open, k));
    }
    SortedUnique(SealedIn(all), SortByIndex(t.completed));
    assert Sorted(open);
    SortedUnique(OpenIn(all), open);
  }

  function Calls(s: seq<(nat, ToolCall)>): (r: seq<ToolCall>)
    ensures |r| == |s|
  {
    seq(|s|, i requires 0 <= i < |s| => s[i].1)
  }

  lemma {:induction false} CallsOfSnoc(content: seq<ContentPart>, part: ContentPart)
    ensures CallsOf(content + [part]) == CallsOf(content) + (if part.CallPart? then [part.call] else [])
    ensures CallsOf([]) == []
  {
    assert (content + [part])[..|content|] == content;
  }

  lemma {:induction false} PartsCalls(head: seq<ContentPart>, calls: seq<(nat, ToolCall)>)
    requires forall i :: 0 <= i < |head| ==> !head[i].CallPart?
    ensures CallsOf(head + CallParts(calls)) == Calls(calls)
    decreases |head| + |calls|
  {
    hide CallsOf, CallParts, Calls;
    if calls != [] {
      var init, last := calls[..|calls| - 1], calls[|calls| - 1];
      PartsCalls(head, init);
      assert head + CallParts(calls) == (head + CallParts(init)) + [CallPart(last.1)];
      CallsOfSnoc(head + CallParts(init), CallPart(last.1));
      CallsSnoc(init, last);
      assert calls == init + [last];
    } else if head != [] {
      var init, last := head[..|head| - 1], head[|head| - 1];
      PartsCalls(init, []);
      assert head + CallParts([]) == init + CallParts([]) + [last];
      CallsOfSnoc(init + CallParts([]), last);
      assert CallsOf(init + CallParts([])) + [] == CallsOf(init + CallParts([]));
    } else {
      CallsOfSnoc([], TextPart(""));
      assert head + CallParts(calls) == [] && Calls(calls) == [];
    }
  }

  lemma {:induction false} CallsSnoc(s: seq<(nat, ToolCall)>, x: (nat, ToolCall))
    ensures Calls(s + [x]) == Calls(s) + [x.1]
  {
  }

  lemma {:induction false} SnapshotFields(t: Turn)
    ensures Snapshot(t).text == t.text && Snapshot(t).reasoning == t.reasoning && Snapshot(t).usage == t.usage
  {
  }

  /** The live view matches the sealed turn, at every point of every stream: the
      sealed calls are exactly the calls the end would emit, in order, and the
      open ones are exactly those it would quarantine. */
  lemma {:induction false} LiveViewMatches(parse: Parser, chunks: seq<StreamChunk>)
    ensures var t := Assemble(parse, chunks);
            var live := Snapshot(t);
            var turn := Complete(t);
            && Calls(SealedIn(live.calls)) == CallsOf(turn.message.content)
            && |OpenIn(live.calls)| == |turn.warnings| - |t.warnings|
            && (forall i :: 0 <= i < |OpenIn(live.calls)| ==>
                  turn.warnings[|t.warnings| + i] == LeftOpen(OpenIn(live.calls)[i].1.id, OpenIn(live.calls)[i].0))
            && live.text == TextOf(chunks) && live.reasoning == ReasoningOf(chunks) && live.usage == turn.usage
  {
    hide *;
    FieldsFollow(parse, chunks);
    LiveTurn(Assemble(parse, chunks));
  }

  lemma {:induction false} TurnCalls(t: Turn)
    ensures CallsOf(Complete(t).message.content) == Calls(SortByIndex(t.completed))
    ensures Complete(t).usage == t.usage
  {
    hide SortByIndex, CallsOf, CallParts, Calls, OutcomeOf, QuarantineOf;
    var head := (if t.reasoning != "" then [ReasoningPart(t.reasoning)] else [])
                + (if t.text != "" then [TextPart(t.text)] else []);
    PartsCalls(head, SortByIndex(t.completed));
  }

  lemma {:induction false} TurnWarnings(t: Turn)
    ensures var open, warnings := OpenOf(t.partials, OpenKeys(t)), Complete(t).warnings;
            && |open| == |warnings| - |t.warnings|
            && forall i :: 0 <= i < |open| ==> warnings[|t.warnings| + i] == LeftOpen(open[i].1.id, open[i].0)
  {
    hide SortByIndex, ContentOf, OutcomeOf, OpenOf, QuarantineOf, OpenKeys;
    var keys := OpenKeys(t);
    var open, left := OpenOf(t.partials, keys), QuarantineOf(t.partials, keys);
    forall i | 0 <= i < |open| ensures (t.warnings + left)[|t.warnings| + i] == LeftOpen(open[i].1.id, open[i].0) {
      assert (t.warnings + left)[|t.warnings| + i] == left[i];
    }
  }

  lemma {:induction false} LiveTurn(t: Turn)
    ensures var live := Snapshot(t);
            var turn := Complete(t);
            && Calls(SealedIn(live.calls)) == CallsOf(turn.message.content)
            && |OpenIn(live.calls)| == |turn.warnings| - |t.warnings|
            && (forall i :: 0 <= i < |OpenIn(live.calls)| ==>
                  turn.warnings[|t.warnings| + i] == LeftOpen(OpenIn(live.calls)[i].1.id, OpenIn(live.calls)[i].0))
            && live.text == t.text && live.reasoning == t.reasoning && live.usage == turn.usage == t.usage
  {
    hide *;
    SnapshotSplits(t);
    SnapshotFields(t);
    TurnCalls(t);
    TurnWarnings(t);
  }
}
