/**
 From accumulated snapshots to increments and back: assembling the mapped chunks
 gives the calls the provider accumulated, whatever way the snapshots interleave.
 */
module RoundTrip {
  import opened Prelude
  import opened Contract
  import opened StableSort
  import opened Assembler
  import opened Arguments
  import opened AssemblerLaws
  import opened StreamMap

  // --------------------------------------------- what the provider accumulated

  predicate IsCall(e: ProviderEvent, id: string) {
    e.CallChunk? && e.callId == id
  }

  /** Distinct call ids in order of first appearance. */
  function Order(events: seq<ProviderEvent>): seq<string> {
    if events == [] then []
    else
      var order, last := Order(events[..|events| - 1]), events[|events| - 1];
      if last.CallChunk? && last.callId !in order then order + [last.callId] else order
  }

  function FirstName(events: seq<ProviderEvent>, id: string): string {
    if events == [] then ""
    else if IsCall(events[0], id) then events[0].name
    else FirstName(events[1..], id)
  }

  /** The longest argument text of a call, the earliest such. */
  function Longest(events: seq<ProviderEvent>, id: string): string {
    if events == [] then ""
    else
      var best, last := Longest(events[..|events| - 1], id), events[|events| - 1];
      if IsCall(last, id) && |last.args| > |best| then last.args else best
  }

  /** The snapshots of one call only ever extend or repeat each other; a shorter
      one may come late. */
  predicate PrefixChains(events: seq<ProviderEvent>) {
    forall i, j :: 0 <= i < |events| && 0 <= j < |events| && events[i].CallChunk? && events[j].CallChunk?
                   && events[i].callId == events[j].callId ==>
      events[i].args <= events[j].args || events[j].args <= events[i].args
  }

  predicate NoEnd(events: seq<ProviderEvent>) {
    forall i :: 0 <= i < |events| ==> !events[i].End?
  }

  function ContentText(events: seq<ProviderEvent>): string {
    if events == [] then ""
    else
      var last := events[|events| - 1];
      ContentText(events[..|events| - 1]) + (if last.Chunk? then last.content else "")
  }

  function ContentReasoning(events: seq<ProviderEvent>): string {
    if events == [] then ""
    else
      var last := events[|events| - 1];
      ContentReasoning(events[..|events| - 1]) + (if last.ReasoningChunk? then last.content else "")
  }

  /** The last thought signature wins. */
  function Signature(events: seq<ProviderEvent>): Option<Value> {
    if events == [] then None
    else
      var last := events[|events| - 1];
      if last.ThoughtSignature? then Some(Object(map[SIGNATURE_KEY := Text(last.content)]))
      else Signature(events[..|events| - 1])
  }

  /** The calls a turn must carry: first-appearance order, first name, parse of
      the trimmed longest arguments; unparsable ones drop out. */
  ghost function ExpectedCalls(parse: Parser, events: seq<ProviderEvent>, ids: seq<string>): seq<ToolCall> {
    if ids == [] then []
    else
      var id := ids[|ids| - 1];
      ExpectedCalls(parse, events, ids[..|ids| - 1]) +
      (match Meaning(parse, Longest(events, id))
       case Some(arguments) => [ToolCall(id, FirstName(events, id), arguments)]
       case None => [])
  }

  /** The calls whose arguments do not parse are warned of instead. */
  ghost function ExpectedWarnings(parse: Parser, events: seq<ProviderEvent>, ids: seq<string>): seq<Warning> {
    if ids == [] then []
    else
      var id := ids[|ids| - 1];
      ExpectedWarnings(parse, events, ids[..|ids| - 1])
      + (if Meaning(parse, Longest(events, id)).None? then [Malformed(id)] else [])
  }

  // ----------------------------------------------------------------- invariant

  lemma {:induction false} LongestIs(events: seq<ProviderEvent>, id: string)
    ensures forall i :: 0 <= i < |events| && IsCall(events[i], id) ==> |events[i].args| <= |Longest(events, id)|
    ensures Longest(events, id) == "" || exists i :: 0 <= i < |events| && IsCall(events[i], id) && events[i].args == Longest(events, id)
    decreases |events|
  {
    if events != [] {
      var init, last := events[..|events| - 1], events[|events| - 1];
      LongestIs(init, id);
      if Longest(events, id) != "" {
        if IsCall(last, id) && |last.args| > |Longest(init, id)| {
          assert events[|events| - 1].args == Longest(events, id);
        } else {
          var i :| 0 <= i < |init| && IsCall(init[i], id) && init[i].args == Longest(init, id);
          assert events[i] == init[i];
        }
      }
    }
  }

  /** In a prefix chain every snapshot of a call is a prefix of the longest. */
  lemma {:induction false} LongestCovers(events: seq<ProviderEvent>, id: string)
    requires PrefixChains(events)
    ensures forall i :: 0 <= i < |events| && IsCall(events[i], id) ==> events[i].args <= Longest(events, id)
    ensures Longest(events, id) == "" || exists i :: 0 <= i < |events| && IsCall(events[i], id) && events[i].args == Longest(events, id)
  {
    LongestIs(events, id);
    var best := Longest(events, id);
    if best != "" {
      var k :| 0 <= k < |events| && IsCall(events[k], id) && events[k].args == best;
      assert forall i :: 0 <= i < |events| && IsCall(events[i], id) ==>
        (events[i].args <= events[k].args || events[k].args <= events[i].args);
    }
  }

  lemma {:induction false} OrderIs(events: seq<ProviderEvent>)
    ensures forall id :: id in Order(events) <==> exists i :: 0 <= i < |events| && IsCall(events[i], id)
    ensures forall i, j :: 0 <= i < j < |Order(events)| ==> Order(events)[i] != Order(events)[j]
    decreases |events|
  {
    if events != [] {
      var init, last := events[..|events| - 1], events[|events| - 1];
      OrderIs(init);
      forall id ensures id in Order(events) <==> exists i :: 0 <= i < |events| && IsCall(events[i], id) {
        if id in Order(init) {
          var i :| 0 <= i < |init| && IsCall(init[i], id);
          assert IsCall(events[i], id);
        }
        if i :| 0 <= i < |events| && IsCall(events[i], id) {
          if i < |init| { assert IsCall(init[i], id); }
        }
      }
    }
  }

  lemma {:induction false} FirstNameSnoc(events: seq<ProviderEvent>, last: ProviderEvent, id: string)
    ensures FirstName(events + [last], id)
         == if exists i :: 0 <= i < |events| && IsCall(events[i], id) then FirstName(events, id)
            else if IsCall(last, id) then last.name else ""
    decreases |events|
  {
    var all := events + [last];
    if events == [] {
      assert all[1..] == [];
    } else if IsCall(events[0], id) {
    } else {
      assert all[1..] == events[1..] + [last];
      FirstNameSnoc(events[1..], last, id);
      if i :| 0 <= i < |events| && IsCall(events[i], id) { assert IsCall(events[1..][i - 1], id); }
      if i :| 0 <= i < |events[1..]| && IsCall(events[1..][i], id) { assert IsCall(events[i + 1], id); }
    }
  }

  /** One accumulated call. */
  function Accumulated(events: seq<ProviderEvent>, id: string): Partial {
    Partial(id, FirstName(events, id), Longest(events, id))
  }

  /** The mapper has sent each call's longest text. */
  predicate CallsKnown(calls: seq<OpenCall>, events: seq<ProviderEvent>) {
    var order := Order(events);
    && |calls| == |order|
    && forall k :: 0 <= k < |order| ==> calls[k] == OpenCall(order[k], |Longest(events, order[k])|)
  }

  /** The assembler holds each call, open, under its first-appearance index. */
  ghost predicate PartialsKnown(partials: map<nat, Partial>, events: seq<ProviderEvent>) {
    var order := Order(events);
    && (forall k :: k in partials <==> 0 <= k < |order|)
    && (forall k :: 0 <= k < |order| ==> partials[k] == Accumulated(events, order[k]))
  }

  predicate ChannelsKnown(t: Turn, events: seq<ProviderEvent>) {
    && t.completed == [] && t.warnings == [] && t.usage.None? && t.finish.None?
    && t.text == ContentText(events) && t.reasoning == ContentReasoning(events) && t.opaqueValue == Signature(events)
  }

  /** What a mapper and an assembler fed by it both know after `events`. */
  ghost predicate Knows(calls: seq<OpenCall>, t: Turn, events: seq<ProviderEvent>) {
    CallsKnown(calls, events) && PartialsKnown(t.partials, events) && ChannelsKnown(t, events)
  }

  lemma {:induction false} MapSnoc(events: seq<ProviderEvent>, last: ProviderEvent)
    ensures MapAll(events + [last])
         == var (calls, chunks) := MapAll(events);
            var (calls', more) := MapEvent(calls, last);
            (calls', chunks + more)
  {
    assert (events + [last])[..|events|] == events;
  }

  /** The book-keeping of one more event on the provider's side. */
  lemma {:induction false} ReferenceSnoc(events: seq<ProviderEvent>, last: ProviderEvent, id: string)
    ensures Order(events + [last])
         == if last.CallChunk? && last.callId !in Order(events) then Order(events) + [last.callId] else Order(events)
    ensures Longest(events + [last], id)
         == if IsCall(last, id) && |last.args| > |Longest(events, id)| then last.args else Longest(events, id)
    ensures id in Order(events) ==> FirstName(events + [last], id) == FirstName(events, id)
    ensures id !in Order(events) ==> Longest(events, id) == ""
    ensures id !in Order(events) ==> FirstName(events + [last], id) == if IsCall(last, id) then last.name else ""
  {
    assert (events + [last])[..|events|] == events;
    OrderIs(events);
    FirstNameSnoc(events, last, id);
    LongestIs(events, id);
  }

  /** The longest snapshot so far is a prefix of any longer one. */
  lemma {:induction false} LongestPrefix(events: seq<ProviderEvent>, last: ProviderEvent, id: string)
    requires PrefixChains(events + [last]) && IsCall(last, id) && |last.args| > |Longest(events, id)|
    ensures Longest(events, id) + last.args[|Longest(events, id)|..] == last.args
  {
    LongestIs(events, id);
    var best := Longest(events, id);
    if best != "" {
      var i :| 0 <= i < |events| && IsCall(events[i], id) && events[i].args == best;
      var all := events + [last];
      assert all[i] == events[i] && all[|events|] == last;
      assert best <= last.args;
    }
  }

  lemma {:induction false} ChannelsSnoc(events: seq<ProviderEvent>, last: ProviderEvent)
    ensures ContentText(events + [last]) == if last.Chunk? then ContentText(events) + last.content else ContentText(events)
    ensures ContentReasoning(events + [last])
         == if last.ReasoningChunk? then ContentReasoning(events) + last.content else ContentReasoning(events)
    ensures Signature(events + [last])
         == if last.ThoughtSignature? then Some(Object(map[SIGNATURE_KEY := Text(last.content)])) else Signature(events)
  {
    assert (events + [last])[..|events|] == events;
    assert ContentText(events) + "" == ContentText(events) && ContentReasoning(events) + "" == ContentReasoning(events);
  }

  /** Calls other than the event's own are unaffected. */
  lemma {:induction false} OthersStay(events: seq<ProviderEvent>, last: ProviderEvent, id: string)
    requires id in Order(events) && (IsCall(last, id) ==> |last.args| <= |Longest(events, id)|)
    ensures Accumulated(events + [last], id) == Accumulated(events, id)
  {
    ReferenceSnoc(events, last, id);
  }

  /** The event's own call sits at its position in the order of appearance. */
  lemma {:induction false} KnownPosition(calls: seq<OpenCall>, events: seq<ProviderEvent>, id: string)
    requires CallsKnown(calls, events)
    ensures var k := Position(calls, id);
            var order := Order(events);
            if k < |calls| then order[k] == id && calls[k].sent == |Longest(events, id)| && (forall j :: 0 <= j < |order| && j != k ==> order[j] != id)
            else id !in order
  {
    OrderIs(events);
  }

  lemma {:induction false} ExtendParts(calls: seq<OpenCall>, partials: map<nat, Partial>, events: seq<ProviderEvent>, last: ProviderEvent, k: nat)
    requires CallsKnown(calls, events) && PartialsKnown(partials, events) && PrefixChains(events + [last]) && last.CallChunk?
    requires k == Position(calls, last.callId) && k < |calls| && |last.args| > calls[k].sent
    ensures CallsKnown(calls[k := OpenCall(last.callId, |last.args|)], events + [last])
    ensures PartialsKnown(partials[k := partials[k].(args := partials[k].args + last.args[calls[k].sent..])], events + [last])
  {
    hide Order, Longest, FirstName, PrefixChains, Position;
    var order := Order(events);
    KnownPosition(calls, events, last.callId);
    ReferenceSnoc(events, last, last.callId);
    LongestPrefix(events, last, last.callId);
    forall j | 0 <= j < |order| && j != k ensures Accumulated(events + [last], order[j]) == Accumulated(events, order[j]) {
      OthersStay(events, last, order[j]);
    }
  }

  lemma {:induction false} AppearParts(calls: seq<OpenCall>, partials: map<nat, Partial>, events: seq<ProviderEvent>, last: ProviderEvent)
    requires CallsKnown(calls, events) && PartialsKnown(partials, events)
    requires last.CallChunk? && Position(calls, last.callId) == |calls|
    ensures CallsKnown(calls + [OpenCall(last.callId, |last.args|)], events + [last])
    ensures PartialsKnown(partials[|calls| := Partial(last.callId, last.name, last.args)], events + [last])
  {
    hide Order, Longest, FirstName, Position;
    var order := Order(events);
    KnownPosition(calls, events, last.callId);
    ReferenceSnoc(events, last, last.callId);
    forall j | 0 <= j < |order| ensures Accumulated(events + [last], order[j]) == Accumulated(events, order[j]) {
      OthersStay(events, last, order[j]);
    }
  }

  /** An event that says nothing new about any call. */
  lemma {:induction false} QuietParts(calls: seq<OpenCall>, partials: map<nat, Partial>, events: seq<ProviderEvent>, last: ProviderEvent)
    requires CallsKnown(calls, events) && PartialsKnown(partials, events)
    requires last.CallChunk? ==> var k := Position(calls, last.callId); k < |calls| && |last.args| <= calls[k].sent
    ensures CallsKnown(calls, events + [last]) && PartialsKnown(partials, events + [last])
  {
    hide Order, Longest, FirstName, Position;
    var order := Order(events);
    if last.CallChunk? { KnownPosition(calls, events, last.callId); }
    ReferenceSnoc(events, last, if last.CallChunk? then last.callId else "");
    forall j | 0 <= j < |order| ensures Accumulated(events + [last], order[j]) == Accumulated(events, order[j]) {
      OthersStay(events, last, order[j]);
    }
  }

  lemma {:induction false} SignatureMerges(old_: Option<Value>, content: string)
    requires old_.Some? ==> old_.value.Object? && old_.value.fields.Keys == {SIGNATURE_KEY}
    ensures MergeOpaque(old_, Object(map[SIGNATURE_KEY := Text(content)])) == Some(Object(map[SIGNATURE_KEY := Text(content)]))
  {
    if old_.Some? {
      assert old_.value.fields + map[SIGNATURE_KEY := Text(content)] == map[SIGNATURE_KEY := Text(content)];
    }
  }

  lemma {:induction false} SignatureIs(events: seq<ProviderEvent>)
    ensures Signature(events).Some? ==>
              Signature(events).value.Object? && Signature(events).value.fields.Keys == {SIGNATURE_KEY}
    decreases |events|
  {
    if events != [] { SignatureIs(events[..|events| - 1]); }
  }

  /** One event keeps mapper and assembler in step with the reference. */
  lemma {:induction false} StepKnown(parse: Parser, calls: seq<OpenCall>, t: Turn, events: seq<ProviderEvent>, last: ProviderEvent)
    requires Knows(calls, t, events) && !last.End? && PrefixChains(events + [last])
    ensures var (calls', more) := MapEvent(calls, last);
            Knows(calls', FoldFrom(parse, t, more), events + [last])
  {
    hide CallsKnown, PartialsKnown, ContentText, ContentReasoning, Signature, PrefixChains, FoldFrom, MergeOpaque, Position;
    var (calls', more) := MapEvent(calls, last);
    ChannelsSnoc(events, last);
    SignatureIs(events);
    FoldFew(parse, t, more);
    match last
    case CallChunk(id, name, args) =>
      var k := Position(calls, id);
      if k == |calls| {
        AppearParts(calls, t.partials, events, last);
        KnownKeys(calls, t, events, k);
        AppearPush(parse, t, k, id, name, args);
      } else if |args| > calls[k].sent {
        ExtendParts(calls, t.partials, events, last, k);
        KnownKeys(calls, t, events, k);
      } else {
        QuietParts(calls, t.partials, events, last);
      }
    case ThoughtSignature(content) =>
      QuietParts(calls, t.partials, events, last);
      SignatureMerges(t.opaqueValue, content);
    case _ => QuietParts(calls, t.partials, events, last);
  }

  lemma {:induction false} KnownKeys(calls: seq<OpenCall>, t: Turn, events: seq<ProviderEvent>, k: nat)
    requires Knows(calls, t, events)
    ensures k in t.partials <==> k < |calls|
  {
  }

  lemma {:induction false} AppearPush(parse: Parser, t: Turn, k: nat, id: string, name: string, args: string)
    requires k !in t.partials
    ensures Push(parse, t, ToolCallStart(k, id, name)) == t.(partials := t.partials[k := Partial(id, name, "")])
    ensures Push(parse, Push(parse, t, ToolCallStart(k, id, name)), ToolArgsDelta(k, args))
         == t.(partials := t.partials[k := Partial(id, name, args)])
  {
    assert "" + args == args && t.warnings + [] == t.warnings;
    assert t.partials[k := Partial(id, name, "")][k := Partial(id, name, args)] == t.partials[k := Partial(id, name, args)];
  }

  /** Folds of at most two chunks, spelled out. */
  lemma {:induction false} FoldFew(parse: Parser, t: Turn, more: seq<StreamChunk>)
    ensures more == [] ==> FoldFrom(parse, t, more) == t
    ensures |more| == 1 ==> FoldFrom(parse, t, more) == Push(parse, t, more[0])
    ensures |more| == 2 ==> FoldFrom(parse, t, more) == Push(parse, Push(parse, t, more[0]), more[1])
  {
    if |more| == 1 { assert more == [] + [more[0]]; FoldSnoc(parse, t, [], more[0]); }
    if |more| == 2 {
      assert more == [more[0]] + [more[1]] && [more[0]] == [] + [more[0]];
      FoldSnoc(parse, t, [more[0]], more[1]);
      FoldSnoc(parse, t, [], more[0]);
    }
  }

  lemma {:induction false} StreamKnown(parse: Parser, events: seq<ProviderEvent>)
    requires NoEnd(events) && PrefixChains(events)
    ensures Knows(MapAll(events).0, Assemble(parse, MapAll(events).1), events)
    decreases |events|
  {
    hide Knows, MapEvent, FoldFrom;
    if events == [] {
      NothingKnown(parse);
    } else {
      var init, last := events[..|events| - 1], events[|events| - 1];
      assert PrefixChains(init) && NoEnd(init);
      StreamKnown(parse, init);
      assert events == init + [last];
      MapSnoc(init, last);
      var (calls, chunks) := MapAll(init);
      StepKnown(parse, calls, Assemble(parse, chunks), init, last);
      FoldConcat(parse, FRESH, chunks, MapEvent(calls, last).1);
    }
  }

  lemma {:induction false} NothingKnown(parse: Parser)
    ensures Knows([], FRESH, []) && FoldFrom(parse, FRESH, []) == FRESH && MapAll([]) == ([], [])
  {
  }

  // ------------------------------------------------------------------- the end

  /** The first `n` calls once sealed, with their indices. */
  ghost function SealedCalls(parse: Parser, events: seq<ProviderEvent>, n: nat): (r: seq<(nat, ToolCall)>)
    requires n <= |Order(events)|
    ensures Sorted(r) && forall i :: 0 <= i < |r| ==> r[i].0 < n
  {
    if n == 0 then []
    else
      var id := Order(events)[n - 1];
      SealedCalls(parse, events, n - 1) +
      (match Meaning(parse, Longest(events, id))
       case Some(arguments) => [(n - 1, ToolCall(id, FirstName(events, id), arguments))]
       case None => [])
  }

  lemma {:induction false} SealedAreExpected(parse: Parser, events: seq<ProviderEvent>, n: nat)
    requires n <= |Order(events)|
    ensures Calls(SealedCalls(parse, events, n)) == ExpectedCalls(parse, events, Order(events)[..n])
    decreases n
  {
    hide Order, Longest, FirstName, Meaning;
    if n > 0 {
      SealedAreExpected(parse, events, n - 1);
      assert Order(events)[..n][..n - 1] == Order(events)[..n - 1];
    }
  }

  /** `r` is `t` with its first `n` calls sealed, in index order. */
  ghost predicate EndsDone(parse: Parser, t: Turn, r: Turn, events: seq<ProviderEvent>, n: nat)
    requires n <= |Order(events)|
  {
    && r.completed == SealedCalls(parse, events, n)
    && (forall k :: k in r.partials <==> n <= k < |Order(events)|)
    && (forall k :: k in r.partials ==> k in t.partials && r.partials[k] == t.partials[k])
    && r.warnings == ExpectedWarnings(parse, events, Order(events)[..n])
    && r == t.(partials := r.partials, completed := r.completed, warnings := r.warnings)
  }

  lemma {:induction false} SealedNext(parse: Parser, events: seq<ProviderEvent>, n: nat)
    requires n < |Order(events)|
    ensures SealedCalls(parse, events, n + 1) == SealedCalls(parse, events, n) +
              (match Meaning(parse, Longest(events, Order(events)[n]))
               case Some(arguments) => [(n, ToolCall(Order(events)[n], FirstName(events, Order(events)[n]), arguments))]
               case None => [])
  {
    hide Order, Longest, FirstName, Meaning;
  }

  lemma {:induction false} WarningsNext(parse: Parser, events: seq<ProviderEvent>, n: nat)
    requires n < |Order(events)|
    ensures var id := Order(events)[n];
            ExpectedWarnings(parse, events, Order(events)[..n + 1])
              == ExpectedWarnings(parse, events, Order(events)[..n])
                 + (if Meaning(parse, Longest(events, id)).None? then [Malformed(id)] else [])
    ensures ExpectedWarnings(parse, events, Order(events)[..n]) + [] == ExpectedWarnings(parse, events, Order(events)[..n])
  {
    hide Order, Longest, Meaning;
    assert Order(events)[..n + 1][..n] == Order(events)[..n];
  }

  lemma {:induction false} PushEnd(parse: Parser, u: Turn, n: nat)
    requires n in u.partials
    ensures var p := u.partials[n];
            Push(parse, u, ToolCallEnd(n)) ==
              match Meaning(parse, p.args)
              case Some(arguments) => u.(partials := u.partials - {n}, completed := u.completed + [(n, ToolCall(p.id, p.name, arguments))])
              case None => u.(partials := u.partials - {n}, warnings := u.warnings + [Malformed(p.id)])
  {
    hide Meaning, SealCall;
    SealedOrQuarantined(parse, u.(partials := u.partials - {n}), n, u.partials[n]);
  }

  lemma {:induction false} EndOne(parse: Parser, t: Turn, u: Turn, events: seq<ProviderEvent>, n: nat)
    requires PartialsKnown(t.partials, events) && n < |Order(events)| && EndsDone(parse, t, u, events, n)
    ensures EndsDone(parse, t, Push(parse, u, ToolCallEnd(n)), events, n + 1)
  {
    hide Order, Longest, FirstName, Meaning, SealedCalls, Push, ExpectedWarnings;
    WarningsNext(parse, events, n);
    assert n in u.partials && u.partials[n] == Accumulated(events, Order(events)[n]);
    PushEnd(parse, u, n);
    SealedNext(parse, events, n);
    assert SealedCalls(parse, events, n) + [] == SealedCalls(parse, events, n);
  }

  /** The end event seals every open call. */
  lemma {:induction false} EndsSeal(parse: Parser, t: Turn, events: seq<ProviderEvent>, n: nat)
    requires PartialsKnown(t.partials, events) && t.completed == [] && t.warnings == [] && n <= |Order(events)|
    ensures EndsDone(parse, t, FoldFrom(parse, t, Ends(n)), events, n)
    decreases n
  {
    hide Order, FoldFrom, Push, EndsDone, PartialsKnown;
    if n == 0 {
      assert Ends(0) == [];
      FoldFew(parse, t, []);
      NoneDone(parse, t, events);
    } else {
      EndsSeal(parse, t, events, n - 1);
      assert Ends(n) == Ends(n - 1) + [ToolCallEnd(n - 1)];
      FoldSnoc(parse, t, Ends(n - 1), ToolCallEnd(n - 1));
      EndOne(parse, t, FoldFrom(parse, t, Ends(n - 1)), events, n - 1);
    }
  }

  lemma {:induction false} NoneDone(parse: Parser, t: Turn, events: seq<ProviderEvent>)
    requires PartialsKnown(t.partials, events) && t.completed == [] && t.warnings == []
    ensures EndsDone(parse, t, t, events, 0)
  {
    hide Order, Longest, FirstName, Meaning;
  }

  /** The content an assembled turn must carry. */
  function ExpectedContent(reasoning: string, text: string, calls: seq<ToolCall>): seq<ContentPart> {
    (if reasoning != "" then [ReasoningPart(reasoning)] else [])
    + (if text != "" then [TextPart(text)] else [])
    + seq(|calls|, i requires 0 <= i < |calls| => CallPart(calls[i]))
  }

  function ExpectedOutcome(reasoning: string, text: string, calls: seq<ToolCall>, finish: FinishReason): Outcome {
    if text == "" && calls == [] && (reasoning == "" || finish == Length) then Empty else Content
  }

  lemma {:induction false} CallsExpected(reasoning: string, text: string, calls: seq<(nat, ToolCall)>)
    ensures ExpectedContent(reasoning, text, Calls(calls))
         == (if reasoning != "" then [ReasoningPart(reasoning)] else [])
            + (if text != "" then [TextPart(text)] else []) + CallParts(calls)
  {
  }

  /** Map, then assemble: for any stream of growing snapshots ended once, the turn
      carries exactly the text, the reasoning, the calls in first-appearance order
      with their longest arguments parsed, the usage and the stop reason. */
  lemma {:induction false} MapThenAssemble(parse: Parser, events: seq<ProviderEvent>, usage: Option<Usage>, stop: Option<FinishReason>)
    requires NoEnd(events) && PrefixChains(events)
    ensures var (calls, chunks) := MapAll(events + [End(usage, stop)]);
            var turn := Complete(Assemble(parse, chunks));
            var expected := ExpectedCalls(parse, events, Order(events));
            var finish := if stop.Some? then stop.value else UNSPECIFIED;
            && calls == []
            && turn.message == Message(Assistant, ExpectedContent(ContentReasoning(events), ContentText(events), expected),
                                       None, false, Signature(events))
            && turn.usage == usage
            && turn.finish == finish
            && turn.outcome == ExpectedOutcome(ContentReasoning(events), ContentText(events), expected, finish)
            && turn.warnings == ExpectedWarnings(parse, events, Order(events))
  {
    hide Order, Longest, FirstName, Meaning, ContentText, ContentReasoning, Signature, PrefixChains, FoldFrom, Ends,
         Complete, EndsDone, Push, ExpectedContent, ExpectedOutcome, ExpectedCalls;
    StreamKnown(parse, events);
    var (open, sent) := MapAll(events);
    MapSnoc(events, End(usage, stop));
    var t := Assemble(parse, sent);
    var n := |Order(events)|;
    var tail := (if usage.Some? then [UsageReport(usage.value)] else []) + [Done(if stop.Some? then stop.value else UNSPECIFIED)];
    assert MapEnd(open, usage, stop) == Ends(n) + tail;
    FoldConcat(parse, FRESH, sent, Ends(n) + tail);
    FoldConcat(parse, t, Ends(n), tail);
    EndsSeal(parse, t, events, n);
    FoldFew(parse, FoldFrom(parse, t, Ends(n)), tail);
    Finished(parse, events, t, FoldFrom(parse, t, Ends(n)), usage, if stop.Some? then stop.value else UNSPECIFIED);
  }

  /** Completing a turn whose calls are all sealed, after the terminal chunks. */
  lemma {:induction false} Finished(parse: Parser, events: seq<ProviderEvent>, t: Turn, sealed: Turn, usage: Option<Usage>, finish: FinishReason)
    requires ChannelsKnown(t, events) && EndsDone(parse, t, sealed, events, |Order(events)|)
    ensures var reported := if usage.Some? then Push(parse, sealed, UsageReport(usage.value)) else sealed;
            var turn := Complete(Push(parse, reported, Done(finish)));
            var expected := ExpectedCalls(parse, events, Order(events));
            && turn.message == Message(Assistant, ExpectedContent(ContentReasoning(events), ContentText(events), expected),
                                       None, false, Signature(events))
            && turn.usage == usage && turn.finish == finish
            && turn.outcome == ExpectedOutcome(ContentReasoning(events), ContentText(events), expected, finish)
            && turn.warnings == ExpectedWarnings(parse, events, Order(events))
  {
    hide Order, Longest, FirstName, Meaning, ContentText, ContentReasoning, Signature, SortByIndex, SealedCalls, ExpectedCalls,
         Push, Complete, ExpectedContent, CallParts;
    assert sealed.partials == map[];
    SealedAreExpected(parse, events, |Order(events)|);
    assert Order(events)[..|Order(events)|] == Order(events);
    SortedSorts(sealed.completed);
    CallsExpected(ContentReasoning(events), ContentText(events), sealed.completed);
    Terminated(parse, sealed, usage, finish);
  }

  lemma {:induction false} NoneOpen(t: Turn)
    requires t.partials == map[]
    ensures OpenKeys(t) == [] && QuarantineOf(t.partials, []) == []
  {
  }

  /** The terminal chunks on a turn with nothing open. */
  lemma {:induction false} Terminated(parse: Parser, sealed: Turn, usage: Option<Usage>, finish: FinishReason)
    requires sealed.partials == map[] && sealed.usage.None? && sealed.finish.None?
    ensures var reported := if usage.Some? then Push(parse, sealed, UsageReport(usage.value)) else sealed;
            var turn := Complete(Push(parse, reported, Done(finish)));
            && turn.message == Message(Assistant, ContentOf(sealed), None, false, sealed.opaqueValue)
            && turn.usage == usage && turn.finish == finish
            && turn.outcome == OutcomeOf(sealed.(finish := Some(finish)))
            && turn.warnings == sealed.warnings
  {
    hide SortByIndex, CallParts, OpenKeys, QuarantineOf;
    var reported := if usage.Some? then Push(parse, sealed, UsageReport(usage.value)) else sealed;
    var done := Push(parse, reported, Done(finish));
    NoneOpen(done);
    assert sealed.warnings + [] == sealed.warnings;
  }

  // ----------------------------------------------------------- index discipline

  /** Calls started, calls ended, and whether the terminal chunk was seen. */
  datatype Track = Track(started: nat, ended: nat, done: bool)

  /** Starts take the next index; arguments and ends address started calls; no
      start or arguments after the first end; `Done` once, last, with nothing open. */
  function Follow(t: Track, chunk: StreamChunk): Option<Track> {
    if t.done then None
    else match chunk
      case ToolCallStart(i, _, _) => if i == t.started && t.ended == 0 then Some(t.(started := i + 1)) else None
      case ToolArgsDelta(i, _) => if i < t.started && t.ended == 0 then Some(t) else None
      case ToolCallEnd(i) => if i == t.ended < t.started then Some(t.(ended := i + 1)) else None
      case Done(_) => if t.ended == t.started then Some(t.(done := true)) else None
      case _ => Some(t)
  }

  function FollowAll(t: Track, chunks: seq<StreamChunk>): Option<Track> {
    if chunks == [] then Some(t)
    else match FollowAll(t, chunks[..|chunks| - 1])
      case Some(u) => Follow(u, chunks[|chunks| - 1])
      case None => None
  }

  lemma {:induction false} FollowSnoc(t: Track, chunks: seq<StreamChunk>, chunk: StreamChunk)
    ensures FollowAll(t, chunks + [chunk])
         == match FollowAll(t, chunks) case Some(u) => Follow(u, chunk) case None => None
  {
    assert (chunks + [chunk])[..|chunks|] == chunks;
  }

  const IDLE := Track(0, 0, false)

  /** At most two chunks further. */
  function FollowFew(t: Track, more: seq<StreamChunk>): Option<Track> {
    if more == [] then Some(t)
    else match Follow(t, more[0])
      case None => None
      case Some(u) => if |more| == 1 then Some(u) else Follow(u, more[1])
  }

  lemma {:induction false} FollowConcat(t: Track, chunks: seq<StreamChunk>, more: seq<StreamChunk>)
    requires |more| <= 2
    ensures FollowAll(t, chunks + more) == match FollowAll(t, chunks) case Some(u) => FollowFew(u, more) case None => None
  {
    hide FollowAll, Follow;
    if more == [] {
      assert chunks + more == chunks;
    } else {
      FollowSnoc(t, chunks, more[0]);
      if |more| == 1 {
        assert more == [more[0]];
      } else {
        FollowSnoc(t, chunks + [more[0]], more[1]);
        assert chunks + more == (chunks + [more[0]]) + [more[1]];
      }
    }
  }

  /** One event's chunks keep the discipline while the stream is open. */
  lemma {:induction false} EventFollows(calls: seq<OpenCall>, event: ProviderEvent)
    requires !event.End?
    ensures var (calls', more) := MapEvent(calls, event);
            |more| <= 2 && FollowFew(Track(|calls|, 0, false), more) == Some(Track(|calls'|, 0, false))
  {
    hide Suffix;
  }

  lemma {:induction false} OpenDiscipline(events: seq<ProviderEvent>)
    requires NoEnd(events)
    ensures FollowAll(IDLE, MapAll(events).1) == Some(Track(|MapAll(events).0|, 0, false))
    decreases |events|
  {
    hide FollowAll, FollowFew, MapAll, MapEvent;
    NothingFollowed();
    if events != [] {
      var init, last := events[..|events| - 1], events[|events| - 1];
      OpenDiscipline(init);
      assert events == init + [last];
      MapSnoc(init, last);
      EventFollows(MapAll(init).0, last);
      FollowConcat(IDLE, MapAll(init).1, MapEvent(MapAll(init).0, last).1);
    }
  }

  lemma {:induction false} NothingFollowed()
    ensures FollowAll(IDLE, []) == Some(IDLE) && MapAll([]) == ([], [])
  {
  }

  lemma {:induction false} EndsFollow(chunks: seq<StreamChunk>, started: nat, n: nat)
    requires FollowAll(IDLE, chunks) == Some(Track(started, 0, false)) && n <= started
    ensures FollowAll(IDLE, chunks + Ends(n)) == Some(Track(started, n, false))
    decreases n
  {
    hide FollowAll;
    if n == 0 {
      assert chunks + Ends(0) == chunks;
    } else {
      EndsFollow(chunks, started, n - 1);
      assert chunks + Ends(n) == (chunks + Ends(n - 1)) + [ToolCallEnd(n - 1)];
      FollowSnoc(IDLE, chunks + Ends(n - 1), ToolCallEnd(n - 1));
    }
  }

  /** Every mapped stream ended once obeys the index discipline, `Done` last. */
  lemma {:induction false} ChunksDisciplined(events: seq<ProviderEvent>, usage: Option<Usage>, stop: Option<FinishReason>)
    requires NoEnd(events)
    ensures var n := |MapAll(events).0|;
            FollowAll(IDLE, MapAll(events + [End(usage, stop)]).1) == Some(Track(n, n, true))
  {
    hide FollowAll, Ends, MapAll;
    OpenDiscipline(events);
    MapSnoc(events, End(usage, stop));
    var (open, sent) := MapAll(events);
    var n := |open|;
    EndsFollow(sent, n, n);
    var tail := (if usage.Some? then [UsageReport(usage.value)] else []) + [Done(if stop.Some? then stop.value else UNSPECIFIED)];
    EndsThen(sent, Ends(n), if usage.Some? then [UsageReport(usage.value)] else [], [Done(if stop.Some? then stop.value else UNSPECIFIED)]);
    assert sent + MapEnd(open, usage, stop) == (sent + Ends(n)) + tail;
    FollowConcat(IDLE, sent + Ends(n), tail);
  }

  lemma {:induction false} EndsThen(a: seq<StreamChunk>, b: seq<StreamChunk>, c: seq<StreamChunk>, d: seq<StreamChunk>)
    ensures a + (b + c + d) == (a + b) + (c + d)
  {
  }
}
