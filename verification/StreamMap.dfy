/**
 Mapping a provider's accumulated snapshots onto honest increments: every tool
 call chunk carries the whole argument text so far, and the mapper sends only
 the suffix that is new.
 */
module StreamMap {
  import opened Prelude
  import opened Contract

  datatype ProviderEvent =
    | Opened
    | Chunk(content: string)
    | ReasoningChunk(content: string)
    | ThoughtSignature(content: string)
    | CallChunk(callId: string, name: string, args: string)
    | End(usage: Option<Usage>, stop: Option<FinishReason>)

  datatype OpenCall = OpenCall(id: string, sent: nat)

  function Position(calls: seq<OpenCall>, id: string): (k: nat)
    ensures k <= |calls| && (k < |calls| ==> calls[k].id == id)
    ensures forall i :: 0 <= i < k ==> calls[i].id != id
  {
    if calls == [] || calls[0].id == id then 0 else 1 + Position(calls[1..], id)
  }

  /** The not yet sent suffix; a shrink or a repeat sends nothing. */
  function Suffix(args: string, sent: nat): Option<string> {
    if |args| <= sent then None else Some(args[sent..])
  }

  const SIGNATURE_KEY := "thought_signature"
  const UNSPECIFIED := OtherFinish("unspecified")

  function Ends(n: nat): (r: seq<StreamChunk>)
    ensures |r| == n && forall i :: 0 <= i < n ==> r[i] == ToolCallEnd(i)
  {
    seq(n, i requires 0 <= i < n => ToolCallEnd(i))
  }

  function MapCall(calls: seq<OpenCall>, id: string, name: string, args: string): (seq<OpenCall>, seq<StreamChunk>) {
    var k := Position(calls, id);
    if k < |calls| then
      match Suffix(args, calls[k].sent)
      case Some(fragment) => (calls[k := OpenCall(id, |args|)], [ToolArgsDelta(k, fragment)])
      case None => (calls, [])
    else
      (calls + [OpenCall(id, |args|)],
       [ToolCallStart(k, id, name)] + (if args != "" then [ToolArgsDelta(k, args)] else []))
  }

  function MapEnd(calls: seq<OpenCall>, usage: Option<Usage>, stop: Option<FinishReason>): seq<StreamChunk> {
    Ends(|calls|)
    + (if usage.Some? then [UsageReport(usage.value)] else [])
    + [Done(if stop.Some? then stop.value else UNSPECIFIED)]
  }

  function MapEvent(calls: seq<OpenCall>, event: ProviderEvent): (seq<OpenCall>, seq<StreamChunk>) {
    match event
    case Opened => (calls, [])
    case Chunk(content) => (calls, [TextDelta(content)])
    case ReasoningChunk(content) => (calls, [ReasoningDelta(content)])
    case ThoughtSignature(content) => (calls, [OpaqueDelta(Object(map[SIGNATURE_KEY := Text(content)]))])
    case CallChunk(id, name, args) => MapCall(calls, id, name, args)
    case End(usage, stop) => ([], MapEnd(calls, usage, stop))
  }

  /** A whole event stream through one mapper: its calls and every chunk sent. */
  function MapAll(events: seq<ProviderEvent>): (seq<OpenCall>, seq<StreamChunk>) {
    if events == [] then ([], [])
    else
      var (calls, chunks) := MapAll(events[..|events| - 1]);
      var (calls', more) := MapEvent(calls, events[|events| - 1]);
      (calls', chunks + more)
  }

  class StreamMapper {
    var calls: seq<OpenCall>

    constructor ()
      ensures calls == []
    {
      calls := [];
    }

    method Map(event: ProviderEvent) returns (chunks: seq<StreamChunk>)
      modifies this
      ensures (calls, chunks) == MapEvent(old(calls), event)
    {
      match event
      case Opened => chunks := [];
      case Chunk(content) => chunks := [TextDelta(content)];
      case ReasoningChunk(content) => chunks := [ReasoningDelta(content)];
      case ThoughtSignature(content) => chunks := [OpaqueDelta(Object(map[SIGNATURE_KEY := Text(content)]))];
      case CallChunk(id, name, args) => chunks := MapToolCall(id, name, args);
      case End(usage, stop) => chunks := FinishAll(usage, stop);
    }

    method MapToolCall(id: string, name: string, args: string) returns (chunks: seq<StreamChunk>)
      modifies this
      ensures (calls, chunks) == MapCall(old(calls), id, name, args)
    {
      var index := Position(calls, id);
      if index < |calls| {
        var fragment := Suffix(args, calls[index].sent);
        if fragment.Some? {
          calls := calls[index := calls[index].(sent := |args|)];
          chunks := [ToolArgsDelta(index, fragment.value)];
        } else {
          chunks := [];
        }
      } else {
        calls := calls + [OpenCall(id, |args|)];
        chunks := [ToolCallStart(|calls| - 1, id, name)];
        assert index == |calls| - 1 && chunks == chunks + [];
        if args != "" {
          chunks := chunks + [ToolArgsDelta(|calls| - 1, args)];
        }
      }
    }

    method FinishAll(usage: Option<Usage>, stop: Option<FinishReason>) returns (chunks: seq<StreamChunk>)
      modifies this
      ensures calls == [] && chunks == MapEnd(old(calls), usage, stop)
    {
      chunks := [];
      var index := 0;
      while index < |calls|
        invariant index <= |calls| && chunks == Ends(index) && calls == old(calls)
      {
        chunks := chunks + [ToolCallEnd(index)];
        index := index + 1;
      }
      calls := [];
      if usage.Some? { chunks := chunks + [UsageReport(usage.value)]; }
      chunks := chunks + [Done(if stop.Some? then stop.value else UNSPECIFIED)];
    }
  }
}
