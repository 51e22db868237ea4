/**
 Folding one provider stream into an assistant turn: fragments are merged by
 call index, sealed calls are parsed, open ones are quarantined at the end.
 `parse` stands for the JSON parser.
 */
module Assembler {
  import opened Prelude
  import opened Contract
  import opened StableSort

  type Parser = string -> Option<Value>

  datatype Partial = Partial(id: string, name: string, args: string)

  datatype Warning =
    | IndexReused(index: nat)
    | FragmentWithoutStart(index: nat)
    | EndWithoutStart(index: nat)
    | Malformed(id: string)
    | LeftOpen(id: string, index: nat)

  datatype Turn = Turn(
    text: string,
    reasoning: string,
    partials: map<nat, Partial>,
    completed: seq<(nat, ToolCall)>,
    opaqueValue: Option<Value>,
    usage: Option<Usage>,
    finish: Option<FinishReason>,
    warnings: seq<Warning>)

  const FRESH := Turn("", "", map[], [], None, None, None, [])

  /** Objects merge key-wise, anything else replaces. */
  function MergeOpaque(slot: Option<Value>, value: Value): Option<Value> {
    if slot.Some? && slot.value.Object? && value.Object?
    then Some(Object(slot.value.fields + value.fields))
    else Some(value)
  }

  /** A call's parsed arguments; an empty body is the empty object. */
  function ParseArgs(parse: Parser, args: string): Option<Value> {
    if Trim(args) == "" then Some(Object(map[])) else parse(Trim(args))
  }

  function SealCall(parse: Parser, t: Turn, index: nat, p: Partial): Turn {
    match ParseArgs(parse, p.args)
    case Some(arguments) => t.(completed := t.completed + [(index, ToolCall(p.id, p.name, arguments))])
    case None => t.(warnings := t.warnings + [Malformed(p.id)])
  }

  function Decimal(n: nat): string {
    (if n < 10 then "" else Decimal(n / 10)) + ["0123456789"[n % 10]]
  }

  function SynthesizedId(index: nat): string {
    "call_" + Decimal(index)
  }

  function Push(parse: Parser, t: Turn, chunk: StreamChunk): Turn {
    match chunk
    case TextDelta(delta) => t.(text := t.text + delta)
    case ReasoningDelta(delta) => t.(reasoning := t.reasoning + delta)
    case ToolCallStart(index, id, name) =>
      t.(partials := t.partials[index := Partial(id, name, "")],
         warnings := t.warnings + (if index in t.partials then [IndexReused(index)] else []))
    case ToolArgsDelta(index, fragment) =>
      if index in t.partials then
        t.(partials := t.partials[index := t.partials[index].(args := t.partials[index].args + fragment)])
      else
        t.(partials := t.partials[index := Partial(SynthesizedId(index), "", fragment)],
           warnings := t.warnings + [FragmentWithoutStart(index)])
    case ToolCallEnd(index) =>
      if index in t.partials then
        SealCall(parse, t.(partials := t.partials - {index}), index, t.partials[index])
      else
        t.(warnings := t.warnings + [EndWithoutStart(index)])
    case OpaqueDelta(value) => t.(opaqueValue := MergeOpaque(t.opaqueValue, value))
    case UsageReport(usage) => t.(usage := Some(usage))
    case Done(finish) => t.(finish := Some(finish))
  }

  /** A stream folded on top of `t`, oldest chunk first. */
  function FoldFrom(parse: Parser, t: Turn, chunks: seq<StreamChunk>): Turn {
    if chunks == [] then t
    else Push(parse, FoldFrom(parse, t, chunks[..|chunks| - 1]), chunks[|chunks| - 1])
  }

  function Assemble(parse: Parser, chunks: seq<StreamChunk>): Turn {
    FoldFrom(parse, FRESH, chunks)
  }

  // ----------------------------------------------------------------- snapshot

  datatype CallState = Sealed(call: ToolCall) | Open(id: string, name: string, arguments: string)

  datatype TurnSnapshot = TurnSnapshot(
    text: string, reasoning: string, calls: seq<(nat, CallState)>, usage: Option<Usage>)

  function SealedOf(completed: seq<(nat, ToolCall)>): (r: seq<(nat, CallState)>)
    ensures |r| == |completed|
    ensures forall i :: 0 <= i < |r| ==> r[i] == (completed[i].0, Sealed(completed[i].1))
  {
    seq(|completed|, i requires 0 <= i < |completed| => (completed[i].0, Sealed(completed[i].1)))
  }

  function OpenOf(partials: map<nat, Partial>, keys: seq<nat>): (r: seq<(nat, CallState)>)
    requires forall i :: 0 <= i < |keys| ==> keys[i] in partials
    ensures |r| == |keys|
    ensures forall i :: 0 <= i < |r| ==>
              r[i] == (keys[i], Open(partials[keys[i]].id, partials[keys[i]].name, partials[keys[i]].args))
  {
    seq(|keys|, i requires 0 <= i < |keys| =>
      (keys[i], Open(partials[keys[i]].id, partials[keys[i]].name, partials[keys[i]].args)))
  }

  /** The ascending keys of the open calls. */
  ghost function OpenKeys(t: Turn): (r: seq<nat>)
    ensures forall i :: 0 <= i < |r| ==> r[i] in t.partials
    ensures forall k :: k in r <==> k in t.partials
    ensures forall i, j :: 0 <= i < j < |r| ==> r[i] < r[j]
  {
    AscendingIs(t.partials.Keys);
    Ascending(t.partials.Keys)
  }

  ghost function Snapshot(t: Turn): TurnSnapshot {
    TurnSnapshot(t.text, t.reasoning,
                 SortByIndex(SealedOf(t.completed) + OpenOf(t.partials, OpenKeys(t))),
                 t.usage)
  }

  // --------------------------------------------------------------- completion

  datatype Outcome = Content | Truncated | Empty

  datatype AssembledTurn = AssembledTurn(
    message: Message, usage: Option<Usage>, finish: FinishReason, warnings: seq<Warning>, outcome: Outcome)

  function CallParts(calls: seq<(nat, ToolCall)>): (r: seq<ContentPart>)
    ensures |r| == |calls|
    ensures forall i :: 0 <= i < |r| ==> r[i] == CallPart(calls[i].1)
  {
    seq(|calls|, i requires 0 <= i < |calls| => CallPart(calls[i].1))
  }

  function ContentOf(t: Turn): seq<ContentPart> {
    (if t.reasoning != "" then [ReasoningPart(t.reasoning)] else [])
    + (if t.text != "" then [TextPart(t.text)] else [])
    + CallParts(SortByIndex(t.completed))
  }

  function QuarantineOf(partials: map<nat, Partial>, keys: seq<nat>): (r: seq<Warning>)
    requires forall i :: 0 <= i < |keys| ==> keys[i] in partials
    ensures |r| == |keys|
    ensures forall i :: 0 <= i < |r| ==> r[i] == LeftOpen(partials[keys[i]].id, keys[i])
  {
    seq(|keys|, i requires 0 <= i < |keys| => LeftOpen(partials[keys[i]].id, keys[i]))
  }

  /** Reasoning at the length cap is no answer; an open call or a missing
      terminal record is truncation. */
  function OutcomeOf(t: Turn): Outcome {
    var answerless := t.text == "" && t.completed == [];
    if (answerless && t.reasoning == "") || (answerless && t.finish == Some(Length)) then Empty
    else if t.partials != map[] || t.finish.None? then Truncated
    else Content
  }

  ghost function Complete(t: Turn): AssembledTurn {
    AssembledTurn(
      Message(Assistant, ContentOf(t), None, false, t.opaqueValue),
      t.usage,
      if t.finish.Some? then t.finish.value else Stop,
      t.warnings + QuarantineOf(t.partials, OpenKeys(t)),
      OutcomeOf(t))
  }

  /** The tool calls of a message, in wire order. */
  function CallsOf(content: seq<ContentPart>): seq<ToolCall> {
    if content == [] then []
    else CallsOf(content[..|content| - 1]) +
         (if content[|content| - 1].CallPart? then [content[|content| - 1].call] else [])
  }

  // ------------------------------------------------------------ the assembler

  class MessageAssembler {
    const parse: Parser
    var text: string
    var reasoning: string
    var partials: map<nat, Partial>
    var completed: seq<(nat, ToolCall)>
    var opaqueValue: Option<Value>
    var usage: Option<Usage>
    var finish: Option<FinishReason>
    var warnings: seq<Warning>

    ghost function Model(): Turn
      reads this
    {
      Turn(text, reasoning, partials, completed, opaqueValue, usage, finish, warnings)
    }

    constructor (parse: Parser)
      ensures this.parse == parse && Model() == FRESH
    {
      this.parse := parse;
      text, reasoning, partials, completed := "", "", map[], [];
      opaqueValue, usage, finish, warnings := None, None, None, [];
    }

    method PushChunk(chunk: StreamChunk)
      modifies this
      ensures Model() == Push(parse, old(Model()), chunk)
    {
      match chunk
      case TextDelta(delta) => text := text + delta;
      case ReasoningDelta(delta) => reasoning := reasoning + delta;
      case ToolCallStart(index, id, name) =>
        var reused := index in partials;
        partials := partials[index := Partial(id, name, "")];
        if reused { warnings := warnings + [IndexReused(index)]; }
      case ToolArgsDelta(index, fragment) =>
        if index in partials {
          var p := partials[index];
          partials := partials[index := p.(args := p.args + fragment)];
        } else {
          warnings := warnings + [FragmentWithoutStart(index)];
          partials := partials[index := Partial(SynthesizedId(index), "", fragment)];
        }
      case ToolCallEnd(index) =>
        if index in partials {
          var p := partials[index];
          partials := partials - {index};
          Seal(index, p);
        } else {
          warnings := warnings + [EndWithoutStart(index)];
        }
      case OpaqueDelta(value) =>
        match opaqueValue {
          case Some(Object(existing)) =>
            if value.Object? {
              opaqueValue := Some(Object(existing + value.fields));
            } else {
              opaqueValue := Some(value);
            }
          case _ => opaqueValue := Some(value);
        }
      case UsageReport(u) => usage := Some(u);
      case Done(f) => finish := Some(f);
    }

    method Seal(index: nat, p: Partial)
      modifies this
      ensures Model() == SealCall(parse, old(Model()), index, p)
    {
      var args := Trim(p.args);
      var parsed := if args == "" then Some(Object(map[])) else parse(args);
      match parsed
      case Some(arguments) => completed := completed + [(index, ToolCall(p.id, p.name, arguments))];
      case None => warnings := warnings + [Malformed(p.id)];
    }

    /** The open calls' keys in ascending order, as an ordered map yields them. */
    method SortedKeys() returns (keys: seq<nat>)
      ensures keys == OpenKeys(Model())
    {
      var bound: nat := 0;
      var rest := partials.Keys;
      while rest != {}
        invariant rest <= partials.Keys
        invariant forall k :: k in partials.Keys && k !in rest ==> k < bound
        decreases |rest|
      {
        var k :| k in rest;
        if k >= bound { bound := k + 1; }
        rest := rest - {k};
      }
      keys := Below(partials.Keys, bound);
      AscendingBelow(partials.Keys, bound);
    }

    method TakeSnapshot() returns (s: TurnSnapshot)
      ensures s == Snapshot(Model())
    {
      var keys := SortedKeys();
      var calls := SealedOf(completed) + OpenOf(partials, keys);
      s := TurnSnapshot(text, reasoning, SortByIndex(calls), usage);
    }

    /** One warning per open call. */
    method Quarantine(keys: seq<nat>)
      requires forall i :: 0 <= i < |keys| ==> keys[i] in partials
      modifies this`warnings
      ensures warnings == old(warnings) + QuarantineOf(partials, keys)
    {
      var i := 0;
      while i < |keys|
        invariant i <= |keys| && |warnings| == |old(warnings)| + i
        invariant warnings == old(warnings) + QuarantineOf(partials, keys)[..i]
      {
        warnings := warnings + [LeftOpen(partials[keys[i]].id, keys[i])];
        i := i + 1;
      }
    }

    /** Reasoning, text, then the calls by index rather than by completion. */
    method BuildContent() returns (content: seq<ContentPart>)
      modifies this`completed
      ensures content == ContentOf(old(Model())) && completed == SortByIndex(old(completed))
    {
      content := [];
      if reasoning != "" { content := content + [ReasoningPart(reasoning)]; }
      if text != "" { content := content + [TextPart(text)]; }
      completed := SortByIndex(completed);
      content := content + CallParts(completed);
    }

    method Finish() returns (turn: AssembledTurn)
      modifies this
      ensures turn == Complete(old(Model()))
    {
      var keys := SortedKeys();
      var hadOpenCalls := partials != map[];
      Quarantine(keys);
      var content := BuildContent();
      var answerless := text == "" && completed == [];
      var outcome :=
        if content == [] || (answerless && finish == Some(Length)) then Empty
        else if hadOpenCalls || finish.None? then Truncated
        else Content;
      turn := AssembledTurn(Message(Assistant, content, None, false, opaqueValue), usage,
                            if finish.Some? then finish.value else Stop, warnings, outcome);
    }
  }
}
