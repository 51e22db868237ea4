/** The wire vocabulary shared by the log, the live stream and the clients. */
module Contract {
  import opened Prelude

  /** JSON as far as the core looks into it. */
  datatype Value = Object(fields: map<string, Value>) | Text(text: string) | Other(repr: string)

  datatype ToolCall = ToolCall(id: string, name: string, arguments: Value)

  datatype Role = System | User | Assistant | Tool

  /** `ResultPart` is a tool result's payload in its text form. */
  datatype ContentPart =
    | ReasoningPart(reasoning: string)
    | TextPart(text: string)
    | CallPart(call: ToolCall)
    | ResultPart(result: Value)

  datatype Message = Message(
    role: Role,
    content: seq<ContentPart>,
    toolCallId: Option<string>,
    isError: bool,
    opaqueValue: Option<Value>)

  function UserMessage(text: string): Message {
    Message(User, [TextPart(text)], None, false, None)
  }

  function ToolMessage(callId: string, result: Value, failed: bool): Message {
    Message(Tool, [ResultPart(result)], Some(callId), failed, None)
  }

  /** Unicode white space, the set `trim` strips. */
  predicate IsSpace(c: char) {
    var n := c as int;
    || 0x09 <= n <= 0x0D || n == 0x20 || n == 0x85 || n == 0xA0 || n == 0x1680
    || 0x2000 <= n <= 0x200A || n == 0x2028 || n == 0x2029 || n == 0x202F || n == 0x205F || n == 0x3000
  }

  function Trim(s: string): string {
    if s == "" then ""
    else if IsSpace(s[0]) then Trim(s[1..])
    else if IsSpace(s[|s| - 1]) then Trim(s[..|s| - 1])
    else s
  }

  // ------------------------------------------------------------------ streams

  datatype FinishReason = Stop | ToolCalls | Length | ContentFilter | OtherFinish(name: string)

  datatype Usage = Usage(input: nat, cacheRead: nat, cacheWrite: nat, output: nat, reasoningTokens: nat)

  /** One normalized increment of a provider stream. */
  datatype StreamChunk =
    | TextDelta(delta: string)
    | ReasoningDelta(delta: string)
    | ToolCallStart(index: nat, id: string, name: string)
    | ToolArgsDelta(index: nat, fragment: string)
    | ToolCallEnd(index: nat)
    | OpaqueDelta(value: Value)
    | UsageReport(usage: Usage)
    | Done(finish: FinishReason)

  // ------------------------------------------------------------------- events

  datatype Approval = Approved | Rejected(comment: Option<string>)

  datatype Command =
    | StartRun(base: seq<Message>)
    | Steer(text: string)
    | Interrupt
    | ResolveApproval(requestId: string, decisions: seq<Approval>)
    | ResolveApprovalCall(requestId: string, callIndex: nat, decision: Approval)

  datatype EventKind =
    | LlmRequest
    | LlmResponse(message: Message, warnings: seq<string>)
    | CallOpened(call: ToolCall)
    | ToolResult(callId: string, result: Value)
    | EvalScore(score: string)
    | InstructionInjected(path: string, content: string)
    | Fold(folded: nat)
    | Issued(command: Command)
    | RunFinished(turns: nat)

  /** A durable event. The attribute bag is kept as the entries the fold reads,
      each present only when its value has the expected type. */
  datatype Event = Event(
    id: string,
    traceId: string,
    spanId: string,
    kind: EventKind,
    failed: bool,
    error: Option<string>,
    turn: Option<nat>,
    approvalRequest: Option<string>,
    approvalIndex: Option<nat>,
    provider: Option<string>,
    model: Option<string>)

  // ---------------------------------------------------------------- live stream

  /** A provisional tool outcome whose durable result is still to come. */
  datatype Completion = Completion(spanId: string, turn: nat, name: string, result: Value)

  datatype LiveKind =
    | Recorded(event: Event)
    | AssistantDelta(turn: nat, chunk: StreamChunk)
    | ToolCompleted(completion: Completion)
    | ApprovalRequested(requestId: string, requestTurn: nat, calls: seq<ToolCall>)

  datatype LiveItem = LiveItem(position: nat, kind: LiveKind)

  /** One gated batch still open; `decisions` is indexed like `calls`. */
  datatype Pending = Pending(
    requestId: string,
    turn: nat,
    messageIndex: Option<nat>,
    calls: seq<ToolCall>,
    decisions: seq<Option<Approval>>)

  /** Recorded decisions of a batch no longer open. */
  datatype Settled = Settled(
    requestId: string,
    messageIndex: Option<nat>,
    calls: seq<ToolCall>,
    decisions: seq<Approval>)
}
