/** The vocabulary of the model/tool loop: messages, effects, checkpoints and decisions. */
module LoopTypes {
  import opened Base
  import opened PendingTools
  import opened CodeMode

  type OperationId = nat

  datatype StopReason = Stop | ToolUse | Length

  datatype AssistantContent = Text(text: string) | Reasoning(text: string) | Call(call: ToolCall)

  datatype Metadata = Metadata(
    api: Option<string>, provider: Option<string>, model: Option<string>, continuation: Option<string>)

  datatype Message =
    | User(blocks: seq<Block>)
    | Assistant(content: seq<AssistantContent>, stopReason: StopReason, metadata: Metadata)
    | Tool(result: ToolResult)

  datatype ModelResponse = ModelResponse(
    content: seq<AssistantContent>, stopReason: StopReason, metadata: Metadata)

  datatype ToolSpec = ToolSpec(name: string, schema: string)

  datatype ModelRequest = ModelRequest(systemPrompt: string, messages: seq<Message>, tools: seq<ToolSpec>)

  /** A summary request and the last message sequence its summary covers. */
  datatype CompactionPlan = CompactionPlan(summaryRequest: ModelRequest, coveredThrough: nat)

  /** The payload of one effect, before its lossless encoding. */
  datatype Request =
    | ModelCall(model: ModelRequest)
    | ToolCallRequest(call: ToolCall)
    | CodeStepCall(step: CodeStepRequest)

  datatype EffectRequest = EffectRequest(binding: string, request: Request)

  /** What an adapter answered, after decoding; `Undecodable` is any other value. */
  datatype Output =
    | Completed(response: ModelResponse)
    | ContextWindowExceeded(message: string)
    | ToolOutput(result: ToolResult)
    | StepOutput(output: CodeStepOutput)
    | Undecodable

  datatype EffectOutcome = Success(output: Output) | Failure(message: string) | UnsupportedOutcome

  datatype SettledEffect = SettledEffect(binding: string, request: Request, outcome: EffectOutcome)

  /** What the kernel knows of one effect when its operation is closed early. */
  datatype EffectFact =
    | NotDispatched(binding: string, request: Request)
    | Settled(effect: SettledEffect)
    | OutcomeUnknown(binding: string, request: Request)

  /** The semantic events of a session journal. `Unsupported` stands for an
      unknown version, or an undecodable payload, of a known event family. */
  datatype EventKind =
    | MessageEvent(message: Message)
    | AnnotationEvent(text: string)
    | ReceiptedEvent
    | CheckpointEvent(coveredThrough: nat, summary: string)
    | CompactionResultEvent(estimatedTokens: nat)
    | ForeignEvent
    | Unsupported

  datatype Event = Event(operation: OperationId, sequence: nat, kind: EventKind)

  /** When the Host admitted a prompt, and what it admitted with it. `Annotated`
      carries the rendered turn timing or turn context. */
  datatype Observation = Unobserved | Annotated(text: string) | Receipted

  datatype Command = Prompt(blocks: seq<Block>, observation: Observation) | Compact | InvalidCommand

  type NonZero = n: nat | n >= 1 witness 1

  datatype Phase =
    | NeedModel(turns: nat)
    | AwaitingModel(turns: nat)
    | AwaitingCompaction(turns: nat, plan: CompactionPlan, maxAttempts: NonZero, attempt: nat)
    | AwaitingExplicitCompaction(plan: CompactionPlan, maxAttempts: NonZero, attempt: nat)
    | NeedTool(turns: nat, pending: PendingToolCalls)
    | AwaitingTool(turns: nat, pending: PendingToolCalls)
    | AwaitingCodeStep(turns: nat, pending: PendingToolCalls, run: CodeRun, step: CodeStepRequest)
    | AwaitingCodeCalls(turns: nat, pending: PendingToolCalls, run: CodeRun, snapshot: string, calls: CodeCallBatch)
    | Terminal

  datatype Decision =
    | InvokeEffects(phase: Phase, effects: seq<EffectRequest>)
    | AppendAndContinue(phase: Phase, events: seq<EventKind>)
    | WaitForInput(phase: Phase, events: seq<EventKind>)
    | Complete(phase: Phase, events: seq<EventKind>)
    | Fail(phase: Phase, events: seq<EventKind>, reason: FailReason)

  /** Why an operation failed. */
  datatype FailReason =
    | BadCommand
    | TurnLimit
    | CallLimit
    | AmbiguousCalls
    | Reported(message: string)
    | CodeRefused(error: LoopError)
    | SnapshotInvalid

  /** The tool calls of one assistant message, in order. */
  function Calls(content: seq<AssistantContent>): seq<ToolCall> {
    if content == [] then []
    else (if content[0].Call? then [content[0].call] else []) + Calls(content[1..])
  }

  function MessageEvents(messages: seq<Message>): (events: seq<EventKind>)
    ensures |events| == |messages|
    ensures forall i | 0 <= i < |events| :: events[i] == MessageEvent(messages[i])
  {
    seq(|messages|, i requires 0 <= i < |messages| => MessageEvent(messages[i]))
  }
}
