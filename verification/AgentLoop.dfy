/** The transitions of the checkpointed model/tool loop. Every function here maps
    a checkpoint, the journal and settled effects to a decision; an `Err` commits
    nothing. */
module AgentLoop {
  import opened Base
  import opened PendingTools
  import opened CodeMode
  import opened LoopTypes
  import opened ContextInput

  const MODEL_BINDING := "renoa.agent.model"
  const COMPACTION_BINDING := "renoa.agent.compaction"
  const CODE_STEP_BINDING := "renoa.agent.code-mode.step"

  // Configuration -----------------------------------------------------------

  datatype Preparation =
    | ModelView(messages: seq<Message>)
    | CompactFirst(plan: CompactionPlan, maxAttempts: NonZero)
    | CapacityExceeded(reason: string)

  datatype ExplicitPreparation =
    | UpToDate(estimatedTokens: nat)
    | CompactNow(plan: CompactionPlan, maxAttempts: NonZero)
    | IdleCapacityExceeded(reason: string)

  /** A pure context policy. `safeCut` and `idleCut` say where a transcript may be
      cut for a running and for an idle conversation. */
  datatype Strategy = Strategy(
    prepare: Context -> Loop<Preparation>,
    prepareExplicit: Context -> Loop<ExplicitPreparation>,
    estimateAfter: (Context, CompactionPlan, string) -> Loop<nat>,
    validateSummary: (CompactionPlan, ModelResponse) -> Loop<string>,
    receipt: Receipt,
    safeCut: (Context, nat) -> bool,
    idleCut: (Context, nat) -> bool)

  datatype LoopTool = LoopTool(spec: ToolSpec, binding: string)

  /** Code Mode's tool, its hidden executor, and the encodings it uses. */
  datatype LoopCodeMode = LoopCodeMode(
    spec: ToolSpec, nestedName: string, nestedBinding: string,
    parseSource: string -> Option<string>,
    runId: (OperationId, nat, string) -> string,
    nestedArguments: (string, Arguments) -> string,
    pythonValue: ToolResult -> string,
    stoppedValue: map<string, (seq<Block>, bool)> -> string,
    stoppedBriefly: string)

  datatype Config = Config(
    systemPrompt: string, maxModelTurns: Option<nat>, maxToolCalls: nat, tools: seq<LoopTool>,
    codeMode: Option<LoopCodeMode>, strategy: Strategy)
  {
    function Specs(): seq<ToolSpec> {
      seq(|tools|, i requires 0 <= i < |tools| => tools[i].spec)
      + (if codeMode.Some? then [codeMode.value.spec] else [])
    }

    function FindTool(name: string, from: nat := 0): (tool: Option<LoopTool>)
      requires from <= |tools|
      ensures tool.Some? ==> tool.value in tools && tool.value.spec.name == name
      decreases |tools| - from
    {
      if from == |tools| then None
      else if tools[from].spec.name == name then Some(tools[from])
      else FindTool(name, from + 1)
    }

    predicate IsCodeMode(name: string) {
      codeMode.Some? && codeMode.value.spec.name == name
    }
  }

  datatype LoopInput = LoopInput(
    operation: OperationId, command: Command, events: seq<Event>, checkpoint: Option<Phase>,
    effects: Option<seq<SettledEffect>>)

  // Results -----------------------------------------------------------------

  function Unavailable(call: ToolCall, message: Block): ToolResult {
    ToolResult(call.id, call.name, [message], None, true, None)
  }

  /** One unavailable result per call, the first with its own explanation. */
  function UnavailableAll(calls: seq<ToolCall>, first: Block, later: Block): (messages: seq<Message>)
    ensures |messages| == |calls|
    ensures forall i | 0 <= i < |calls| ::
      messages[i].Tool? && messages[i].result.callId == calls[i].id && messages[i].result.name == calls[i].name
  {
    seq(|calls|, i requires 0 <= i < |calls| => Tool(Unavailable(calls[i], if i == 0 then first else later)))
  }

  // Effect input ------------------------------------------------------------

  function RequireEffect(effects: Option<seq<SettledEffect>>): Loop<SettledEffect> {
    if effects.None? then Err(MissingEffect)
    else if |effects.value| != 1 then Err(MissingEffect)
    else Ok(effects.value[0])
  }

  function RequireIdentity(binding: string, request: Request, expectedBinding: string, expected: Request): Loop<()> {
    if binding != expectedBinding then Err(WrongIdentity)
    else if request != expected then Err(WrongIdentity)
    else Ok(())
  }

  // Context -----------------------------------------------------------------

  function BuildInput(cfg: Config, operation: OperationId, events: seq<Event>, compactionRequired: bool): Loop<Context> {
    ContextOf(operation, events, cfg.strategy.receipt, cfg.systemPrompt, cfg.Specs(), compactionRequired)
  }

  /** A plan summarises something, offers no tools, advances the active summary and
      ends at a message where the transcript may be cut. */
  predicate PlanValid(context: Context, plan: CompactionPlan, cut: (Context, nat) -> bool) {
    && plan.summaryRequest.messages != []
    && plan.summaryRequest.tools == []
    && (context.checkpoint.Some? ==> context.checkpoint.value.coveredThrough < plan.coveredThrough)
    && (exists i :: 0 <= i < |context.entries| && context.entries[i].origin.sequence == plan.coveredThrough)
    && cut(context, plan.coveredThrough)
  }

  function ValidatePlan(cfg: Config, operation: OperationId, events: seq<Event>, plan: CompactionPlan): Loop<()> {
    var context :- BuildInput(cfg, operation, events, false);
    if PlanValid(context, plan, cfg.strategy.safeCut) then Ok(()) else Err(InvalidPlan)
  }

  function PrepareContext(
    cfg: Config, operation: OperationId, events: seq<Event>, compactionRequired: bool): Loop<Preparation>
  {
    var context :- BuildInput(cfg, operation, events, compactionRequired);
    var preparation :- cfg.strategy.prepare(context);
    if preparation.CompactFirst? then
      var _ :- ValidatePlan(cfg, operation, events, preparation.plan);
      Ok(preparation)
    else Ok(preparation)
  }

  function RequestFor(cfg: Config, messages: seq<Message>): ModelRequest {
    ModelRequest(cfg.systemPrompt, Visible(messages), cfg.Specs())
  }

  function NormalModelRequest(cfg: Config, operation: OperationId, events: seq<Event>): Loop<ModelRequest> {
    var preparation :- PrepareContext(cfg, operation, events, false);
    match preparation
    case ModelView(messages) => Ok(RequestFor(cfg, messages))
    case CompactFirst(_, _) => Err(ChangedRequest)
    case CapacityExceeded(_) => Err(ChangedRequest)
  }

  // Starting and asking the model -------------------------------------------

  function DecideInitial(cfg: Config, input: LoopInput): Loop<Decision> {
    if input.effects.Some? then Err(UnexpectedEffect)
    else match input.command
      case InvalidCommand => Ok(Fail(Terminal, [], BadCommand))
      case Prompt(blocks, observation) =>
        var annotation := match observation
          case Unobserved => []
          case Annotated(text) => [AnnotationEvent(text)]
          case Receipted => [ReceiptedEvent];
        Ok(AppendAndContinue(NeedModel(0), [MessageEvent(User(blocks))] + annotation))
      case Compact => RequestExplicitCompaction(cfg, input)
  }

  function RequestModel(cfg: Config, turns: nat, input: LoopInput): Loop<Decision> {
    if input.effects.Some? then Err(UnexpectedEffect)
    else if cfg.maxModelTurns.Some? && turns >= cfg.maxModelTurns.value then
      Ok(Fail(Terminal, [], TurnLimit))
    else
      var preparation :- PrepareContext(cfg, input.operation, input.events, false);
      match preparation
      case ModelView(messages) =>
        if turns >= U32_MAX then Err(TurnOverflow)
        else
          Ok(InvokeEffects(AwaitingModel(turns + 1), [EffectRequest(MODEL_BINDING, ModelCall(RequestFor(cfg, messages)))]))
      case CompactFirst(plan, maxAttempts) => Ok(InvokeCompaction(turns, plan, maxAttempts, 1))
      case CapacityExceeded(reason) => Ok(Fail(Terminal, [], Reported(reason)))
  }

  function SettleModel(cfg: Config, turns: nat, input: LoopInput): Loop<Decision> {
    var effect :- RequireEffect(input.effects);
    var expected :- NormalModelRequest(cfg, input.operation, input.events);
    var _ :- RequireIdentity(effect.binding, effect.request, MODEL_BINDING, ModelCall(expected));
    match effect.outcome
    case Failure(message) => Ok(Fail(Terminal, [], Reported(message)))
    case UnsupportedOutcome => Err(UnsupportedVersion)
    case Success(Completed(response)) => ClassifyResponse(cfg, turns, response)
    case Success(ContextWindowExceeded(message)) => CompactAfterOverflow(cfg, turns, input.operation, input.events, message)
    case Success(_) => Err(MalformedAnswer)
  }

  function ClassifyResponse(cfg: Config, turns: nat, response: ModelResponse): Loop<Decision> {
    var calls := Calls(response.content);
    var assistant := Assistant(response.content, response.stopReason, response.metadata);
    if |calls| > U32_MAX || |calls| > cfg.maxToolCalls then
      Ok(Fail(Terminal, [], CallLimit))
    else if FirstIdError(Ids(calls)).Some? then
      Ok(Fail(Terminal, [], AmbiguousCalls))
    else if calls == [] then
      Ok(Complete(Terminal, [MessageEvent(assistant)]))
    else if response.stopReason == Length then
      var refused := Explained(TokenLimitReached);
      Ok(AppendAndContinue(NeedModel(turns), MessageEvents([assistant] + UnavailableAll(calls, refused, refused))))
    else
      var pending :- PendingToolCalls.New(calls);
      Ok(AppendAndContinue(NeedTool(turns, pending), [MessageEvent(assistant)]))
  }

  // Tools -------------------------------------------------------------------

  function RequestTool(cfg: Config, turns: nat, pending: PendingToolCalls, input: LoopInput): Loop<Decision> {
    if input.effects.Some? then Err(UnexpectedEffect)
    else
      var call := pending.current;
      if cfg.IsCodeMode(call.name) then RequestCodeMode(cfg.codeMode.value, turns, pending, input.operation)
      else match cfg.FindTool(call.name)
        case None => Ok(AppendResult(turns, pending, Unavailable(call, Explained(ToolMissing))))
        case Some(tool) =>
          Ok(InvokeEffects(AwaitingTool(turns, pending), [EffectRequest(tool.binding, ToolCallRequest(call))]))
  }

  function SettleTool(
    cfg: Config, turns: nat, pending: PendingToolCalls, events: seq<Event>,
    effects: Option<seq<SettledEffect>>): Loop<Decision>
  {
    var call := pending.current;
    match cfg.FindTool(call.name)
    case None => Err(NotConfigured)
    case Some(tool) =>
      var effect :- RequireEffect(effects);
      var _ :- RequireIdentity(effect.binding, effect.request, tool.binding, ToolCallRequest(call));
      match effect.outcome
      case Failure(message) => Ok(FailTool(pending, Reported(message)))
      case UnsupportedOutcome => Err(UnsupportedVersion)
      case Success(ToolOutput(result)) =>
        if result.callId != call.id || result.name != call.name then
          Err(WrongIdentity)
        else if result.closing.Some? then
          CloseTurn(pending, result.(closing := None), result.closing.value, events)
        else
          Ok(AppendResult(turns, pending, result))
      case Success(_) => Err(MalformedAnswer)
  }

  function AppendResult(turns: nat, pending: PendingToolCalls, result: ToolResult): Decision {
    var phase := match pending.Advance()
      case None => NeedModel(turns)
      case Some(next) => NeedTool(turns, next);
    AppendAndContinue(phase, [MessageEvent(Tool(result))])
  }

  function FailTool(pending: PendingToolCalls, reason: FailReason): Decision {
    Fail(Terminal,
         MessageEvents(UnavailableAll(
           pending.All(),
           Explained(ToolFailed),
           Explained(NotRunAfterFailure))),
         reason)
  }

  /** The identity of the assistant message whose call is settling. */
  function CallerMetadata(events: seq<Event>): Loop<Metadata> {
    if events == [] then Err(NoCaller)
    else
      match events[|events| - 1].kind
      case MessageEvent(Assistant(_, _, metadata)) => Ok(metadata.(continuation := None))
      case _ => CallerMetadata(events[..|events| - 1])
  }

  function CloseTurn(pending: PendingToolCalls, result: ToolResult, closing: Closing, events: seq<Event>): Loop<Decision> {
    if Blank(closing.message) then Err(EmptyClosing)
    else
      var metadata :- CallerMetadata(events);
      var reply := Assistant([Text(closing.message)], Stop, metadata);
      var skipped := UnavailableAll(pending.remaining, Plain(closing.notRun), Plain(closing.notRun));
      Ok(WaitForInput(Terminal, MessageEvents([Tool(result)] + skipped + [reply])))
  }

  // Code Mode ---------------------------------------------------------------

  function CodeExecutor(cfg: Config): Loop<LoopCodeMode> {
    match cfg.codeMode
    case None => Err(NotConfigured)
    case Some(code) => Ok(code)
  }

  function RequestCodeMode(code: LoopCodeMode, turns: nat, pending: PendingToolCalls, operation: OperationId): Loop<Decision> {
    var call := pending.current;
    match code.parseSource(call.arguments)
    case Some(source) =>
      if !Blank(source) && ByteLen(source) <= MAX_CODE_BYTES then
        var run := CodeRun(code.runId(operation, turns, call.id), 0, 0);
        Ok(InvokeCodeStep(turns, pending, run, CodeStepRequest(run.runId, Start(source))))
      else
        Ok(AppendResult(turns, pending, Unavailable(call, Explained(CodeSourceInvalid))))
    case None =>
      Ok(AppendResult(turns, pending, Unavailable(call, Explained(CodeSourceInvalid))))
  }

  function InvokeCodeStep(turns: nat, pending: PendingToolCalls, run: CodeRun, step: CodeStepRequest): Decision {
    InvokeEffects(AwaitingCodeStep(turns, pending, run, step), [EffectRequest(CODE_STEP_BINDING, CodeStepCall(step))])
  }

  function NestedCall(code: LoopCodeMode, run: CodeRun, call: CodePluginCall): ToolCall {
    ToolCall(run.CallId(call.callId), code.nestedName, code.nestedArguments(call.reference, call.arguments))
  }

  function NestedEffects(code: LoopCodeMode, run: CodeRun, calls: seq<CodePluginCall>): seq<EffectRequest> {
    seq(|calls|, i requires 0 <= i < |calls| =>
      EffectRequest(code.nestedBinding, ToolCallRequest(NestedCall(code, run, calls[i]))))
  }

  function SettleCodeStep(
    cfg: Config, turns: nat, pending: PendingToolCalls, run: CodeRun, step: CodeStepRequest,
    effects: Option<seq<SettledEffect>>): Loop<Decision>
  {
    var effect :- RequireEffect(effects);
    var _ :- RequireIdentity(effect.binding, effect.request, CODE_STEP_BINDING, CodeStepCall(step));
    match effect.outcome
    case Failure(message) => Ok(FailTool(pending, Reported(message)))
    case UnsupportedOutcome => Err(UnsupportedVersion)
    case Success(StepOutput(StepCompleted(value, isError))) =>
      if ByteLen(value) > MAX_RESULT_BYTES then
        Ok(AppendResult(turns, pending, Unavailable(pending.current, Explained(CodeResultTooLarge))))
      else
        Ok(AppendResult(turns, pending, CodeResult(pending.current, value, isError)))
    case Success(StepOutput(Suspended(snapshot, calls))) =>
      if snapshot == "" || ByteLen(snapshot) > MAX_SNAPSHOT_BYTES then
        Ok(FailTool(pending, SnapshotInvalid))
      else
        SuspendRun(cfg, turns, pending, run, snapshot, NewBatch(calls))
    case Success(_) => Err(MalformedAnswer)
  }

  function SuspendRun(
    cfg: Config, turns: nat, pending: PendingToolCalls, run: CodeRun, snapshot: string,
    batch: Loop<CodeCallBatch>): Loop<Decision>
    requires batch.Ok? ==> batch.value.Valid()
  {
    if batch.Err? then Ok(FailTool(pending, CodeRefused(batch.error)))
    else
      var next := run.AddWave(|batch.value.order|);
      if next.Err? then Ok(FailTool(pending, CodeRefused(next.error)))
      else
        var code :- CodeExecutor(cfg);
        Ok(InvokeEffects(AwaitingCodeCalls(turns, pending, next.value, snapshot, batch.value),
                         NestedEffects(code, next.value, batch.value.Ordered())))
  }

  function CodeResult(call: ToolCall, value: string, isError: bool): ToolResult {
    ToolResult(call.id, call.name, [Plain(value)], None, isError, None)
  }

  /** Settled or known effects of a wave, by the identity of their nested call. */
  function ById(requests: seq<Request>): Loop<map<string, nat>> {
    if requests == [] then Ok(map[])
    else
      var last := |requests| - 1;
      var before :- ById(requests[..last]);
      match requests[last]
      case ToolCallRequest(call) =>
        if call.id in before then Err(WrongIdentity)
        else Ok(before[call.id := last])
      case _ => Err(MalformedAnswer)
  }

  /** The effect found for a call has the binding and request the loop persisted for it. */
  predicate EffectMatches(
    code: LoopCodeMode, expected: ToolCall, byId: map<string, nat>, bindings: seq<string>, requests: seq<Request>)
    requires |bindings| == |requests|
  {
    && expected.id in byId && byId[expected.id] < |requests|
    && bindings[byId[expected.id]] == code.nestedBinding
    && requests[byId[expected.id]] == ToolCallRequest(expected)
  }

  /** Every call of the wave has its own effect. */
  function MatchWave(
    code: LoopCodeMode, run: CodeRun, calls: CodeCallBatch, bindings: seq<string>, requests: seq<Request>)
    : (found: Loop<map<string, nat>>)
    requires calls.Valid() && |bindings| == |requests|
    ensures found.Ok? ==> forall i | 0 <= i < |calls.Ordered()| ::
      EffectMatches(code, NestedCall(code, run, calls.Ordered()[i]), found.value, bindings, requests)
  {
    if |requests| != |calls.order| then Err(MissingEffect)
    else
      var byId :- ById(requests);
      if forall i | 0 <= i < |calls.Ordered()| ::
        EffectMatches(code, NestedCall(code, run, calls.Ordered()[i]), byId, bindings, requests)
      then Ok(byId)
      else Err(WrongIdentity)
  }

  /** What reading the wave's results in call order leads to. */
  datatype WaveReading =
    | WaveFailed(reason: string)
    | WaveTooLarge
    | WaveRead(results: map<string, string>, seen: map<string, (seq<Block>, bool)>, closings: seq<Closing>, bytes: nat)

  function ReadWave(
    code: LoopCodeMode, run: CodeRun, calls: seq<CodePluginCall>, outcomes: map<string, EffectOutcome>)
    : (reading: Loop<WaveReading>)
    ensures reading.Ok? && reading.value.WaveRead? ==>
      reading.value.results.Keys == set i | 0 <= i < |calls| :: Decimal(calls[i].callId)
  {
    if calls == [] then Ok(WaveRead(map[], map[], [], 0))
    else
      var call := calls[|calls| - 1];
      var before :- ReadWave(code, run, calls[..|calls| - 1], outcomes);
      if !before.WaveRead? then Ok(before)
      else
        var identity := run.CallId(call.callId);
        if identity !in outcomes then Err(MissingEffect)
        else match outcomes[identity]
          case Failure(message) => Ok(WaveFailed(message))
          case UnsupportedOutcome => Err(UnsupportedVersion)
          case Success(ToolOutput(result)) =>
            if result.callId != identity || result.name != code.nestedName then
              Err(WrongIdentity)
            else
              var value := code.pythonValue(result);
              var bytes := before.bytes + ByteLen(value);
              if bytes > MAX_WAVE_RESULTS_BYTES then Ok(WaveTooLarge)
              else
                var key := Decimal(call.callId);
                Ok(WaveRead(
                     before.results[key := value],
                     before.seen[key := (result.content, result.isError)],
                     before.closings + (if result.closing.Some? then [result.closing.value] else []),
                     bytes))
          case Success(_) => Err(MalformedAnswer)
  }

  function Bindings(effects: seq<SettledEffect>): (bindings: seq<string>)
    ensures |bindings| == |effects|
  {
    seq(|effects|, i requires 0 <= i < |effects| => effects[i].binding)
  }

  function Requests(effects: seq<SettledEffect>): (requests: seq<Request>)
    ensures |requests| == |effects|
  {
    seq(|effects|, i requires 0 <= i < |effects| => effects[i].request)
  }

  /** Reads a settled wave after matching it against the calls it was persisted for. */
  function SettledWave(cfg: Config, run: CodeRun, calls: CodeCallBatch, effects: Option<seq<SettledEffect>>)
    : (reading: Loop<WaveReading>)
    requires calls.Valid()
    ensures reading.Ok? ==> cfg.codeMode.Some?
    ensures reading.Ok? && reading.value.WaveRead? ==>
      reading.value.results.Keys == set i | 0 <= i < |calls.Ordered()| :: Decimal(calls.Ordered()[i].callId)
  {
    if effects.None? then Err(MissingEffect)
    else
      var code :- CodeExecutor(cfg);
      var byId :- MatchWave(code, run, calls, Bindings(effects.value), Requests(effects.value));
      var outcomes := map id | id in byId && byId[id] < |effects.value| :: effects.value[byId[id]].outcome;
      ReadWave(code, run, calls.Ordered(), outcomes)
  }

  function SettleCodeCalls(
    cfg: Config, turns: nat, pending: PendingToolCalls, run: CodeRun, snapshot: string,
    calls: CodeCallBatch, input: LoopInput): Loop<Decision>
    requires calls.Valid()
  {
    var reading :- SettledWave(cfg, run, calls, input.effects);
    ContinueRun(cfg.codeMode.value, turns, pending, run, snapshot, reading, input.events)
  }

  function ContinueRun(
    code: LoopCodeMode, turns: nat, pending: PendingToolCalls, run: CodeRun, snapshot: string,
    reading: WaveReading, events: seq<Event>): Loop<Decision>
  {
    match reading
    case WaveFailed(reason) => Ok(FailTool(pending, Reported(reason)))
    case WaveTooLarge => Ok(AppendResult(turns, pending, Unavailable(pending.current, Explained(CodeWaveTooLarge))))
    case WaveRead(results, seen, closings, _) =>
      if closings != [] then StopCodeRun(code, pending, seen, closings, events)
      else Ok(InvokeCodeStep(turns, pending, run, CodeStepRequest(run.runId, Resume(snapshot, results))))
  }

  function JoinMessages(closings: seq<Closing>): string
    requires closings != []
  {
    if |closings| == 1 then closings[0].message else closings[0].message + "\n\n" + JoinMessages(closings[1..])
  }

  function StopCodeRun(
    code: LoopCodeMode, pending: PendingToolCalls, seen: map<string, (seq<Block>, bool)>,
    closings: seq<Closing>, events: seq<Event>): Loop<Decision>
    requires closings != []
  {
    var full := code.stoppedValue(seen);
    var value := if ByteLen(full) > MAX_RESULT_BYTES then code.stoppedBriefly else full;
    CloseTurn(pending, CodeResult(pending.current, value, false),
              Closing(JoinMessages(closings), closings[0].notRun), events)
  }

  // Compaction --------------------------------------------------------------

  function InvokeCompaction(turns: nat, plan: CompactionPlan, maxAttempts: NonZero, attempt: nat): Decision {
    InvokeEffects(AwaitingCompaction(turns, plan, maxAttempts, attempt),
                  [EffectRequest(COMPACTION_BINDING, ModelCall(plan.summaryRequest))])
  }

  function InvokeExplicitCompaction(plan: CompactionPlan, maxAttempts: NonZero, attempt: nat): Decision {
    InvokeEffects(AwaitingExplicitCompaction(plan, maxAttempts, attempt),
                  [EffectRequest(COMPACTION_BINDING, ModelCall(plan.summaryRequest))])
  }

  function RequestExplicitCompaction(cfg: Config, input: LoopInput): Loop<Decision> {
    var context :- BuildInput(cfg, input.operation, input.events, false);
    var preparation :- cfg.strategy.prepareExplicit(context);
    match preparation
    case UpToDate(tokens) => Ok(Complete(Terminal, [CompactionResultEvent(tokens)]))
    case CompactNow(plan, maxAttempts) =>
      if PlanValid(context, plan, cfg.strategy.idleCut) then Ok(InvokeExplicitCompaction(plan, maxAttempts, 1))
      else Err(InvalidPlan)
    case IdleCapacityExceeded(reason) => Ok(Fail(Terminal, [], Reported(reason)))
  }

  function CheckpointEventFor(plan: CompactionPlan, summary: string): Loop<EventKind> {
    if Blank(summary) then Err(MalformedAnswer)
    else Ok(CheckpointEvent(plan.coveredThrough, summary))
  }

  /** What the summary request of a settling plan answered: an accepted summary,
      a rejected one, or a definite failure. */
  datatype SummaryAnswer = Accepted(summary: string) | Rejected(reason: string) | Refused(reason: string)

  function SettledSummary(cfg: Config, plan: CompactionPlan, input: LoopInput): Loop<SummaryAnswer> {
    var effect :- RequireEffect(input.effects);
    var _ :- RequireIdentity(effect.binding, effect.request, COMPACTION_BINDING, ModelCall(plan.summaryRequest));
    match effect.outcome
    case Failure(message) => Ok(Refused(message))
    case UnsupportedOutcome => Err(UnsupportedVersion)
    case Success(Completed(response)) =>
      (match cfg.strategy.validateSummary(plan, response)
       case Ok(summary) => Ok(Accepted(summary))
       case Err(_) => Ok(Rejected("rejected summary")))
    case Success(ContextWindowExceeded(message)) => Ok(Refused(message))
    case Success(_) => Err(MalformedAnswer)
  }

  function SettleCompaction(
    cfg: Config, turns: nat, plan: CompactionPlan, maxAttempts: NonZero, attempt: nat, input: LoopInput): Loop<Decision>
  {
    var _ :- ValidatePlan(cfg, input.operation, input.events, plan);
    var answer :- SettledSummary(cfg, plan, input);
    match answer
    case Accepted(summary) =>
      var event :- CheckpointEventFor(plan, summary);
      Ok(AppendAndContinue(NeedModel(turns), [event]))
    case Refused(reason) => Ok(Fail(Terminal, [], Reported(reason)))
    case Rejected(reason) =>
      if attempt >= maxAttempts then Ok(Fail(Terminal, [], Reported(reason)))
      else Ok(InvokeCompaction(turns, plan, maxAttempts, attempt + 1))
  }

  function SettleExplicitCompaction(
    cfg: Config, plan: CompactionPlan, maxAttempts: NonZero, attempt: nat, input: LoopInput): Loop<Decision>
  {
    var context :- BuildInput(cfg, input.operation, input.events, false);
    if !PlanValid(context, plan, cfg.strategy.idleCut) then Err(InvalidPlan)
    else
      var answer :- SettledSummary(cfg, plan, input);
      match answer
      case Accepted(summary) =>
        var tokens :- cfg.strategy.estimateAfter(context, plan, summary);
        var event :- CheckpointEventFor(plan, summary);
        Ok(Complete(Terminal, [event, CompactionResultEvent(tokens)]))
      case Refused(reason) => Ok(Fail(Terminal, [], Reported(reason)))
      case Rejected(reason) =>
        if attempt >= maxAttempts then Ok(Fail(Terminal, [], Reported(reason)))
        else Ok(InvokeExplicitCompaction(plan, maxAttempts, attempt + 1))
  }

  function CompactAfterOverflow(
    cfg: Config, turns: nat, operation: OperationId, events: seq<Event>, message: string): Loop<Decision>
  {
    if cfg.maxModelTurns.Some? && turns >= cfg.maxModelTurns.value then Ok(Fail(Terminal, [], Reported(message)))
    else
      var preparation :- PrepareContext(cfg, operation, events, true);
      match preparation
      case CompactFirst(plan, maxAttempts) => Ok(InvokeCompaction(turns, plan, maxAttempts, 1))
      case CapacityExceeded(reason) => Ok(Fail(Terminal, [], Reported(reason)))
      case ModelView(_) => Ok(Fail(Terminal, [], Reported(message)))
  }

  // Dispatch ----------------------------------------------------------------

  /** The checks a stored checkpoint passes before it is driven. */
  predicate CheckpointValid(cfg: Config, operation: OperationId, phase: Phase) {
    match phase
    case NeedTool(_, pending) => pending.Validate().Ok?
    case AwaitingTool(_, pending) => pending.Validate().Ok?
    case AwaitingCompaction(_, _, maxAttempts, attempt) => attempt <= maxAttempts
    case AwaitingExplicitCompaction(_, maxAttempts, attempt) => attempt <= maxAttempts
    case AwaitingCodeStep(turns, pending, run, step) =>
      && pending.Validate().Ok? && run.ValidStep(step)
      && CodePhaseValid(cfg, operation, turns, pending, run)
    case AwaitingCodeCalls(turns, pending, run, snapshot, calls) =>
      && pending.Validate().Ok? && run.ValidCallWave(snapshot, calls)
      && CodePhaseValid(cfg, operation, turns, pending, run)
    case _ => true
  }

  predicate CodePhaseValid(cfg: Config, operation: OperationId, turns: nat, pending: PendingToolCalls, run: CodeRun) {
    && cfg.IsCodeMode(pending.current.name)
    && run.runId == cfg.codeMode.value.runId(operation, turns, pending.current.id)
  }

  function Decide(cfg: Config, input: LoopInput): Loop<Decision> {
    match input.checkpoint
    case None => DecideInitial(cfg, input)
    case Some(phase) =>
      if !CheckpointValid(cfg, input.operation, phase) then Err(InvalidCheckpoint)
      else match phase
        case NeedModel(turns) => RequestModel(cfg, turns, input)
        case AwaitingModel(turns) => SettleModel(cfg, turns, input)
        case AwaitingCompaction(turns, plan, maxAttempts, attempt) =>
          SettleCompaction(cfg, turns, plan, maxAttempts, attempt, input)
        case AwaitingExplicitCompaction(plan, maxAttempts, attempt) =>
          SettleExplicitCompaction(cfg, plan, maxAttempts, attempt, input)
        case NeedTool(turns, pending) => RequestTool(cfg, turns, pending, input)
        case AwaitingTool(turns, pending) => SettleTool(cfg, turns, pending, input.events, input.effects)
        case AwaitingCodeStep(turns, pending, run, step) => SettleCodeStep(cfg, turns, pending, run, step, input.effects)
        case AwaitingCodeCalls(turns, pending, run, snapshot, calls) =>
          SettleCodeCalls(cfg, turns, pending, run, snapshot, calls, input)
        case Terminal => Err(InvalidCheckpoint)
  }

  // Closing an operation early ----------------------------------------------

  function FactBinding(fact: EffectFact): string {
    if fact.Settled? then fact.effect.binding else fact.binding
  }

  function FactRequest(fact: EffectFact): Request {
    if fact.Settled? then fact.effect.request else fact.request
  }

  function RequireFact(facts: Option<seq<EffectFact>>, binding: string, request: Request): (fact: Loop<EffectFact>)
  {
    if facts.None? then Err(MissingEffect)
    else if |facts.value| != 1 then Err(MissingEffect)
    else
      var fact := facts.value[0];
      var _ :- RequireIdentity(FactBinding(fact), FactRequest(fact), binding, request);
      Ok(fact)
  }

  function FactBindings(facts: seq<EffectFact>): (bindings: seq<string>)
    ensures |bindings| == |facts|
  {
    seq(|facts|, i requires 0 <= i < |facts| => FactBinding(facts[i]))
  }

  function FactRequests(facts: seq<EffectFact>): (requests: seq<Request>)
    ensures |requests| == |facts|
  {
    seq(|facts|, i requires 0 <= i < |facts| => FactRequest(facts[i]))
  }

  function SettledToolResult(call: ToolCall, outcome: EffectOutcome): Loop<ToolResult> {
    match outcome
    case Success(ToolOutput(result)) =>
      if result.callId != call.id || result.name != call.name then
        Err(WrongIdentity)
      else Ok(result.(closing := None))
    case Success(_) => Err(MalformedAnswer)
    case Failure(_) =>
      Ok(Unavailable(call, Explained(FailedBeforeCancellation)))
    case UnsupportedOutcome => Err(UnsupportedVersion)
  }

  function CodeUnavailable(pending: PendingToolCalls, current: Block): seq<EventKind> {
    MessageEvents(UnavailableAll(pending.All(), current, Explained(NotRunWithoutCode)))
  }

  /** An effect that promised no result: nothing is owed. */
  function CancelRequest(facts: Option<seq<EffectFact>>, binding: string, request: Request): Loop<seq<EventKind>> {
    var _ :- RequireFact(facts, binding, request);
    Ok([])
  }

  function CancelTool(cfg: Config, pending: PendingToolCalls, facts: Option<seq<EffectFact>>): Loop<seq<EventKind>> {
    var notRun := Explained(NotRunCancelled);
    match cfg.FindTool(pending.current.name)
    case None => Err(NotConfigured)
    case Some(tool) =>
      var fact :- RequireFact(facts, tool.binding, ToolCallRequest(pending.current));
      var current :- match fact
        case NotDispatched(_, _) => Ok(Unavailable(pending.current, notRun))
        case OutcomeUnknown(_, _) => Ok(Unavailable(pending.current, Explained(LostToCancellation)))
        case Settled(effect) => SettledToolResult(pending.current, effect.outcome);
      Ok(MessageEvents([Tool(current)] + UnavailableAll(pending.remaining, notRun, notRun)))
  }

  function CancelCodeStep(pending: PendingToolCalls, step: CodeStepRequest, facts: Option<seq<EffectFact>>): Loop<seq<EventKind>> {
    var _ :- RequireFact(facts, CODE_STEP_BINDING, CodeStepCall(step));
    Ok(CodeUnavailable(pending, Explained(CodeStepCancelled)))
  }

  function CancelCodeCalls(
    cfg: Config, pending: PendingToolCalls, run: CodeRun, calls: CodeCallBatch, facts: Option<seq<EffectFact>>)
    : Loop<seq<EventKind>>
    requires calls.Valid()
  {
    if facts.None? then Err(MissingEffect)
    else
      var code :- CodeExecutor(cfg);
      var _ :- MatchWave(code, run, calls, FactBindings(facts.value), FactRequests(facts.value));
      Ok(CodeUnavailable(pending, Explained(CodeCallsCancelled)))
  }

  /** The events that close a cancelled operation; its checkpoint becomes terminal. */
  function CancelOperation(
    cfg: Config, operation: OperationId, events: seq<Event>, checkpoint: Option<Phase>,
    facts: Option<seq<EffectFact>>): Loop<seq<EventKind>>
  {
    match checkpoint
    case None => if facts.Some? then Err(UnexpectedEffect) else Ok([])
    case Some(phase) =>
      if !CheckpointValid(cfg, operation, phase) then Err(InvalidCheckpoint)
      else match phase
        case NeedModel(_) => if facts.Some? then Err(UnexpectedEffect) else Ok([])
        case AwaitingModel(_) =>
          var expected :- NormalModelRequest(cfg, operation, events);
          CancelRequest(facts, MODEL_BINDING, ModelCall(expected))
        case AwaitingCompaction(_, plan, _, _) => CancelRequest(facts, COMPACTION_BINDING, ModelCall(plan.summaryRequest))
        case AwaitingExplicitCompaction(plan, _, _) => CancelRequest(facts, COMPACTION_BINDING, ModelCall(plan.summaryRequest))
        case NeedTool(_, pending) =>
          if facts.Some? then Err(UnexpectedEffect)
          else Ok(MessageEvents(UnavailableAll(pending.All(), Explained(NotRunCancelled), Explained(NotRunCancelled))))
        case AwaitingTool(_, pending) => CancelTool(cfg, pending, facts)
        case AwaitingCodeStep(_, pending, _, step) => CancelCodeStep(pending, step, facts)
        case AwaitingCodeCalls(_, pending, run, _, calls) => CancelCodeCalls(cfg, pending, run, calls, facts)
        case Terminal => Err(InvalidCheckpoint)
  }

  /** The events that close an operation whose effect outcome stays unknown. */
  function AbandonUnknown(
    cfg: Config, operation: OperationId, events: seq<Event>, phase: Phase, facts: seq<EffectFact>): Loop<seq<EventKind>>
  {
    if !CheckpointValid(cfg, operation, phase) then Err(InvalidCheckpoint)
    else match phase
      case AwaitingModel(_) =>
        var expected :- NormalModelRequest(cfg, operation, events);
        var _ :- RequireUnknown(facts, MODEL_BINDING, ModelCall(expected));
        Ok([])
      case AwaitingCompaction(_, plan, _, _) =>
        var _ :- RequireUnknown(facts, COMPACTION_BINDING, ModelCall(plan.summaryRequest));
        Ok([])
      case AwaitingExplicitCompaction(plan, _, _) =>
        var _ :- RequireUnknown(facts, COMPACTION_BINDING, ModelCall(plan.summaryRequest));
        Ok([])
      case AwaitingTool(_, pending) =>
        (match cfg.FindTool(pending.current.name)
         case None => Err(NotConfigured)
         case Some(tool) =>
           var _ :- RequireUnknown(facts, tool.binding, ToolCallRequest(pending.current));
           Ok(MessageEvents(UnavailableAll(
                pending.All(),
                Explained(OutcomeNotRecovered),
                Explained(NotRunAfterUnknown)))))
      case AwaitingCodeStep(_, pending, _, step) =>
        var _ :- RequireUnknown(facts, CODE_STEP_BINDING, CodeStepCall(step));
        Ok(CodeUnavailable(pending, Explained(CodeStepLost)))
      case AwaitingCodeCalls(_, pending, run, _, calls) =>
        var code :- CodeExecutor(cfg);
        var _ :- MatchWave(code, run, calls, FactBindings(facts), FactRequests(facts));
        if !(exists i :: 0 <= i < |facts| && facts[i].OutcomeUnknown?) then
          Err(WrongIdentity)
        else
          Ok(CodeUnavailable(pending, Explained(CodeCallsLost)))
      case _ => Err(InvalidCheckpoint)
  }

  function RequireUnknown(facts: seq<EffectFact>, binding: string, request: Request): Loop<()> {
    var fact :- RequireFact(Some(facts), binding, request);
    if fact.OutcomeUnknown? then Ok(()) else Err(WrongIdentity)
  }
}
