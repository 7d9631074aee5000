/** A session driven by the durable kernel: every committed transition of the
    loop, including crashes, retries, cancellation and abandoned effects, and
    what all of its runs keep. */
module LoopSession {
  import opened Base
  import opened PendingTools
  import opened CodeMode
  import opened LoopTypes
  import opened ContextInput
  import opened AgentLoop
  import opened Transcript

  // The kernel's state ------------------------------------------------------

  datatype Active =
    | Idle
    | Running(operation: OperationId, command: Command, checkpoint: Option<Phase>, outstanding: seq<EffectRequest>)

  /** What the current operation has used. */
  datatype Spent = Spent(steps: nat, modelCalls: nat, toolCalls: nat, nestedCalls: nat, compacted: bool)

  const NOTHING_SPENT := Spent(0, 0, 0, 0, false)

  /** A normal model request and the operation that made it. */
  datatype Persisted = Persisted(operation: OperationId, request: ModelRequest)

  /** `requests` lists every normal model request persisted so far. */
  datatype Session = Session(
    events: seq<Event>, nextOperation: OperationId, active: Active, spent: Spent, requests: seq<Persisted>)

  const NEW_SESSION := Session([], 0, Idle, NOTHING_SPENT, [])

  /** What the kernel knows of one outstanding effect of a closing operation. */
  datatype Knowledge = NeverDispatched | Answered(outcome: EffectOutcome) | Lost

  datatype Input =
    | Submit(command: Command)
    | Drive
    | Settle(outcomes: seq<EffectOutcome>)
    | Cancel(knowledge: seq<Knowledge>)
    | Abandon(knowledge: seq<Knowledge>)

  // Committed transitions ---------------------------------------------------

  function Append(events: seq<Event>, operation: OperationId, kinds: seq<EventKind>): (appended: seq<Event>)
    ensures |appended| == |events| + |kinds|
    ensures appended[..|events|] == events
    ensures forall i | 0 <= i < |kinds| :: appended[|events| + i] == Event(operation, |events| + i, kinds[i])
  {
    events + seq(|kinds|, i requires 0 <= i < |kinds| => Event(operation, |events| + i, kinds[i]))
  }

  function Charge(spent: Spent, phase: Phase, effects: nat): Spent {
    Spent(
      spent.steps + 1,
      spent.modelCalls + (if phase.AwaitingModel? then 1 else 0),
      spent.toolCalls + (if phase.AwaitingTool? then 1 else 0),
      spent.nestedCalls + (if phase.AwaitingCodeCalls? then effects else 0),
      spent.compacted || phase.AwaitingCompaction? || phase.AwaitingExplicitCompaction?)
  }

  function NewRequests(operation: OperationId, phase: Phase, effects: seq<EffectRequest>): seq<Persisted> {
    if phase.AwaitingModel? && |effects| == 1 && effects[0].request.ModelCall? then
      [Persisted(operation, effects[0].request.model)]
    else []
  }

  /** Events, checkpoint and effects of a decision commit together. */
  function Commit(s: Session, decision: Decision): (s': Session)
    requires s.active.Running?
    ensures s'.nextOperation == s.nextOperation
  {
    match decision
    case InvokeEffects(phase, effects) =>
      s.(active := s.active.(checkpoint := Some(phase), outstanding := effects),
         spent := Charge(s.spent, phase, |effects|),
         requests := s.requests + NewRequests(s.active.operation, phase, effects))
    case AppendAndContinue(phase, kinds) =>
      s.(events := Append(s.events, s.active.operation, kinds),
         active := s.active.(checkpoint := Some(phase), outstanding := []),
         spent := s.spent.(steps := s.spent.steps + 1))
    case _ => Close(s, decision.events)
  }

  function Close(s: Session, kinds: seq<EventKind>): Session
    requires s.active.Running?
  {
    s.(events := Append(s.events, s.active.operation, kinds), active := Idle,
       spent := s.spent.(steps := s.spent.steps + 1))
  }

  function SettledEffects(outstanding: seq<EffectRequest>, outcomes: seq<EffectOutcome>): (effects: seq<SettledEffect>)
    requires |outstanding| == |outcomes|
    ensures |effects| == |outstanding|
    ensures forall i | 0 <= i < |effects| ::
      effects[i] == SettledEffect(outstanding[i].binding, outstanding[i].request, outcomes[i])
  {
    seq(|outstanding|, i requires 0 <= i < |outstanding| =>
      SettledEffect(outstanding[i].binding, outstanding[i].request, outcomes[i]))
  }

  function Fact(effect: EffectRequest, knowledge: Knowledge): EffectFact {
    match knowledge
    case NeverDispatched => NotDispatched(effect.binding, effect.request)
    case Answered(outcome) => Settled(SettledEffect(effect.binding, effect.request, outcome))
    case Lost => OutcomeUnknown(effect.binding, effect.request)
  }

  function Facts(outstanding: seq<EffectRequest>, knowledge: seq<Knowledge>): seq<EffectFact>
    requires |outstanding| == |knowledge|
  {
    seq(|outstanding|, i requires 0 <= i < |outstanding| => Fact(outstanding[i], knowledge[i]))
  }

  function InputFor(s: Session, effects: Option<seq<SettledEffect>>): LoopInput
    requires s.active.Running?
  {
    LoopInput(s.active.operation, s.active.command, s.events, s.active.checkpoint, effects)
  }

  function Decided(s: Session, decision: Loop<Decision>): (s': Option<Session>)
    requires s.active.Running?
    ensures s'.Some? ==> s'.value.nextOperation == s.nextOperation
  {
    if decision.Err? then None else Some(Commit(s, decision.value))
  }

  function Closed(s: Session, kinds: Loop<seq<EventKind>>): (s': Option<Session>)
    requires s.active.Running?
    ensures s'.Some? ==> s'.value.nextOperation == s.nextOperation
  {
    if kinds.Err? then None else Some(Close(s, kinds.value))
  }

  /** One committed transition; `None` when the input does not apply or the loop
      refuses it, which commits nothing. */
  function Step(cfg: Config, s: Session, input: Input): (s': Option<Session>)
    ensures s'.Some? ==> s'.value.nextOperation == if s.active.Idle? then s.nextOperation + 1 else s.nextOperation
  {
    match s.active
    case Idle =>
      (match input
       case Submit(command) =>
         Some(s.(active := Running(s.nextOperation, command, None, []), nextOperation := s.nextOperation + 1,
                 spent := NOTHING_SPENT))
       case _ => None)
    case Running(operation, _, checkpoint, outstanding) =>
      (match input
       case Submit(_) => None
       case Drive => if outstanding != [] then None else Decided(s, Decide(cfg, InputFor(s, None)))
       case Settle(outcomes) =>
         if outstanding == [] || |outcomes| != |outstanding| then None
         else Decided(s, Decide(cfg, InputFor(s, Some(SettledEffects(outstanding, outcomes)))))
       case Cancel(knowledge) =>
         if |knowledge| != |outstanding| then None
         else
           var facts := if outstanding == [] then None else Some(Facts(outstanding, knowledge));
           Closed(s, CancelOperation(cfg, operation, s.events, checkpoint, facts))
       case Abandon(knowledge) =>
         if checkpoint.None? || outstanding == [] || |knowledge| != |outstanding| then None
         else Closed(s, AbandonUnknown(cfg, operation, s.events, checkpoint.value, Facts(outstanding, knowledge))))
  }

  /** Each operation is admitted with a configuration of its own. */
  type Configs = OperationId -> Config

  /** The configuration of the operation that runs, or that the next command starts. */
  function ConfigFor(configs: Configs, s: Session): Config {
    configs(if s.active.Running? then s.active.operation else s.nextOperation)
  }

  /** The configuration of the operation that runs, or that ran last. */
  function Current(configs: Configs, s: Session): Config {
    configs(if s.nextOperation == 0 then 0 else s.nextOperation - 1)
  }

  /** The session after every input committed, or `None` if one did not. */
  function Run(configs: Configs, inputs: seq<Input>): Option<Session> {
    if inputs == [] then Some(NEW_SESSION)
    else
      match Run(configs, inputs[..|inputs| - 1])
      case None => None
      case Some(s) => Step(ConfigFor(configs, s), s, inputs[|inputs| - 1])
  }

  // What a session keeps ----------------------------------------------------

  function MessagesIn(kinds: seq<EventKind>): seq<Message> {
    if kinds == [] then []
    else (if kinds[0].MessageEvent? then [kinds[0].message] else []) + MessagesIn(kinds[1..])
  }

  function Kinds(events: seq<Event>): (kinds: seq<EventKind>)
    ensures |kinds| == |events|
    ensures forall i | 0 <= i < |events| :: kinds[i] == events[i].kind
  {
    seq(|events|, i requires 0 <= i < |events| => events[i].kind)
  }

  /** The conversation a journal records. */
  function Conversation(events: seq<Event>): seq<Message> {
    MessagesIn(Kinds(events))
  }

  function PendingOf(phase: Phase): seq<ToolCall> {
    match phase
    case NeedTool(_, pending) => pending.All()
    case AwaitingTool(_, pending) => pending.All()
    case AwaitingCodeStep(_, pending, _, _) => pending.All()
    case AwaitingCodeCalls(_, pending, _, _, _) => pending.All()
    case _ => []
  }

  /** The calls an operation still owes a result for. */
  function Awaited(active: Active): seq<ToolCall> {
    if active.Running? && active.checkpoint.Some? then PendingOf(active.checkpoint.value) else []
  }

  /** The largest number of model turns an operation may take. */
  function TurnCap(cfg: Config): nat {
    if cfg.maxModelTurns.Some? && cfg.maxModelTurns.value < U32_MAX then cfg.maxModelTurns.value else U32_MAX
  }

  function TurnsOf(phase: Phase): nat {
    match phase
    case NeedModel(turns) => turns
    case AwaitingModel(turns) => turns
    case AwaitingCompaction(turns, _, _, _) => turns
    case AwaitingExplicitCompaction(_, _, _) => 0
    case NeedTool(turns, _) => turns
    case AwaitingTool(turns, _) => turns
    case AwaitingCodeStep(turns, _, _, _) => turns
    case AwaitingCodeCalls(turns, _, _, _, _) => turns
    case Terminal => 0
  }

  /** The outstanding effects are exactly those the checkpoint and the journal
      determine, so whatever settles can be matched against them again. */
  ghost predicate Outstanding(
    cfg: Config, operation: OperationId, events: seq<Event>, phase: Phase, effects: seq<EffectRequest>)
  {
    match phase
    case NeedModel(_) => effects == []
    case NeedTool(_, _) => effects == []
    case AwaitingModel(_) =>
      && NormalModelRequest(cfg, operation, events).Ok?
      && effects == [EffectRequest(MODEL_BINDING, ModelCall(NormalModelRequest(cfg, operation, events).value))]
    case AwaitingCompaction(_, plan, _, _) =>
      && ValidatePlan(cfg, operation, events, plan).Ok?
      && effects == [EffectRequest(COMPACTION_BINDING, ModelCall(plan.summaryRequest))]
    case AwaitingExplicitCompaction(plan, _, _) =>
      && BuildInput(cfg, operation, events, false).Ok?
      && PlanValid(BuildInput(cfg, operation, events, false).value, plan, cfg.strategy.idleCut)
      && effects == [EffectRequest(COMPACTION_BINDING, ModelCall(plan.summaryRequest))]
    case AwaitingTool(_, pending) =>
      && cfg.FindTool(pending.current.name).Some?
      && effects == [EffectRequest(cfg.FindTool(pending.current.name).value.binding, ToolCallRequest(pending.current))]
    case AwaitingCodeStep(_, _, _, step) => effects == [EffectRequest(CODE_STEP_BINDING, CodeStepCall(step))]
    case AwaitingCodeCalls(_, _, run, _, calls) =>
      cfg.codeMode.Some? && calls.Valid() && effects == NestedEffects(cfg.codeMode.value, run, calls.Ordered())
    case Terminal => false
  }

  ghost predicate Resumable(
    cfg: Config, operation: OperationId, events: seq<Event>, phase: Phase, effects: seq<EffectRequest>)
  {
    && CheckpointValid(cfg, operation, phase)
    && Outstanding(cfg, operation, events, phase, effects)
    && TurnsOf(phase) <= TurnCap(cfg)
    && |PendingOf(phase)| <= cfg.maxToolCalls
  }

  ghost predicate Inv(cfg: Config, s: Session) {
    && (forall i | 0 <= i < |s.events| :: s.events[i].sequence == i && s.events[i].operation < s.nextOperation)
    && Owed(Conversation(s.events)) == Some(Awaited(s.active))
    && (s.active.Running? ==>
          && s.active.operation + 1 == s.nextOperation
          && match s.active.checkpoint
             case None =>
               s.active.outstanding == [] && forall i | 0 <= i < |s.events| :: s.events[i].operation != s.active.operation
             case Some(phase) => Resumable(cfg, s.active.operation, s.events, phase, s.active.outstanding))
  }

  // Each transition keeps it ------------------------------------------------

  /** What every decision of the loop does with the calls owed before it. */
  ghost predicate Sound(cfg: Config, operation: OperationId, events: seq<Event>, owed: seq<ToolCall>, d: Decision) {
    match d
    case InvokeEffects(phase, effects) =>
      effects != [] && PendingOf(phase) == owed && Resumable(cfg, operation, events, phase, effects)
    case AppendAndContinue(phase, kinds) =>
      && kinds != []
      && (phase.NeedModel? || phase.NeedTool?)
      && OwedFrom(Some(owed), MessagesIn(kinds)) == Some(PendingOf(phase))
      && Resumable(cfg, operation, events, phase, [])
    case _ => d.phase == Terminal && OwedFrom(Some(owed), MessagesIn(d.events)) == Some([])
  }

  lemma {:induction false} MessagesInConcat(a: seq<EventKind>, b: seq<EventKind>)
    ensures MessagesIn(a + b) == MessagesIn(a) + MessagesIn(b)
  {
    if a == [] {
      assert a + b == b;
    } else {
      assert (a + b)[0] == a[0] && (a + b)[1..] == a[1..] + b;
      MessagesInConcat(a[1..], b);
      var head := if a[0].MessageEvent? then [a[0].message] else [];
      assert head + (MessagesIn(a[1..]) + MessagesIn(b)) == (head + MessagesIn(a[1..])) + MessagesIn(b);
    }
  }

  lemma {:induction false} MessagesInMessageEvents(messages: seq<Message>)
    ensures MessagesIn(MessageEvents(messages)) == messages
  {
    if messages != [] {
      assert MessageEvents(messages)[1..] == MessageEvents(messages[1..]);
      MessagesInMessageEvents(messages[1..]);
    }
  }

  lemma OneMessage(owed: Option<seq<ToolCall>>, message: Message)
    ensures OwedFrom(owed, [message]) == Next(owed, message)
  {
    assert OwedFrom(owed, [message]) == OwedFrom(Next(owed, message), [message][1..]);
  }

  lemma OneEvent(message: Message)
    ensures MessagesIn([MessageEvent(message)]) == [message]
  {
    assert [MessageEvent(message)][1..] == [];
  }

  /** Unavailable results for all owed calls settle them. */
  lemma UnavailableSettles(calls: seq<ToolCall>, first: Block, later: Block)
    ensures var kinds := MessageEvents(UnavailableAll(calls, first, later));
      OwedFrom(Some(calls), MessagesIn(kinds)) == Some([])
  {
    var messages := UnavailableAll(calls, first, later);
    MessagesInMessageEvents(messages);
    ResultsSettle(calls, messages);
    assert calls[|messages|..] == [];
  }

  /** The current call's own result, then unavailable results for the calls after it. */
  lemma CurrentThenUnavailable(pending: PendingToolCalls, result: ToolResult, later: Block)
    requires Answers(pending.current, Tool(result))
    ensures OwedFrom(Some(pending.All()), [Tool(result)] + UnavailableAll(pending.remaining, later, later)) == Some([])
  {
    var calls := pending.All();
    var messages := [Tool(result)] + UnavailableAll(pending.remaining, later, later);
    forall i | 0 <= i < |messages| ensures Answers(calls[i], messages[i]) {
      if i > 0 {
        assert messages[i] == UnavailableAll(pending.remaining, later, later)[i - 1];
        assert calls[i] == pending.remaining[i - 1];
      }
    }
    ResultsSettle(calls, messages);
    assert calls[|messages|..] == [];
  }

  lemma SuffixIdsValid(pending: PendingToolCalls)
    requires pending.Validate().Ok? && pending.Advance().Some?
    ensures pending.Advance().value.Validate().Ok?
  {
    var next := pending.Advance().value;
    NoIdErrorMeansValid(Ids(pending.All()));
    NoIdErrorMeansValid(Ids(next.All()));
    assert forall i | 0 <= i < |next.All()| :: next.All()[i] == pending.All()[i + 1];
    assert forall i | 0 <= i < |next.All()| :: Ids(next.All())[i] == Ids(pending.All())[i + 1];
  }

  lemma AppendResultIsSound(
    cfg: Config, operation: OperationId, events: seq<Event>, turns: nat, pending: PendingToolCalls, result: ToolResult)
    requires Answers(pending.current, Tool(result))
    requires pending.Validate().Ok? && turns <= TurnCap(cfg) && |pending.All()| <= cfg.maxToolCalls
    ensures Sound(cfg, operation, events, pending.All(), AppendResult(turns, pending, result))
  {
    OneEvent(Tool(result));
    OneMessage(Some(pending.All()), Tool(result));
    if pending.Advance().Some? {
      SuffixIdsValid(pending);
    }
  }

  lemma FailToolIsSound(cfg: Config, operation: OperationId, events: seq<Event>, pending: PendingToolCalls, reason: FailReason)
    ensures Sound(cfg, operation, events, pending.All(), FailTool(pending, reason))
  {
    UnavailableSettles(
      pending.All(), Explained(ToolFailed),
      Explained(NotRunAfterFailure));
  }

  lemma CloseTurnIsSound(
    cfg: Config, operation: OperationId, events: seq<Event>, pending: PendingToolCalls, result: ToolResult, closing: Closing)
    requires Answers(pending.current, Tool(result))
    requires CloseTurn(pending, result, closing, events).Ok?
    ensures Sound(cfg, operation, events, pending.All(), CloseTurn(pending, result, closing, events).value)
  {
    var results := [Tool(result)] + UnavailableAll(pending.remaining, Plain(closing.notRun), Plain(closing.notRun));
    var content := [Text(closing.message)];
    var reply := Assistant(content, Stop, CallerMetadata(events).value);
    MessagesInMessageEvents(results + [reply]);
    CurrentThenUnavailable(pending, result, Plain(closing.notRun));
    OwedFromConcat(Some(pending.All()), results, [reply]);
    OneMessage(Some([]), reply);
    assert Calls(content[1..]) == [];
    assert Calls(content) == [];
  }

  lemma InitialIsSound(cfg: Config, input: LoopInput)
    requires input.checkpoint.None? && Decide(cfg, input).Ok?
    ensures Sound(cfg, input.operation, input.events, [], Decide(cfg, input).value)
  {
    var d := Decide(cfg, input).value;
    match input.command
    case InvalidCommand =>
    case Prompt(blocks, observation) =>
      assert d.events[1..] == match observation
        case Unobserved => []
        case Annotated(text) => [AnnotationEvent(text)]
        case Receipted => [ReceiptedEvent];
      assert MessagesIn(d.events[1..]) == [];
      assert MessagesIn(d.events) == [User(blocks)];
      OneMessage(Some([]), User(blocks));
    case Compact =>
      if d.Complete? {
        assert d.events[1..] == [];
        assert MessagesIn(d.events) == [];
      }
  }

  lemma RequestModelIsSound(cfg: Config, turns: nat, input: LoopInput)
    requires RequestModel(cfg, turns, input).Ok? && turns <= TurnCap(cfg)
    ensures Sound(cfg, input.operation, input.events, [], RequestModel(cfg, turns, input).value)
  {
  }

  /** A truncated response is recorded together with a refusal of each of its calls. */
  lemma TruncatedResponseSettles(assistant: Message)
    requires assistant.Assistant?
    ensures var calls := Calls(assistant.content);
      var results := UnavailableAll(calls, Explained(TokenLimitReached), Explained(TokenLimitReached));
      OwedFrom(Some([]), MessagesIn(MessageEvents([assistant] + results))) == Some([])
  {
    var calls := Calls(assistant.content);
    var results := UnavailableAll(calls, Explained(TokenLimitReached), Explained(TokenLimitReached));
    MessagesInMessageEvents([assistant] + results);
    OwedFromConcat(Some([]), [assistant], results);
    OneMessage(Some([]), assistant);
    ResultsSettle(calls, results);
    assert calls[|results|..] == [];
  }

  lemma ClassifyIsSound(cfg: Config, operation: OperationId, events: seq<Event>, turns: nat, response: ModelResponse)
    requires ClassifyResponse(cfg, turns, response).Ok? && turns <= TurnCap(cfg)
    ensures Sound(cfg, operation, events, [], ClassifyResponse(cfg, turns, response).value)
  {
    var calls := Calls(response.content);
    var assistant := Assistant(response.content, response.stopReason, response.metadata);
    if |calls| <= cfg.maxToolCalls && FirstIdError(Ids(calls)).None? {
      if calls != [] && response.stopReason == Length {
        TruncatedResponseSettles(assistant);
      } else {
        OneEvent(assistant);
        OneMessage(Some([]), assistant);
      }
    }
  }

  lemma SettleModelIsSound(cfg: Config, turns: nat, input: LoopInput)
    requires SettleModel(cfg, turns, input).Ok? && turns <= TurnCap(cfg)
    ensures Sound(cfg, input.operation, input.events, [], SettleModel(cfg, turns, input).value)
  {
    var outcome := RequireEffect(input.effects).value.outcome;
    if outcome.Success? && outcome.output.Completed? {
      ClassifyIsSound(cfg, input.operation, input.events, turns, outcome.output.response);
    }
  }

  lemma SettleCompactionIsSound(
    cfg: Config, turns: nat, plan: CompactionPlan, maxAttempts: NonZero, attempt: nat, input: LoopInput)
    requires SettleCompaction(cfg, turns, plan, maxAttempts, attempt, input).Ok? && turns <= TurnCap(cfg)
    ensures Sound(cfg, input.operation, input.events, [], SettleCompaction(cfg, turns, plan, maxAttempts, attempt, input).value)
  {
    var d := SettleCompaction(cfg, turns, plan, maxAttempts, attempt, input).value;
    if d.AppendAndContinue? {
      assert d.events[1..] == [];
      assert MessagesIn(d.events) == [];
    }
  }

  lemma SettleExplicitIsSound(cfg: Config, plan: CompactionPlan, maxAttempts: NonZero, attempt: nat, input: LoopInput)
    requires SettleExplicitCompaction(cfg, plan, maxAttempts, attempt, input).Ok?
    ensures Sound(cfg, input.operation, input.events, [], SettleExplicitCompaction(cfg, plan, maxAttempts, attempt, input).value)
  {
    var d := SettleExplicitCompaction(cfg, plan, maxAttempts, attempt, input).value;
    if d.Complete? {
      assert d.events == [d.events[0]] + [d.events[1]];
      assert MessagesIn([d.events[1]]) == [] by { assert [d.events[1]][1..] == []; }
      assert d.events[1..] == [d.events[1]];
    }
  }

  lemma RequestCodeModeIsSound(cfg: Config, turns: nat, pending: PendingToolCalls, operation: OperationId, events: seq<Event>)
    requires cfg.IsCodeMode(pending.current.name) && RequestCodeMode(cfg.codeMode.value, turns, pending, operation).Ok?
    requires pending.Validate().Ok? && turns <= TurnCap(cfg) && |pending.All()| <= cfg.maxToolCalls
    ensures Sound(cfg, operation, events, pending.All(), RequestCodeMode(cfg.codeMode.value, turns, pending, operation).value)
  {
    var d := RequestCodeMode(cfg.codeMode.value, turns, pending, operation).value;
    if d.AppendAndContinue? {
      AppendResultIsSound(cfg, operation, events, turns, pending, Unavailable(pending.current, Explained(CodeSourceInvalid)));
    }
  }

  lemma RequestToolIsSound(cfg: Config, turns: nat, pending: PendingToolCalls, input: LoopInput)
    requires RequestTool(cfg, turns, pending, input).Ok?
    requires pending.Validate().Ok? && turns <= TurnCap(cfg) && |pending.All()| <= cfg.maxToolCalls
    ensures Sound(cfg, input.operation, input.events, pending.All(), RequestTool(cfg, turns, pending, input).value)
  {
    if cfg.IsCodeMode(pending.current.name) {
      RequestCodeModeIsSound(cfg, turns, pending, input.operation, input.events);
    } else if cfg.FindTool(pending.current.name).None? {
      AppendResultIsSound(cfg, input.operation, input.events, turns, pending,
                          Unavailable(pending.current, Explained(ToolMissing)));
    }
  }

  lemma SettleToolIsSound(cfg: Config, turns: nat, pending: PendingToolCalls, input: LoopInput)
    requires SettleTool(cfg, turns, pending, input.events, input.effects).Ok?
    requires pending.Validate().Ok? && turns <= TurnCap(cfg) && |pending.All()| <= cfg.maxToolCalls
    ensures Sound(cfg, input.operation, input.events, pending.All(),
                  SettleTool(cfg, turns, pending, input.events, input.effects).value)
  {
    match RequireEffect(input.effects).value.outcome
    case Failure(message) => FailToolIsSound(cfg, input.operation, input.events, pending, Reported(message));
    case Success(ToolOutput(result)) =>
      if result.closing.Some? {
        CloseTurnIsSound(cfg, input.operation, input.events, pending, result.(closing := None), result.closing.value);
      } else {
        AppendResultIsSound(cfg, input.operation, input.events, turns, pending, result);
      }
    case _ =>
  }

  lemma SuspendRunIsSound(
    cfg: Config, turns: nat, pending: PendingToolCalls, run: CodeRun, snapshot: string, batch: Loop<CodeCallBatch>,
    operation: OperationId, events: seq<Event>)
    requires batch.Ok? ==> batch.value.Valid()
    requires SuspendRun(cfg, turns, pending, run, snapshot, batch).Ok?
    requires pending.Validate().Ok? && run.WithinBudget() && CodePhaseValid(cfg, operation, turns, pending, run)
    requires snapshot != "" && ByteLen(snapshot) <= MAX_SNAPSHOT_BYTES
    requires turns <= TurnCap(cfg) && |pending.All()| <= cfg.maxToolCalls
    ensures Sound(cfg, operation, events, pending.All(), SuspendRun(cfg, turns, pending, run, snapshot, batch).value)
  {
    var d := SuspendRun(cfg, turns, pending, run, snapshot, batch).value;
    if d.Fail? {
      FailToolIsSound(cfg, operation, events, pending, d.reason);
    } else {
      assert |NestedEffects(cfg.codeMode.value, d.phase.run, d.phase.calls.Ordered())| > 0;
    }
  }

  lemma SettleCodeStepIsSound(
    cfg: Config, turns: nat, pending: PendingToolCalls, run: CodeRun, step: CodeStepRequest, input: LoopInput)
    requires SettleCodeStep(cfg, turns, pending, run, step, input.effects).Ok?
    requires CheckpointValid(cfg, input.operation, AwaitingCodeStep(turns, pending, run, step))
    requires turns <= TurnCap(cfg) && |pending.All()| <= cfg.maxToolCalls
    ensures Sound(cfg, input.operation, input.events, pending.All(),
                  SettleCodeStep(cfg, turns, pending, run, step, input.effects).value)
  {
    match RequireEffect(input.effects).value.outcome
    case Failure(message) => FailToolIsSound(cfg, input.operation, input.events, pending, Reported(message));
    case Success(StepOutput(StepCompleted(value, isError))) =>
      AppendResultIsSound(cfg, input.operation, input.events, turns, pending,
        if ByteLen(value) > MAX_RESULT_BYTES then Unavailable(pending.current, Explained(CodeResultTooLarge))
        else CodeResult(pending.current, value, isError));
    case Success(StepOutput(Suspended(snapshot, calls))) =>
      if snapshot == "" || ByteLen(snapshot) > MAX_SNAPSHOT_BYTES {
        FailToolIsSound(cfg, input.operation, input.events, pending, SnapshotInvalid);
      } else {
        SuspendRunIsSound(cfg, turns, pending, run, snapshot, NewBatch(calls), input.operation, input.events);
      }
    case _ =>
  }

  lemma SettleCodeCallsIsSound(
    cfg: Config, turns: nat, pending: PendingToolCalls, run: CodeRun, snapshot: string, calls: CodeCallBatch, input: LoopInput)
    requires calls.Valid() && SettleCodeCalls(cfg, turns, pending, run, snapshot, calls, input).Ok?
    requires CheckpointValid(cfg, input.operation, AwaitingCodeCalls(turns, pending, run, snapshot, calls))
    requires turns <= TurnCap(cfg) && |pending.All()| <= cfg.maxToolCalls
    ensures Sound(cfg, input.operation, input.events, pending.All(),
                  SettleCodeCalls(cfg, turns, pending, run, snapshot, calls, input).value)
  {
    var reading := SettledWave(cfg, run, calls, input.effects).value;
    match reading
    case WaveFailed(reason) => FailToolIsSound(cfg, input.operation, input.events, pending, Reported(reason));
    case WaveTooLarge =>
      AppendResultIsSound(cfg, input.operation, input.events, turns, pending,
                          Unavailable(pending.current, Explained(CodeWaveTooLarge)));
    case WaveRead(results, seen, closings, _) =>
      if closings != [] {
        StopCodeRunIsSound(cfg, input.operation, cfg.codeMode.value, pending, seen, closings, input.events);
      } else {
        ResumedResultsAreKeyed(results, calls);
      }
  }

  lemma ResumedResultsAreKeyed(results: map<string, string>, calls: CodeCallBatch)
    requires calls.Valid()
    requires results.Keys == set i | 0 <= i < |calls.Ordered()| :: Decimal(calls.Ordered()[i].callId)
    ensures 0 < |results| <= MAX_CALLS_PER_WAVE
    ensures forall key | key in results :: Canonical(key)
  {
    OrderIsBijection(calls);
    forall i | 0 <= i < |calls.order| ensures calls.Ordered()[i].callId == calls.order[i] {
      assert calls.ValidEntry(calls.order[i]);
    }
    assert Names(calls.order, |calls.order|) == results.Keys;
    NamesCount(calls.order, |calls.order|);
    forall key | key in results ensures Canonical(key) {
      var i :| 0 <= i < |calls.order| && key == Decimal(calls.order[i]);
      DecimalParses(calls.order[i]);
    }
  }

  lemma StopCodeRunIsSound(
    cfg: Config, operation: OperationId, code: LoopCodeMode, pending: PendingToolCalls,
    seen: map<string, (seq<Block>, bool)>, closings: seq<Closing>, events: seq<Event>)
    requires closings != [] && StopCodeRun(code, pending, seen, closings, events).Ok?
    ensures Sound(cfg, operation, events, pending.All(), StopCodeRun(code, pending, seen, closings, events).value)
  {
    var full := code.stoppedValue(seen);
    var value := if ByteLen(full) > MAX_RESULT_BYTES then code.stoppedBriefly else full;
    CloseTurnIsSound(cfg, operation, events, pending, CodeResult(pending.current, value, false),
                     Closing(JoinMessages(closings), closings[0].notRun));
  }

  lemma DecideIsSound(cfg: Config, input: LoopInput)
    requires Decide(cfg, input).Ok?
    requires input.checkpoint.Some? ==>
      && TurnsOf(input.checkpoint.value) <= TurnCap(cfg)
      && |PendingOf(input.checkpoint.value)| <= cfg.maxToolCalls
    ensures var owed := if input.checkpoint.Some? then PendingOf(input.checkpoint.value) else [];
      Sound(cfg, input.operation, input.events, owed, Decide(cfg, input).value)
  {
    match input.checkpoint
    case None => InitialIsSound(cfg, input);
    case Some(phase) =>
      match phase
      case NeedModel(turns) => RequestModelIsSound(cfg, turns, input);
      case AwaitingModel(turns) => SettleModelIsSound(cfg, turns, input);
      case AwaitingCompaction(turns, plan, maxAttempts, attempt) =>
        SettleCompactionIsSound(cfg, turns, plan, maxAttempts, attempt, input);
      case AwaitingExplicitCompaction(plan, maxAttempts, attempt) =>
        SettleExplicitIsSound(cfg, plan, maxAttempts, attempt, input);
      case NeedTool(turns, pending) => RequestToolIsSound(cfg, turns, pending, input);
      case AwaitingTool(turns, pending) => SettleToolIsSound(cfg, turns, pending, input);
      case AwaitingCodeStep(turns, pending, run, step) => SettleCodeStepIsSound(cfg, turns, pending, run, step, input);
      case AwaitingCodeCalls(turns, pending, run, snapshot, calls) =>
        SettleCodeCallsIsSound(cfg, turns, pending, run, snapshot, calls, input);
      case Terminal =>
  }

  /** `kinds` answer exactly the calls that are owed. */
  ghost predicate Settles(owed: seq<ToolCall>, kinds: seq<EventKind>) {
    OwedFrom(Some(owed), MessagesIn(kinds)) == Some([])
  }

  lemma CancelToolSettles(cfg: Config, pending: PendingToolCalls, facts: Option<seq<EffectFact>>)
    requires CancelTool(cfg, pending, facts).Ok?
    ensures Settles(pending.All(), CancelTool(cfg, pending, facts).value)
  {
    var current := CancelTool(cfg, pending, facts).value[0].message.result;
    var notRun := Explained(NotRunCancelled);
    MessagesInMessageEvents([Tool(current)] + UnavailableAll(pending.remaining, notRun, notRun));
    CurrentThenUnavailable(pending, current, notRun);
  }

  lemma CancelCodeSettles(pending: PendingToolCalls, current: Block)
    ensures Settles(pending.All(), CodeUnavailable(pending, current))
  {
    UnavailableSettles(pending.All(), current, Explained(NotRunWithoutCode));
  }

  lemma CancelIdleSettles(cfg: Config, operation: OperationId, events: seq<Event>, phase: Phase, facts: Option<seq<EffectFact>>)
    requires PendingOf(phase) == [] && CancelOperation(cfg, operation, events, Some(phase), facts).Ok?
    ensures CancelOperation(cfg, operation, events, Some(phase), facts).value == []
  {
  }

  lemma CancelPendingSettles(cfg: Config, operation: OperationId, events: seq<Event>, phase: Phase, facts: Option<seq<EffectFact>>)
    requires phase.NeedTool? || phase.AwaitingTool? || phase.AwaitingCodeStep? || phase.AwaitingCodeCalls?
    requires CancelOperation(cfg, operation, events, Some(phase), facts).Ok?
    ensures Settles(PendingOf(phase), CancelOperation(cfg, operation, events, Some(phase), facts).value)
  {
    var pending := phase.pending;
    match phase
    case NeedTool(_, _) => UnavailableSettles(pending.All(), Explained(NotRunCancelled), Explained(NotRunCancelled));
    case AwaitingTool(_, _) => CancelToolSettles(cfg, pending, facts);
    case AwaitingCodeStep(_, _, _, _) => CancelCodeSettles(pending, Explained(CodeStepCancelled));
    case AwaitingCodeCalls(_, _, _, _, _) => CancelCodeSettles(pending, Explained(CodeCallsCancelled));
  }

  lemma CancelSettles(
    cfg: Config, operation: OperationId, events: seq<Event>, checkpoint: Option<Phase>, facts: Option<seq<EffectFact>>)
    requires CancelOperation(cfg, operation, events, checkpoint, facts).Ok?
    ensures Settles(if checkpoint.Some? then PendingOf(checkpoint.value) else [],
                    CancelOperation(cfg, operation, events, checkpoint, facts).value)
  {
    match checkpoint
    case None =>
    case Some(phase) =>
      if PendingOf(phase) == [] {
        CancelIdleSettles(cfg, operation, events, phase, facts);
      } else {
        CancelPendingSettles(cfg, operation, events, phase, facts);
      }
  }

  lemma AbandonIdleSettles(cfg: Config, operation: OperationId, events: seq<Event>, phase: Phase, facts: seq<EffectFact>)
    requires PendingOf(phase) == [] && AbandonUnknown(cfg, operation, events, phase, facts).Ok?
    ensures AbandonUnknown(cfg, operation, events, phase, facts).value == []
  {
  }

  lemma AbandonPendingSettles(cfg: Config, operation: OperationId, events: seq<Event>, phase: Phase, facts: seq<EffectFact>)
    requires phase.AwaitingTool? || phase.AwaitingCodeStep? || phase.AwaitingCodeCalls?
    requires AbandonUnknown(cfg, operation, events, phase, facts).Ok?
    ensures Settles(PendingOf(phase), AbandonUnknown(cfg, operation, events, phase, facts).value)
  {
    var pending := phase.pending;
    match phase
    case AwaitingTool(_, _) =>
      UnavailableSettles(pending.All(), Explained(OutcomeNotRecovered), Explained(NotRunAfterUnknown));
    case AwaitingCodeStep(_, _, _, _) => CancelCodeSettles(pending, Explained(CodeStepLost));
    case AwaitingCodeCalls(_, _, _, _, _) => CancelCodeSettles(pending, Explained(CodeCallsLost));
  }

  lemma AbandonSettles(cfg: Config, operation: OperationId, events: seq<Event>, phase: Phase, facts: seq<EffectFact>)
    requires AbandonUnknown(cfg, operation, events, phase, facts).Ok?
    ensures Settles(PendingOf(phase), AbandonUnknown(cfg, operation, events, phase, facts).value)
  {
    if PendingOf(phase) == [] {
      AbandonIdleSettles(cfg, operation, events, phase, facts);
    } else if phase.AwaitingTool? || phase.AwaitingCodeStep? || phase.AwaitingCodeCalls? {
      AbandonPendingSettles(cfg, operation, events, phase, facts);
    }
  }

  lemma ConversationGrows(events: seq<Event>, operation: OperationId, kinds: seq<EventKind>)
    ensures Conversation(Append(events, operation, kinds)) == Conversation(events) + MessagesIn(kinds)
  {
    assert Kinds(Append(events, operation, kinds)) == Kinds(events) + kinds;
    MessagesInConcat(Kinds(events), kinds);
  }

  lemma CommitKeepsInv(cfg: Config, s: Session, d: Decision)
    requires Inv(cfg, s) && s.active.Running?
    requires Sound(cfg, s.active.operation, s.events, Awaited(s.active), d)
    ensures Inv(cfg, Commit(s, d))
  {
    if !d.InvokeEffects? {
      ConversationGrows(s.events, s.active.operation, d.events);
      OwedFromConcat(Some([]), Conversation(s.events), MessagesIn(d.events));
    }
  }

  lemma CloseKeepsInv(cfg: Config, s: Session, kinds: seq<EventKind>)
    requires Inv(cfg, s) && s.active.Running?
    requires OwedFrom(Some(Awaited(s.active)), MessagesIn(kinds)) == Some([])
    ensures Inv(cfg, Close(s, kinds))
  {
    ConversationGrows(s.events, s.active.operation, kinds);
    OwedFromConcat(Some([]), Conversation(s.events), MessagesIn(kinds));
  }

  lemma StepKeepsInv(cfg: Config, s: Session, input: Input)
    requires Inv(cfg, s) && Step(cfg, s, input).Some?
    ensures Inv(cfg, Step(cfg, s, input).value)
  {
    if s.active.Running? {
      var Running(operation, _, checkpoint, outstanding) := s.active;
      match input
      case Drive =>
        DecideIsSound(cfg, InputFor(s, None));
        CommitKeepsInv(cfg, s, Decide(cfg, InputFor(s, None)).value);
      case Settle(outcomes) =>
        var effects := Some(SettledEffects(outstanding, outcomes));
        DecideIsSound(cfg, InputFor(s, effects));
        CommitKeepsInv(cfg, s, Decide(cfg, InputFor(s, effects)).value);
      case Cancel(knowledge) =>
        var facts := if outstanding == [] then None else Some(Facts(outstanding, knowledge));
        CancelSettles(cfg, operation, s.events, checkpoint, facts);
        CloseKeepsInv(cfg, s, CancelOperation(cfg, operation, s.events, checkpoint, facts).value);
      case Abandon(knowledge) =>
        var facts := Facts(outstanding, knowledge);
        AbandonSettles(cfg, operation, s.events, checkpoint.value, facts);
        CloseKeepsInv(cfg, s, AbandonUnknown(cfg, operation, s.events, checkpoint.value, facts).value);
    }
  }

  lemma ConfigOfNext(configs: Configs, s: Session, s': Session)
    requires s.active.Running? ==> s.active.operation + 1 == s.nextOperation
    requires s'.nextOperation == if s.active.Idle? then s.nextOperation + 1 else s.nextOperation
    ensures Current(configs, s') == ConfigFor(configs, s)
  {
  }

  lemma ConfigOfSame(configs: Configs, s: Session)
    requires Inv(Current(configs, s), s)
    ensures Inv(ConfigFor(configs, s), s)
    ensures s.active.Running? ==> ConfigFor(configs, s) == Current(configs, s)
  {
  }

  /** An operation keeps its configuration, and an idle session depends on none. */
  lemma ConfigIsKept(configs: Configs, s: Session, input: Input)
    requires Inv(Current(configs, s), s) && Step(ConfigFor(configs, s), s, input).Some?
    ensures Inv(ConfigFor(configs, s), s)
    ensures s.active.Running? ==> ConfigFor(configs, s) == Current(configs, s)
    ensures Current(configs, Step(ConfigFor(configs, s), s, input).value) == ConfigFor(configs, s)
  {
    ConfigOfSame(configs, s);
    ConfigOfNext(configs, s, Step(ConfigFor(configs, s), s, input).value);
  }

  /** In every run, whatever configurations its operations bring. */
  lemma {:induction false} RunKeepsInv(configs: Configs, inputs: seq<Input>)
    requires Run(configs, inputs).Some?
    ensures Inv(Current(configs, Run(configs, inputs).value), Run(configs, inputs).value)
  {
    if inputs != [] {
      var before, last := inputs[..|inputs| - 1], inputs[|inputs| - 1];
      RunKeepsInv(configs, before);
      var s := Run(configs, before).value;
      ConfigIsKept(configs, s, last);
      StepKeepsInv(ConfigFor(configs, s), s, last);
    }
  }
}
