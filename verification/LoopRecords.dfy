/** What the journal of every run holds: each prompt, model answer and tool answer as it
    came, and beside them only notices for calls that did not run. */
module LoopRecords {
  import opened Base
  import opened PendingTools
  import opened CodeMode
  import opened LoopTypes
  import opened ContextInput
  import opened AgentLoop
  import opened LoopSession
  import opened LoopBounds
  import opened LoopHistory
  import opened LoopProgress

  // Notices -----------------------------------------------------------------

  /** An error result of one block that stands for an answer the call did not get. */
  predicate IsNotice(call: ToolCall, kind: EventKind) {
    && kind.MessageEvent? && kind.message.Tool?
    && var result := kind.message.result;
    && result.callId == call.id && result.name == call.name
    && |result.content| == 1 && result.details.None? && result.isError && result.closing.None?
  }

  /** One notice per call, in order. */
  predicate Notices(calls: seq<ToolCall>, kinds: seq<EventKind>) {
    |kinds| == |calls| && forall i | 0 <= i < |calls| :: IsNotice(calls[i], kinds[i])
  }

  lemma UnavailableIsNotice(calls: seq<ToolCall>, first: Block, later: Block)
    ensures Notices(calls, MessageEvents(UnavailableAll(calls, first, later)))
  {
  }

  // What each step writes ---------------------------------------------------

  predicate SaysNotRun(kind: EventKind, notRun: string) {
    kind.MessageEvent? && kind.message.Tool? && kind.message.result.content == [Plain(notRun)]
  }

  /** The result of the current call, a notice for each call behind it that says it was
      not run, and the closing words as the assistant's. */
  predicate Closes(pending: PendingToolCalls, result: ToolResult, message: string, notRun: string, kinds: seq<EventKind>) {
    && |kinds| == |pending.remaining| + 2
    && kinds[0] == MessageEvent(Tool(result))
    && Notices(pending.remaining, kinds[1..|kinds| - 1])
    && (forall i | 0 < i < |kinds| - 1 :: SaysNotRun(kinds[i], notRun))
    && var last := kinds[|kinds| - 1];
    last.MessageEvent? && last.message.Assistant? && last.message.content == [Text(message)]
  }

  /** A prompt's own blocks, then its annotation or the mark of its receipt. */
  predicate PromptWrites(command: Command, kinds: seq<EventKind>)
    requires command.Prompt?
  {
    && kinds != [] && kinds[0] == MessageEvent(User(command.blocks))
    && match command.observation
       case Unobserved => |kinds| == 1
       case Annotated(text) => |kinds| == 2 && kinds[1] == AnnotationEvent(text)
       case Receipted => |kinds| == 2 && kinds[1] == ReceiptedEvent
  }

  /** A model answer is journalled as it came unless its calls are refused; the calls of
      an answer cut off by the token limit get notices with it. */
  ghost predicate ModelWrites(cfg: Config, outcome: EffectOutcome, kinds: seq<EventKind>) {
    match outcome
    case Success(Completed(response)) =>
      var calls := Calls(response.content);
      if |calls| <= U32_MAX && |calls| <= cfg.maxToolCalls && ValidIds(Ids(calls)) then
        && kinds != []
        && kinds[0] == MessageEvent(Assistant(response.content, response.stopReason, response.metadata))
        && Notices(if response.stopReason == Length then calls else [], kinds[1..])
      else kinds == []
    case _ => kinds == []
  }

  /** A tool's answer is journalled field for field, apart from what closes the turn. */
  predicate ToolWrites(pending: PendingToolCalls, outcome: EffectOutcome, kinds: seq<EventKind>) {
    match outcome
    case Success(ToolOutput(answer)) =>
      && answer.callId == pending.current.id && answer.name == pending.current.name
      && (match answer.closing
          case None => kinds == [MessageEvent(Tool(answer))]
          case Some(closing) => Closes(pending, answer.(closing := None), closing.message, closing.notRun, kinds))
    case _ => Notices(pending.All(), kinds)
  }

  /** A cancelled operation still journals the answer its tool gave. */
  predicate CancelledToolWrites(pending: PendingToolCalls, knowledge: Knowledge, kinds: seq<EventKind>) {
    && |kinds| == 1 + |pending.remaining| && Notices(pending.remaining, kinds[1..])
    && match knowledge
       case Answered(Success(ToolOutput(answer))) =>
         && answer.callId == pending.current.id && answer.name == pending.current.name
         && kinds[0] == MessageEvent(Tool(answer.(closing := None)))
       case _ => IsNotice(pending.current, kinds[0])
  }

  /** The value a code run ends with is its call's result. */
  predicate CodeStepWrites(pending: PendingToolCalls, outcome: EffectOutcome, kinds: seq<EventKind>) {
    match outcome
    case Success(StepOutput(StepCompleted(value, isError))) =>
      if ByteLen(value) <= MAX_RESULT_BYTES then
        && |kinds| == 1 && kinds[0].MessageEvent? && kinds[0].message.Tool?
        && IsCodeValue(pending.current, kinds[0].message.result, isError)
        && kinds[0].message.result.content == [Plain(value)]
      else Notices([pending.current], kinds)
    case Success(StepOutput(Suspended(_, _))) => kinds == [] || Notices(pending.All(), kinds)
    case _ => Notices(pending.All(), kinds)
  }

  /** A result of Code Mode's own tool: one value. */
  predicate IsCodeValue(call: ToolCall, result: ToolResult, isError: bool) {
    && |result.content| == 1 && result.content[0].Plain?
    && result == ToolResult(call.id, call.name, result.content, None, isError, None)
  }

  /** A wave journals nothing while its run goes on; the run may stop with a notice, or
      with a value and what the nested answers say closes the turn. */
  ghost predicate CodeCallsWrite(pending: PendingToolCalls, kinds: seq<EventKind>) {
    || kinds == []
    || Notices([pending.current], kinds)
    || Notices(pending.All(), kinds)
    || (exists result, message, notRun ::
          IsCodeValue(pending.current, result, false) && Closes(pending, result, message, notRun, kinds))
  }

  /** An accepted summary is journalled with the place its plan covers to. */
  predicate SummaryWrites(cfg: Config, plan: CompactionPlan, outcome: EffectOutcome, explicit: bool, kinds: seq<EventKind>) {
    match outcome
    case Success(Completed(response)) =>
      (match cfg.strategy.validateSummary(plan, response)
       case Ok(summary) =>
         && |kinds| == (if explicit then 2 else 1)
         && kinds[0] == CheckpointEvent(plan.coveredThrough, summary)
         && (explicit ==> kinds[1].CompactionResultEvent?)
       case Err(_) => kinds == [])
    case _ => kinds == []
  }

  /** The call names a configured tool, or Code Mode with a program it accepts. */
  predicate Runnable(cfg: Config, call: ToolCall) {
    if cfg.IsCodeMode(call.name) then
      var source := cfg.codeMode.value.parseSource(call.arguments);
      source.Some? && !Blank(source.value) && ByteLen(source.value) <= MAX_CODE_BYTES
    else exists i :: 0 <= i < |cfg.tools| && cfg.tools[i].spec.name == call.name
  }

  predicate DriveWrites(cfg: Config, phase: Phase, kinds: seq<EventKind>) {
    match phase
    case NeedTool(_, pending) => if Runnable(cfg, pending.current) then kinds == [] else Notices([pending.current], kinds)
    case _ => kinds == []
  }

  ghost predicate SettleWrites(cfg: Config, phase: Phase, outcomes: seq<EffectOutcome>, kinds: seq<EventKind>)
    requires outcomes != []
  {
    match phase
    case AwaitingModel(_) => ModelWrites(cfg, outcomes[0], kinds)
    case AwaitingCompaction(_, plan, _, _) => SummaryWrites(cfg, plan, outcomes[0], false, kinds)
    case AwaitingExplicitCompaction(plan, _, _) => SummaryWrites(cfg, plan, outcomes[0], true, kinds)
    case AwaitingTool(_, pending) => ToolWrites(pending, outcomes[0], kinds)
    case AwaitingCodeStep(_, pending, _, _) => CodeStepWrites(pending, outcomes[0], kinds)
    case AwaitingCodeCalls(_, pending, _, _, _) => CodeCallsWrite(pending, kinds)
    case _ => kinds == []
  }

  predicate CancelWrites(phase: Phase, knowledge: seq<Knowledge>, kinds: seq<EventKind>) {
    match phase
    case AwaitingTool(_, pending) => knowledge != [] && CancelledToolWrites(pending, knowledge[0], kinds)
    case _ => Notices(PendingOf(phase), kinds)
  }

  /** What a committed step of a session writes. */
  ghost predicate Writes(cfg: Config, s: Session, input: Input, kinds: seq<EventKind>) {
    if s.active.Idle? then kinds == []
    else
      match s.active.checkpoint
      case None =>
        if input.Drive? && s.active.command.Prompt? then PromptWrites(s.active.command, kinds)
        else kinds == [] || (input.Drive? && s.active.command.Compact? && |kinds| == 1 && kinds[0].CompactionResultEvent?)
      case Some(phase) =>
        match input
        case Submit(_) => false
        case Drive => DriveWrites(cfg, phase, kinds)
        case Settle(outcomes) => outcomes != [] && SettleWrites(cfg, phase, outcomes, kinds)
        case Cancel(knowledge) => CancelWrites(phase, knowledge, kinds)
        case Abandon(_) => Notices(PendingOf(phase), kinds)
  }

  // Every step writes that --------------------------------------------------

  function KindsOf(d: Decision): seq<EventKind> {
    if d.InvokeEffects? then [] else d.events
  }

  lemma Between(first: Message, middle: seq<Message>, last: Message)
    ensures var kinds := MessageEvents([first] + middle + [last]);
      && |kinds| == |middle| + 2 && kinds[0] == MessageEvent(first) && kinds[|kinds| - 1] == MessageEvent(last)
      && kinds[1..|kinds| - 1] == MessageEvents(middle)
  {
    var messages := [first] + middle + [last];
    var kinds := MessageEvents(messages);
    var inner := kinds[1..|kinds| - 1];
    forall i | 0 <= i < |middle| ensures inner[i] == MessageEvents(middle)[i] {
      assert inner[i] == kinds[i + 1] && messages[i + 1] == middle[i];
    }
  }

  lemma SkippedSay(calls: seq<ToolCall>, notRun: string, kinds: seq<EventKind>)
    requires |kinds| == |calls| + 2
    requires kinds[1..|kinds| - 1] == MessageEvents(UnavailableAll(calls, Plain(notRun), Plain(notRun)))
    ensures forall i | 0 < i < |kinds| - 1 :: SaysNotRun(kinds[i], notRun)
  {
    forall i | 0 < i < |kinds| - 1
      ensures kinds[i] == MessageEvent(Tool(Unavailable(calls[i - 1], Plain(notRun))))
    {
      assert kinds[i] == kinds[1..|kinds| - 1][i - 1];
    }
  }

  lemma ClosingCloses(pending: PendingToolCalls, result: ToolResult, closing: Closing, events: seq<Event>)
    requires CloseTurn(pending, result, closing, events).Ok?
    ensures Closes(pending, result, closing.message, closing.notRun,
      KindsOf(CloseTurn(pending, result, closing, events).value))
  {
    var kinds := KindsOf(CloseTurn(pending, result, closing, events).value);
    var notRun := Plain(closing.notRun);
    var reply := Assistant([Text(closing.message)], Stop, CallerMetadata(events).value);
    Between(Tool(result), UnavailableAll(pending.remaining, notRun, notRun), reply);
    UnavailableIsNotice(pending.remaining, notRun, notRun);
    SkippedSay(pending.remaining, closing.notRun, kinds);
  }

  lemma ToolSettles(cfg: Config, turns: nat, pending: PendingToolCalls, events: seq<Event>, effects: seq<SettledEffect>)
    requires SettleTool(cfg, turns, pending, events, Some(effects)).Ok?
    ensures |effects| == 1
    ensures ToolWrites(pending, effects[0].outcome, KindsOf(SettleTool(cfg, turns, pending, events, Some(effects)).value))
  {
    match effects[0].outcome
    case Success(ToolOutput(answer)) =>
      if answer.closing.Some? {
        ClosingCloses(pending, answer.(closing := None), answer.closing.value, events);
      } else {
        assert answer.(closing := None) == answer;
      }
    case _ => UnavailableIsNotice(pending.All(), Explained(ToolFailed), Explained(NotRunAfterFailure));
  }

  lemma TruncatedAnswer(calls: seq<ToolCall>, assistant: Message, refused: Block)
    ensures var kinds := MessageEvents([assistant] + UnavailableAll(calls, refused, refused));
      |kinds| == 1 + |calls| && kinds[0] == MessageEvent(assistant) && Notices(calls, kinds[1..])
  {
    var messages := UnavailableAll(calls, refused, refused);
    UnavailableIsNotice(calls, refused, refused);
    assert MessageEvents([assistant] + messages)[1..] == MessageEvents(messages);
  }

  lemma ModelSettles(cfg: Config, turns: nat, response: ModelResponse)
    requires ClassifyResponse(cfg, turns, response).Ok?
    ensures ModelWrites(cfg, Success(Completed(response)), KindsOf(ClassifyResponse(cfg, turns, response).value))
  {
    var calls := Calls(response.content);
    NoIdErrorMeansValid(Ids(calls));
    var kinds := KindsOf(ClassifyResponse(cfg, turns, response).value);
    if |calls| <= U32_MAX && |calls| <= cfg.maxToolCalls && ValidIds(Ids(calls)) {
      if calls != [] && response.stopReason == Length {
        TruncatedAnswer(calls, Assistant(response.content, response.stopReason, response.metadata), Explained(TokenLimitReached));
      } else {
        assert |kinds| == 1 && kinds[1..] == [];
      }
    }
  }

  lemma CodeStepSettles(
    cfg: Config, turns: nat, pending: PendingToolCalls, run: CodeRun, step: CodeStepRequest, effects: seq<SettledEffect>)
    requires SettleCodeStep(cfg, turns, pending, run, step, Some(effects)).Ok?
    ensures |effects| == 1
    ensures CodeStepWrites(pending, effects[0].outcome,
      KindsOf(SettleCodeStep(cfg, turns, pending, run, step, Some(effects)).value))
  {
    UnavailableIsNotice(pending.All(), Explained(ToolFailed), Explained(NotRunAfterFailure));
  }

  lemma CodeCallsSettle(
    cfg: Config, turns: nat, pending: PendingToolCalls, run: CodeRun, snapshot: string, calls: CodeCallBatch, input: LoopInput)
    requires calls.Valid() && SettleCodeCalls(cfg, turns, pending, run, snapshot, calls, input).Ok?
    ensures CodeCallsWrite(pending, KindsOf(SettleCodeCalls(cfg, turns, pending, run, snapshot, calls, input).value))
  {
    UnavailableIsNotice(pending.All(), Explained(ToolFailed), Explained(NotRunAfterFailure));
    var code, reading := cfg.codeMode.value, SettledWave(cfg, run, calls, input.effects).value;
    if reading.WaveRead? && reading.closings != [] {
      var full := code.stoppedValue(reading.seen);
      var value := if ByteLen(full) > MAX_RESULT_BYTES then code.stoppedBriefly else full;
      ClosingCloses(pending, CodeResult(pending.current, value, false),
        Closing(JoinMessages(reading.closings), reading.closings[0].notRun), input.events);
    }
  }

  lemma SummarySettles(cfg: Config, phase: Phase, input: LoopInput, effects: seq<SettledEffect>)
    requires phase.AwaitingCompaction? && input.effects == Some(effects)
    requires SettleCompaction(cfg, phase.turns, phase.plan, phase.maxAttempts, phase.attempt, input).Ok?
    ensures |effects| == 1 && SummaryWrites(cfg, phase.plan, effects[0].outcome, false,
      KindsOf(SettleCompaction(cfg, phase.turns, phase.plan, phase.maxAttempts, phase.attempt, input).value))
  {
  }

  lemma ExplicitSummarySettles(cfg: Config, phase: Phase, input: LoopInput, effects: seq<SettledEffect>)
    requires phase.AwaitingExplicitCompaction? && input.effects == Some(effects)
    requires SettleExplicitCompaction(cfg, phase.plan, phase.maxAttempts, phase.attempt, input).Ok?
    ensures |effects| == 1 && SummaryWrites(cfg, phase.plan, effects[0].outcome, true,
      KindsOf(SettleExplicitCompaction(cfg, phase.plan, phase.maxAttempts, phase.attempt, input).value))
  {
  }

  function Outcomes(effects: seq<SettledEffect>): (outcomes: seq<EffectOutcome>)
    ensures |outcomes| == |effects| && forall i | 0 <= i < |effects| :: outcomes[i] == effects[i].outcome
  {
    seq(|effects|, i requires 0 <= i < |effects| => effects[i].outcome)
  }

  lemma SettlingWrites(cfg: Config, input: LoopInput, effects: seq<SettledEffect>)
    requires input.effects == Some(effects) && effects != [] && input.checkpoint.Some? && Decide(cfg, input).Ok?
    ensures SettleWrites(cfg, input.checkpoint.value, Outcomes(effects), KindsOf(Decide(cfg, input).value))
  {
    var phase := input.checkpoint.value;
    match phase
    case AwaitingModel(turns) =>
      if effects[0].outcome.Success? && effects[0].outcome.output.Completed? {
        ModelSettles(cfg, turns, effects[0].outcome.output.response);
      }
    case AwaitingCompaction(_, _, _, _) => SummarySettles(cfg, phase, input, effects);
    case AwaitingExplicitCompaction(_, _, _) => ExplicitSummarySettles(cfg, phase, input, effects);
    case AwaitingTool(turns, pending) => ToolSettles(cfg, turns, pending, input.events, effects);
    case AwaitingCodeStep(turns, pending, run, step) => CodeStepSettles(cfg, turns, pending, run, step, effects);
    case AwaitingCodeCalls(turns, pending, run, snapshot, calls) =>
      CodeCallsSettle(cfg, turns, pending, run, snapshot, calls, input);
    case _ =>
  }

  lemma {:induction false} FindsWhatIsThere(cfg: Config, name: string, from: nat, i: nat)
    requires from <= i < |cfg.tools| && cfg.tools[i].spec.name == name
    ensures cfg.FindTool(name, from).Some?
    decreases |cfg.tools| - from
  {
    if cfg.tools[from].spec.name != name {
      FindsWhatIsThere(cfg, name, from + 1, i);
    }
  }

  lemma DrivingWrites(cfg: Config, input: LoopInput)
    requires input.effects.None? && input.checkpoint.Some? && Decide(cfg, input).Ok?
    ensures DriveWrites(cfg, input.checkpoint.value, KindsOf(Decide(cfg, input).value))
  {
    match input.checkpoint.value
    case NeedTool(turns, pending) =>
      var name := pending.current.name;
      if !cfg.IsCodeMode(name) {
        if i :| 0 <= i < |cfg.tools| && cfg.tools[i].spec.name == name {
          FindsWhatIsThere(cfg, name, 0, i);
        }
      }
    case _ =>
  }

  lemma CancelledTool(cfg: Config, pending: PendingToolCalls, outstanding: seq<EffectRequest>, knowledge: seq<Knowledge>)
    requires |knowledge| == |outstanding| && CancelTool(cfg, pending, Some(Facts(outstanding, knowledge))).Ok?
    ensures knowledge != []
    ensures CancelledToolWrites(pending, knowledge[0], CancelTool(cfg, pending, Some(Facts(outstanding, knowledge))).value)
  {
    var notRun := Explained(NotRunCancelled);
    UnavailableIsNotice(pending.remaining, notRun, notRun);
    var kinds := CancelTool(cfg, pending, Some(Facts(outstanding, knowledge))).value;
    assert kinds[1..] == MessageEvents(UnavailableAll(pending.remaining, notRun, notRun));
  }

  lemma CodeNotices(pending: PendingToolCalls, current: Block)
    ensures Notices(pending.All(), CodeUnavailable(pending, current))
  {
    UnavailableIsNotice(pending.All(), current, Explained(NotRunWithoutCode));
  }

  predicate IsCode(phase: Phase) {
    phase.AwaitingCodeStep? || phase.AwaitingCodeCalls?
  }

  lemma CancelledCode(cfg: Config, operation: OperationId, events: seq<Event>, phase: Phase, facts: Option<seq<EffectFact>>)
    requires IsCode(phase) && CancelOperation(cfg, operation, events, Some(phase), facts).Ok?
    ensures Notices(PendingOf(phase), CancelOperation(cfg, operation, events, Some(phase), facts).value)
  {
    CodeNotices(phase.pending, Explained(CodeStepCancelled));
    CodeNotices(phase.pending, Explained(CodeCallsCancelled));
  }

  lemma CancelledElsewhere(cfg: Config, operation: OperationId, events: seq<Event>, phase: Phase, facts: Option<seq<EffectFact>>)
    requires !IsCode(phase) && !phase.AwaitingTool? && CancelOperation(cfg, operation, events, Some(phase), facts).Ok?
    ensures Notices(PendingOf(phase), CancelOperation(cfg, operation, events, Some(phase), facts).value)
  {
    if phase.NeedTool? {
      UnavailableIsNotice(phase.pending.All(), Explained(NotRunCancelled), Explained(NotRunCancelled));
    }
  }

  lemma CancellingWrites(
    cfg: Config, operation: OperationId, events: seq<Event>, phase: Phase, outstanding: seq<EffectRequest>, knowledge: seq<Knowledge>)
    requires |knowledge| == |outstanding|
    requires var facts := if outstanding == [] then None else Some(Facts(outstanding, knowledge));
      CancelOperation(cfg, operation, events, Some(phase), facts).Ok?
    ensures var facts := if outstanding == [] then None else Some(Facts(outstanding, knowledge));
      CancelWrites(phase, knowledge, CancelOperation(cfg, operation, events, Some(phase), facts).value)
  {
    var facts := if outstanding == [] then None else Some(Facts(outstanding, knowledge));
    if phase.AwaitingTool? {
      CancelledTool(cfg, phase.pending, outstanding, knowledge);
    } else if IsCode(phase) {
      CancelledCode(cfg, operation, events, phase, facts);
    } else {
      CancelledElsewhere(cfg, operation, events, phase, facts);
    }
  }

  lemma AbandonedCode(cfg: Config, operation: OperationId, events: seq<Event>, phase: Phase, facts: seq<EffectFact>)
    requires IsCode(phase) && AbandonUnknown(cfg, operation, events, phase, facts).Ok?
    ensures Notices(PendingOf(phase), AbandonUnknown(cfg, operation, events, phase, facts).value)
  {
    CodeNotices(phase.pending, Explained(CodeStepLost));
    CodeNotices(phase.pending, Explained(CodeCallsLost));
  }

  lemma AbandoningWrites(cfg: Config, operation: OperationId, events: seq<Event>, phase: Phase, facts: seq<EffectFact>)
    requires AbandonUnknown(cfg, operation, events, phase, facts).Ok?
    ensures Notices(PendingOf(phase), AbandonUnknown(cfg, operation, events, phase, facts).value)
  {
    if IsCode(phase) {
      AbandonedCode(cfg, operation, events, phase, facts);
    } else if phase.AwaitingTool? {
      UnavailableIsNotice(phase.pending.All(), Explained(OutcomeNotRecovered), Explained(NotRunAfterUnknown));
    }
  }

  /** The step kept the journal and wrote for the operation that runs. */
  predicate Grew(s: Session, s': Session) {
    && s.events <= s'.events
    && (forall j | |s.events| <= j < |s'.events| :: s.active.Running? && s'.events[j].operation == s.active.operation)
  }

  /** The kinds a step appended. */
  function Appended(s: Session, s': Session): seq<EventKind> {
    if |s.events| <= |s'.events| then Kinds(s'.events)[|s.events|..] else []
  }

  lemma AppendedIs(events: seq<Event>, operation: OperationId, kinds: seq<EventKind>)
    ensures Kinds(Append(events, operation, kinds))[|events|..] == kinds
    ensures forall j | |events| <= j < |events| + |kinds| :: Append(events, operation, kinds)[j].operation == operation
  {
    forall j | |events| <= j < |events| + |kinds| ensures Append(events, operation, kinds)[j].operation == operation {
      assert Append(events, operation, kinds)[|events| + (j - |events|)].operation == operation;
    }
    KindsAppend(events, operation, kinds);
    assert (Kinds(events) + kinds)[|events|..] == kinds;
  }

  lemma DecisionAppends(s: Session, d: Decision)
    requires s.active.Running?
    ensures Grew(s, Commit(s, d)) && Appended(s, Commit(s, d)) == KindsOf(d)
  {
    if !d.InvokeEffects? {
      AppendedIs(s.events, s.active.operation, d.events);
      assert Append(s.events, s.active.operation, d.events)[..|s.events|] == s.events;
    } else {
      assert Kinds(s.events)[|s.events|..] == [];
    }
  }

  lemma CloseAppends(s: Session, kinds: seq<EventKind>)
    requires s.active.Running?
    ensures Grew(s, Close(s, kinds)) && Appended(s, Close(s, kinds)) == kinds
  {
    AppendedIs(s.events, s.active.operation, kinds);
    assert Append(s.events, s.active.operation, kinds)[..|s.events|] == s.events;
  }

  lemma DriveStepWrites(cfg: Config, s: Session)
    requires s.active.Running? && Step(cfg, s, Drive).Some?
    ensures var s' := Step(cfg, s, Drive).value; Grew(s, s') && Writes(cfg, s, Drive, Appended(s, s'))
  {
    var input := InputFor(s, None);
    DecisionAppends(s, Decide(cfg, input).value);
    if s.active.checkpoint.Some? {
      DrivingWrites(cfg, input);
    }
  }

  lemma SettleStepWrites(cfg: Config, s: Session, outcomes: seq<EffectOutcome>)
    requires s.active.Running? && s.active.checkpoint.Some? && Step(cfg, s, Settle(outcomes)).Some?
    ensures var s' := Step(cfg, s, Settle(outcomes)).value;
      Grew(s, s') && Writes(cfg, s, Settle(outcomes), Appended(s, s'))
  {
    var effects := SettledEffects(s.active.outstanding, outcomes);
    var input := InputFor(s, Some(effects));
    DecisionAppends(s, Decide(cfg, input).value);
    SettlingWrites(cfg, input, effects);
    assert Outcomes(effects) == outcomes;
  }

  lemma CancelStepWrites(cfg: Config, s: Session, knowledge: seq<Knowledge>)
    requires s.active.Running? && Step(cfg, s, Cancel(knowledge)).Some?
    ensures var s' := Step(cfg, s, Cancel(knowledge)).value;
      Grew(s, s') && Writes(cfg, s, Cancel(knowledge), Appended(s, s'))
  {
    var outstanding := s.active.outstanding;
    var facts := if outstanding == [] then None else Some(Facts(outstanding, knowledge));
    CloseAppends(s, CancelOperation(cfg, s.active.operation, s.events, s.active.checkpoint, facts).value);
    if s.active.checkpoint.Some? {
      CancellingWrites(cfg, s.active.operation, s.events, s.active.checkpoint.value, outstanding, knowledge);
    }
  }

  lemma AbandonStepWrites(cfg: Config, s: Session, knowledge: seq<Knowledge>)
    requires s.active.Running? && Step(cfg, s, Abandon(knowledge)).Some?
    ensures var s' := Step(cfg, s, Abandon(knowledge)).value;
      Grew(s, s') && Writes(cfg, s, Abandon(knowledge), Appended(s, s'))
  {
    var facts := Facts(s.active.outstanding, knowledge);
    var phase := s.active.checkpoint.value;
    CloseAppends(s, AbandonUnknown(cfg, s.active.operation, s.events, phase, facts).value);
    AbandoningWrites(cfg, s.active.operation, s.events, phase, facts);
  }

  lemma StepWrites(cfg: Config, s: Session, input: Input)
    requires Inv(cfg, s) && Step(cfg, s, input).Some?
    ensures var s' := Step(cfg, s, input).value; Grew(s, s') && Writes(cfg, s, input, Appended(s, s'))
  {
    if s.active.Running? {
      match input
      case Drive => DriveStepWrites(cfg, s);
      case Settle(outcomes) => SettleStepWrites(cfg, s, outcomes);
      case Cancel(knowledge) => CancelStepWrites(cfg, s, knowledge);
      case Abandon(knowledge) => AbandonStepWrites(cfg, s, knowledge);
    } else {
      assert Kinds(s.events)[|s.events|..] == [];
    }
  }

  // Every run ---------------------------------------------------------------

  lemma {:induction false} RunPrefix(configs: Configs, inputs: seq<Input>, n: nat)
    requires n <= |inputs| && Run(configs, inputs).Some?
    ensures Run(configs, inputs[..n]).Some? && Run(configs, inputs[..n]).value.events <= Run(configs, inputs).value.events
  {
    if n == |inputs| {
      assert inputs[..n] == inputs;
    } else {
      var before := inputs[..|inputs| - 1];
      RunPrefix(configs, before, n);
      assert before[..n] == inputs[..n];
      RunKeepsInv(configs, before);
      var s := Run(configs, before).value;
      ConfigIsKept(configs, s, inputs[|inputs| - 1]);
      StepWrites(ConfigFor(configs, s), s, inputs[|inputs| - 1]);
    }
  }

  /** The sessions before and after step `n` of a run. */
  ghost predicate StepOf(configs: Configs, inputs: seq<Input>, n: nat, s: Session, s': Session) {
    n < |inputs| && Run(configs, inputs[..n]) == Some(s) && Run(configs, inputs[..n + 1]) == Some(s')
  }

  /** At its place in the final journal stands exactly what step `n` wrote. */
  ghost predicate Recorded(configs: Configs, inputs: seq<Input>, events: seq<Event>, n: nat, s: Session, s': Session) {
    && StepOf(configs, inputs, n, s, s')
    && |s.events| <= |s'.events| <= |events|
    && Writes(ConfigFor(configs, s), s, inputs[n], Kinds(events)[|s.events|..|s'.events|])
    && (forall j | |s.events| <= j < |s'.events| :: s.active.Running? && events[j].operation == s.active.operation)
  }

  lemma KindsOfPrefix(a: seq<Event>, b: seq<Event>, from: nat)
    requires a <= b && from <= |a|
    ensures Kinds(b)[from..|a|] == Kinds(a)[from..]
  {
    assert forall i | 0 <= i < |a| :: a[i] == b[i];
  }

  /** What any step of a run wrote is in its final journal, unchanged and in its place. */
  lemma EveryStepIsRecorded(configs: Configs, inputs: seq<Input>, n: nat) returns (s: Session, s': Session)
    requires n < |inputs| && Run(configs, inputs).Some?
    ensures Recorded(configs, inputs, Run(configs, inputs).value.events, n, s, s')
  {
    RunPrefix(configs, inputs, n);
    RunPrefix(configs, inputs, n + 1);
    s, s' := Run(configs, inputs[..n]).value, Run(configs, inputs[..n + 1]).value;
    assert inputs[..n + 1][..n] == inputs[..n];
    RunKeepsInv(configs, inputs[..n]);
    ConfigIsKept(configs, s, inputs[n]);
    StepWrites(ConfigFor(configs, s), s, inputs[n]);
    KindsOfPrefix(s'.events, Run(configs, inputs).value.events, |s.events|);
  }

  /** How long the journal was before step `n`. */
  ghost function LengthAt(configs: Configs, inputs: seq<Input>, n: nat): nat
    requires n <= |inputs|
  {
    match Run(configs, inputs[..n])
    case None => 0
    case Some(s) => |s.events|
  }

  lemma StepWithEvent(configs: Configs, inputs: seq<Input>, j: nat) returns (n: nat)
    requires j < LengthAt(configs, inputs, |inputs|)
    ensures n < |inputs| && LengthAt(configs, inputs, n) <= j < LengthAt(configs, inputs, n + 1)
  {
    n := 0;
    assert LengthAt(configs, inputs, 0) == 0;
    while LengthAt(configs, inputs, n + 1) <= j
      invariant n < |inputs| && LengthAt(configs, inputs, n) <= j
      decreases |inputs| - n
    {
      n := n + 1;
    }
  }

  lemma SliceAt<T>(s: seq<T>, from: nat, to: nat, j: nat)
    requires from <= j < to <= |s|
    ensures s[from..to][j - from] == s[j]
  {
  }

  /** And every event of the final journal was written by some step. */
  lemma EveryEventWasWritten(configs: Configs, inputs: seq<Input>, j: nat) returns (n: nat, s: Session, s': Session)
    requires Run(configs, inputs).Some? && j < |Run(configs, inputs).value.events|
    ensures Recorded(configs, inputs, Run(configs, inputs).value.events, n, s, s') && |s.events| <= j < |s'.events|
  {
    assert LengthAt(configs, inputs, |inputs|) == |Run(configs, inputs).value.events| by {
      assert inputs[..|inputs|] == inputs;
    }
    n := StepWithEvent(configs, inputs, j);
    s, s' := EveryStepIsRecorded(configs, inputs, n);
    LengthsOf(configs, inputs, n, s, s');
  }

  lemma LengthsOf(configs: Configs, inputs: seq<Input>, n: nat, s: Session, s': Session)
    requires StepOf(configs, inputs, n, s, s')
    ensures LengthAt(configs, inputs, n) == |s.events| && LengthAt(configs, inputs, n + 1) == |s'.events|
  {
  }

  // Nothing an adapter answers is lost or changed ---------------------------

  predicate At(s: Session, phase: Phase) {
    s.active.Running? && s.active.checkpoint == Some(phase)
  }

  /** The tool answered, before or after the operation was cancelled. */
  predicate Gave(input: Input, answer: ToolResult) {
    || (input.Settle? && input.outcomes != [] && input.outcomes[0] == Success(ToolOutput(answer)))
    || (input.Cancel? && input.knowledge != [] && input.knowledge[0] == Answered(Success(ToolOutput(answer))))
  }

  lemma AnswerComesFirst(
    cfg: Config, s: Session, input: Input, kinds: seq<EventKind>, turns: nat, pending: PendingToolCalls, answer: ToolResult)
    requires Writes(cfg, s, input, kinds) && At(s, AwaitingTool(turns, pending)) && Gave(input, answer)
    ensures kinds != [] && kinds[0] == MessageEvent(Tool(answer.(closing := None)))
  {
    assert answer.closing.None? ==> answer.(closing := None) == answer;
  }

  /** In every run, a tool's answer is the result of the call that ran, field for field
      apart from what closes the turn. */
  lemma ToolAnswersAreKept(
    configs: Configs, inputs: seq<Input>, n: nat, s: Session, turns: nat, pending: PendingToolCalls, answer: ToolResult)
    requires n < |inputs| && Run(configs, inputs).Some? && Run(configs, inputs[..n]) == Some(s)
    requires At(s, AwaitingTool(turns, pending)) && Gave(inputs[n], answer)
    ensures var events := Run(configs, inputs).value.events;
      |s.events| < |events| && events[|s.events|].kind == MessageEvent(Tool(answer.(closing := None)))
  {
    var before, after := EveryStepIsRecorded(configs, inputs, n);
    var events := Run(configs, inputs).value.events;
    var kinds := Kinds(events)[|s.events|..|after.events|];
    AnswerComesFirst(ConfigFor(configs, s), s, inputs[n], kinds, turns, pending, answer);
    assert kinds[0] == Kinds(events)[|s.events|];
  }

  /** In every run, a prompt that is driven is journalled with its own blocks, followed by
      its annotation or the mark of its receipt. */
  lemma PromptsAreKept(configs: Configs, inputs: seq<Input>, m: nat, command: Command) returns (s: Session, s': Session)
    requires m + 1 < |inputs| && Run(configs, inputs).Some?
    requires command.Prompt? && inputs[m] == Submit(command) && inputs[m + 1] == Drive
    ensures Recorded(configs, inputs, Run(configs, inputs).value.events, m + 1, s, s')
    ensures PromptWrites(command, Kinds(Run(configs, inputs).value.events)[|s.events|..|s'.events|])
  {
    s, s' := EveryStepIsRecorded(configs, inputs, m + 1);
    assert inputs[..m + 1][..m] == inputs[..m];
  }

  /** The model's answer fits the limits of the loop. */
  ghost predicate Accepts(cfg: Config, response: ModelResponse) {
    var calls := Calls(response.content);
    |calls| <= U32_MAX && |calls| <= cfg.maxToolCalls && ValidIds(Ids(calls))
  }

  lemma ModelAnswerComesFirst(
    cfg: Config, s: Session, kinds: seq<EventKind>, turns: nat, response: ModelResponse)
    requires Writes(cfg, s, Settle([Success(Completed(response))]), kinds) && At(s, AwaitingModel(turns)) && Accepts(cfg, response)
    ensures kinds != [] && kinds[0] == MessageEvent(Assistant(response.content, response.stopReason, response.metadata))
  {
  }

  /** In every run, a model answer whose calls are accepted is journalled as it came. */
  lemma ModelAnswersAreKept(
    configs: Configs, inputs: seq<Input>, n: nat, s: Session, turns: nat, response: ModelResponse)
    requires n < |inputs| && Run(configs, inputs).Some? && Run(configs, inputs[..n]) == Some(s)
    requires At(s, AwaitingModel(turns)) && inputs[n] == Settle([Success(Completed(response))])
    requires Accepts(ConfigFor(configs, s), response)
    ensures var events := Run(configs, inputs).value.events;
      && |s.events| < |events|
      && events[|s.events|].kind == MessageEvent(Assistant(response.content, response.stopReason, response.metadata))
  {
    var before, after := EveryStepIsRecorded(configs, inputs, n);
    var events := Run(configs, inputs).value.events;
    var kinds := Kinds(events)[|s.events|..|after.events|];
    ModelAnswerComesFirst(ConfigFor(configs, s), s, kinds, turns, response);
    assert kinds[0] == Kinds(events)[|s.events|];
  }

  // And nothing else is journalled ------------------------------------------

  /** An error result of one block, which no adapter had to give. */
  predicate NoticeLike(result: ToolResult) {
    |result.content| == 1 && result.details.None? && result.isError && result.closing.None?
  }

  /** Where a result that is no notice comes from: the tool's own answer, the value of a
      finished code run, or that of one its nested answers stopped. */
  ghost predicate ComesFrom(phase: Phase, input: Input, result: ToolResult) {
    match phase
    case AwaitingTool(_, pending) =>
      && result.callId == pending.current.id && result.name == pending.current.name
      && (exists answer :: Gave(input, answer) && result == answer.(closing := None))
    case AwaitingCodeStep(_, pending, _, _) =>
      && input.Settle? && input.outcomes != [] && IsCodeValue(pending.current, result, result.isError)
      && input.outcomes[0] == Success(StepOutput(StepCompleted(result.content[0].text, result.isError)))
    case AwaitingCodeCalls(_, pending, _, _, _) => input.Settle? && IsCodeValue(pending.current, result, false)
    case _ => false
  }

  /** The answer of a tool closes the turn with these words. */
  ghost predicate ClosesWith(input: Input, content: seq<AssistantContent>) {
    exists answer :: Gave(input, answer) && answer.closing.Some? && content == [Text(answer.closing.value.message)]
  }

  /** Who said an assistant message: the model, or the answer that closed the turn. */
  ghost predicate Said(phase: Phase, input: Input, message: Message)
    requires message.Assistant?
  {
    && input.Settle? && input.outcomes != []
    && match phase
       case AwaitingModel(_) =>
         input.outcomes[0] == Success(Completed(ModelResponse(message.content, message.stopReason, message.metadata)))
       case AwaitingTool(_, _) => ClosesWith(input, message.content)
       case AwaitingCodeCalls(_, _, _, _, _) => |message.content| == 1 && message.content[0].Text?
       case _ => false
  }

  /** A message that a step at this checkpoint may write. */
  ghost predicate Sourced(phase: Phase, input: Input, kind: EventKind) {
    kind.MessageEvent? ==>
      match kind.message
      case User(_) => false
      case Assistant(_, _, _) => Said(phase, input, kind.message)
      case Tool(result) => NoticeLike(result) || ComesFrom(phase, input, result)
  }

  lemma NoticesAreSourced(calls: seq<ToolCall>, phase: Phase, input: Input, kinds: seq<EventKind>, i: nat)
    requires Notices(calls, kinds) && i < |kinds|
    ensures Sourced(phase, input, kinds[i])
  {
    assert IsNotice(calls[i], kinds[i]);
  }

  lemma ClosingIsSourced(
    pending: PendingToolCalls, result: ToolResult, message: string, notRun: string, phase: Phase, input: Input,
    kinds: seq<EventKind>, i: nat)
    requires Closes(pending, result, message, notRun, kinds) && i < |kinds| && ComesFrom(phase, input, result)
    requires forall reply: Message | reply.Assistant? && reply.content == [Text(message)] :: Said(phase, input, reply)
    ensures Sourced(phase, input, kinds[i])
  {
    if 0 < i < |kinds| - 1 {
      NoticesAreSourced(pending.remaining, phase, input, kinds[1..|kinds| - 1], i - 1);
    }
  }

  lemma ModelIsSourced(cfg: Config, phase: Phase, input: Input, kinds: seq<EventKind>, i: nat)
    requires phase.AwaitingModel? && input.Settle? && input.outcomes != []
    requires ModelWrites(cfg, input.outcomes[0], kinds) && i < |kinds|
    ensures Sourced(phase, input, kinds[i])
  {
    if i > 0 {
      var response := input.outcomes[0].output.response;
      NoticesAreSourced(if response.stopReason == Length then Calls(response.content) else [], phase, input, kinds[1..], i - 1);
    }
  }

  lemma ToolIsSourced(phase: Phase, input: Input, kinds: seq<EventKind>, i: nat)
    requires phase.AwaitingTool? && input.Settle? && input.outcomes != []
    requires ToolWrites(phase.pending, input.outcomes[0], kinds) && i < |kinds|
    ensures Sourced(phase, input, kinds[i])
  {
    match input.outcomes[0]
    case Success(ToolOutput(answer)) =>
      assert Gave(input, answer);
      match answer.closing {
        case None => assert answer == answer.(closing := None);
        case Some(closing) =>
          ClosingIsSourced(phase.pending, answer.(closing := None), closing.message, closing.notRun, phase, input, kinds, i);
      }
    case _ => NoticesAreSourced(phase.pending.All(), phase, input, kinds, i);
  }

  lemma CancelledToolIsSourced(phase: Phase, input: Input, kinds: seq<EventKind>, i: nat)
    requires phase.AwaitingTool? && input.Cancel? && input.knowledge != []
    requires CancelledToolWrites(phase.pending, input.knowledge[0], kinds) && i < |kinds|
    ensures Sourced(phase, input, kinds[i])
  {
    if i > 0 {
      NoticesAreSourced(phase.pending.remaining, phase, input, kinds[1..], i - 1);
    } else {
      match input.knowledge[0]
      case Answered(Success(ToolOutput(answer))) => assert Gave(input, answer);
      case _ =>
    }
  }

  lemma CodeIsSourced(cfg: Config, phase: Phase, input: Input, kinds: seq<EventKind>, i: nat)
    requires IsCode(phase) && input.Settle? && input.outcomes != []
    requires SettleWrites(cfg, phase, input.outcomes, kinds) && i < |kinds|
    ensures Sourced(phase, input, kinds[i])
  {
    var pending := phase.pending;
    if Notices(pending.All(), kinds) {
      NoticesAreSourced(pending.All(), phase, input, kinds, i);
    } else if Notices([pending.current], kinds) {
      NoticesAreSourced([pending.current], phase, input, kinds, i);
    } else if phase.AwaitingCodeCalls? {
      var result, message, notRun :|
        IsCodeValue(pending.current, result, false) && Closes(pending, result, message, notRun, kinds);
      ClosingIsSourced(pending, result, message, notRun, phase, input, kinds, i);
    }
  }

  lemma SettledIsSourced(cfg: Config, phase: Phase, input: Input, kinds: seq<EventKind>, i: nat)
    requires input.Settle? && input.outcomes != [] && SettleWrites(cfg, phase, input.outcomes, kinds) && i < |kinds|
    ensures Sourced(phase, input, kinds[i])
  {
    if phase.AwaitingModel? {
      ModelIsSourced(cfg, phase, input, kinds, i);
    } else if phase.AwaitingTool? {
      ToolIsSourced(phase, input, kinds, i);
    } else if IsCode(phase) {
      CodeIsSourced(cfg, phase, input, kinds, i);
    }
  }

  lemma WritesAreSourced(cfg: Config, s: Session, input: Input, phase: Phase, kinds: seq<EventKind>, i: nat)
    requires At(s, phase) && Writes(cfg, s, input, kinds) && i < |kinds|
    ensures Sourced(phase, input, kinds[i])
  {
    match input
    case Drive => NoticesAreSourced([phase.pending.current], phase, input, kinds, i);
    case Settle(_) => SettledIsSourced(cfg, phase, input, kinds, i);
    case Cancel(_) =>
      if phase.AwaitingTool? {
        CancelledToolIsSourced(phase, input, kinds, i);
      } else {
        NoticesAreSourced(PendingOf(phase), phase, input, kinds, i);
      }
    case Abandon(_) => NoticesAreSourced(PendingOf(phase), phase, input, kinds, i);
  }

  /** A step starts an operation with its prompt, or writes what its checkpoint allows. */
  ghost predicate Begins(s: Session, kind: EventKind)
    requires kind.MessageEvent?
  {
    && s.active.Running?
    && (kind.message.User? ==>
          s.active.checkpoint.None? && s.active.command.Prompt? && kind.message.blocks == s.active.command.blocks)
    && (!kind.message.User? ==> s.active.checkpoint.Some?)
  }

  lemma WrittenMessages(cfg: Config, s: Session, input: Input, kinds: seq<EventKind>, i: nat)
    requires Writes(cfg, s, input, kinds) && i < |kinds| && kinds[i].MessageEvent?
    ensures Begins(s, kinds[i]) && (s.active.checkpoint.Some? ==> Sourced(s.active.checkpoint.value, input, kinds[i]))
  {
    if s.active.Running? && s.active.checkpoint.Some? {
      WritesAreSourced(cfg, s, input, s.active.checkpoint.value, kinds, i);
    }
  }

  /** The step that wrote the event had it from its operation's prompt, or from what
      settled at its checkpoint. */
  ghost predicate SourcedAt(s: Session, input: Input, event: Event)
    requires event.kind.MessageEvent?
  {
    && Begins(s, event.kind) && event.operation == s.active.operation
    && (s.active.checkpoint.Some? ==> Sourced(s.active.checkpoint.value, input, event.kind))
  }

  lemma WritesAreSourcedAt(cfg: Config, s: Session, input: Input, kinds: seq<EventKind>, i: nat, event: Event)
    requires Writes(cfg, s, input, kinds) && i < |kinds| && kinds[i] == event.kind && event.kind.MessageEvent?
    requires s.active.Running? && event.operation == s.active.operation
    ensures SourcedAt(s, input, event)
  {
    WrittenMessages(cfg, s, input, kinds, i);
  }

  lemma RecordedMessages(configs: Configs, inputs: seq<Input>, events: seq<Event>, n: nat, s: Session, s': Session, j: nat)
    requires Recorded(configs, inputs, events, n, s, s') && |s.events| <= j < |s'.events| && events[j].kind.MessageEvent?
    ensures SourcedAt(s, inputs[n], events[j])
  {
    SliceAt(Kinds(events), |s.events|, |s'.events|, j);
    WritesAreSourcedAt(ConfigFor(configs, s), s, inputs[n], Kinds(events)[|s.events|..|s'.events|], j - |s.events|, events[j]);
  }

  /** In every run, every journalled message was written by some step: a user message with
      the blocks of its operation's prompt, and every other one as a model or a tool
      answered in that step, in the words an answer closes its turn with, or as a notice. */
  lemma MessagesAreSourced(configs: Configs, inputs: seq<Input>, j: nat) returns (n: nat, s: Session, s': Session)
    requires Run(configs, inputs).Some? && j < |Run(configs, inputs).value.events|
    requires Run(configs, inputs).value.events[j].kind.MessageEvent?
    ensures StepOf(configs, inputs, n, s, s') && |s.events| <= j < |s'.events|
    ensures SourcedAt(s, inputs[n], Run(configs, inputs).value.events[j])
  {
    n, s, s' := EveryEventWasWritten(configs, inputs, j);
    RecordedMessages(configs, inputs, Run(configs, inputs).value.events, n, s, s', j);
  }

  lemma {:induction false} CommandWasSubmitted(configs: Configs, inputs: seq<Input>) returns (m: nat)
    requires Run(configs, inputs).Some? && Run(configs, inputs).value.active.Running?
    ensures var active := Run(configs, inputs).value.active;
      && m < |inputs| && inputs[m] == Submit(active.command)
      && Run(configs, inputs[..m]).Some? && Run(configs, inputs[..m]).value.nextOperation == active.operation
  {
    var last := |inputs| - 1;
    var s := Run(configs, inputs[..last]).value;
    if s.active.Idle? {
      m := last;
    } else {
      m := CommandWasSubmitted(configs, inputs[..last]);
      assert inputs[..last][..m] == inputs[..m];
    }
  }

  /** In every run, every journalled user message has the blocks of the prompt its
      operation was submitted with. */
  lemma UserMessagesArePrompts(configs: Configs, inputs: seq<Input>, j: nat) returns (m: nat)
    requires Run(configs, inputs).Some? && j < |Run(configs, inputs).value.events|
    requires var kind := Run(configs, inputs).value.events[j].kind; kind.MessageEvent? && kind.message.User?
    ensures var event := Run(configs, inputs).value.events[j];
      && m < |inputs| && inputs[m].Submit? && inputs[m].command.Prompt? && inputs[m].command.blocks == event.kind.message.blocks
      && Run(configs, inputs[..m]).Some? && Run(configs, inputs[..m]).value.nextOperation == event.operation
  {
    var n, s, s' := MessagesAreSourced(configs, inputs, j);
    m := CommandWasSubmitted(configs, inputs[..n]);
    assert inputs[..n][..m] == inputs[..m];
  }

  // Nested answers ----------------------------------------------------------

  lemma WaveOutcomes(cfg: Config, run: CodeRun, batch: CodeCallBatch, effects: seq<SettledEffect>)
    requires cfg.codeMode.Some? && batch.Valid() && SettledWave(cfg, run, batch, Some(effects)).Ok?
    requires WaveRequests(cfg.codeMode.value, run, batch.Ordered(), Requests(effects))
    requires forall i | 0 <= i < |effects| :: effects[i].binding == cfg.codeMode.value.nestedBinding
    ensures var byId := ById(Requests(effects));
      && byId.Ok? && Places(run, batch.Ordered(), byId.value)
      && var outcomes := map id | id in byId.value && byId.value[id] < |effects| :: effects[byId.value[id]].outcome;
      SettledWave(cfg, run, batch, Some(effects)) == ReadWave(cfg.codeMode.value, run, batch.Ordered(), outcomes)
  {
    WaveMatches(cfg.codeMode.value, run, batch, Bindings(effects), Requests(effects));
  }

  /** Each nested call is handed its own answer. */
  ghost predicate HandsOn(
    code: LoopCodeMode, calls: seq<CodePluginCall>, outcomes: seq<EffectOutcome>, results: map<string, string>)
  {
    && |outcomes| == |calls|
    && (forall i | 0 <= i < |calls| ::
          && outcomes[i].Success? && outcomes[i].output.ToolOutput? && Decimal(calls[i].callId) in results
          && results[Decimal(calls[i].callId)] == code.pythonValue(outcomes[i].output.result))
  }

  lemma CallGetsItsAnswer(
    code: LoopCodeMode, run: CodeRun, calls: seq<CodePluginCall>, byId: map<string, nat>, effects: seq<SettledEffect>,
    outcomes: map<string, EffectOutcome>, answers: seq<ToolResult>, reading: WaveReading, i: nat)
    requires outcomes == map id | id in byId && byId[id] < |effects| :: effects[byId[id]].outcome
    requires |effects| == |calls| && i < |calls| && Places(run, calls, byId)
    requires ReadsAs(code, run, calls, outcomes, answers, reading)
    ensures effects[i].outcome == Success(ToolOutput(answers[i]))
    ensures Decimal(calls[i].callId) in reading.results
    ensures reading.results[Decimal(calls[i].callId)] == code.pythonValue(answers[i])
  {
    assert ReadsOne(code, run, calls[i], outcomes, answers[i], reading);
    assert byId[WaveIds(run, calls)[i]] == i;
  }

  predicate DistinctCalls(calls: seq<CodePluginCall>) {
    forall i, j | 0 <= i < j < |calls| :: calls[i].callId != calls[j].callId
  }

  lemma CallsAreDistinct(batch: CodeCallBatch)
    requires batch.Valid()
    ensures DistinctCalls(batch.Ordered())
  {
    forall i, j | 0 <= i < j < |batch.Ordered()| ensures batch.Ordered()[i].callId != batch.Ordered()[j].callId {
      assert batch.ValidEntry(batch.order[i]) && batch.ValidEntry(batch.order[j]);
    }
  }

  lemma ReadingHandsOn(
    code: LoopCodeMode, run: CodeRun, calls: seq<CodePluginCall>, byId: map<string, nat>, effects: seq<SettledEffect>,
    outcomes: map<string, EffectOutcome>)
    requires outcomes == map id | id in byId && byId[id] < |effects| :: effects[byId[id]].outcome
    requires |effects| == |calls| && Places(run, calls, byId) && DistinctCalls(calls)
    requires ReadWave(code, run, calls, outcomes).Ok? && ReadWave(code, run, calls, outcomes).value.WaveRead?
    ensures HandsOn(code, calls, Outcomes(effects), ReadWave(code, run, calls, outcomes).value.results)
  {
    var answers := WaveIsReadByCall(code, run, calls, outcomes);
    var reading := ReadWave(code, run, calls, outcomes).value;
    forall i: nat | i < |calls|
      ensures effects[i].outcome == Success(ToolOutput(answers[i]))
      ensures Decimal(calls[i].callId) in reading.results
      ensures reading.results[Decimal(calls[i].callId)] == code.pythonValue(answers[i])
    {
      CallGetsItsAnswer(code, run, calls, byId, effects, outcomes, answers, reading, i);
    }
  }

  lemma WaveHandsOn(cfg: Config, run: CodeRun, batch: CodeCallBatch, effects: seq<SettledEffect>)
    requires cfg.codeMode.Some? && batch.Valid() && SettledWave(cfg, run, batch, Some(effects)).Ok?
    requires WaveRequests(cfg.codeMode.value, run, batch.Ordered(), Requests(effects))
    requires forall i | 0 <= i < |effects| :: effects[i].binding == cfg.codeMode.value.nestedBinding
    requires SettledWave(cfg, run, batch, Some(effects)).value.WaveRead?
    ensures HandsOn(cfg.codeMode.value, batch.Ordered(), Outcomes(effects), SettledWave(cfg, run, batch, Some(effects)).value.results)
  {
    WaveOutcomes(cfg, run, batch, effects);
    CallsAreDistinct(batch);
    var byId := ById(Requests(effects)).value;
    var outcomes := map id | id in byId && byId[id] < |effects| :: effects[byId[id]].outcome;
    ReadingHandsOn(cfg.codeMode.value, run, batch.Ordered(), byId, effects, outcomes);
  }

  lemma WaveResumes(
    cfg: Config, turns: nat, pending: PendingToolCalls, run: CodeRun, snapshot: string, calls: CodeCallBatch, input: LoopInput)
    requires calls.Valid() && SettleCodeCalls(cfg, turns, pending, run, snapshot, calls, input).Ok?
    requires SettleCodeCalls(cfg, turns, pending, run, snapshot, calls, input).value.InvokeEffects?
    ensures SettledWave(cfg, run, calls, input.effects).Ok? && SettledWave(cfg, run, calls, input.effects).value.WaveRead?
    ensures SettleCodeCalls(cfg, turns, pending, run, snapshot, calls, input).value.phase
         == AwaitingCodeStep(turns, pending, run,
              CodeStepRequest(run.runId, Resume(snapshot, SettledWave(cfg, run, calls, input.effects).value.results)))
  {
  }

  lemma PersistedWave(code: LoopCodeMode, run: CodeRun, calls: seq<CodePluginCall>, outcomes: seq<EffectOutcome>)
    requires |outcomes| == |calls|
    ensures var effects := SettledEffects(NestedEffects(code, run, calls), outcomes);
      && WaveRequests(code, run, calls, Requests(effects)) && Outcomes(effects) == outcomes
      && (forall i | 0 <= i < |effects| :: effects[i].binding == code.nestedBinding)
  {
  }

  lemma WaveIsOutstanding(cfg: Config, s: Session, phase: Phase)
    requires Inv(cfg, s) && At(s, phase) && phase.AwaitingCodeCalls?
    ensures cfg.codeMode.Some? && phase.calls.Valid()
    ensures s.active.outstanding == NestedEffects(cfg.codeMode.value, phase.run, phase.calls.Ordered())
  {
  }

  lemma WaveDecision(cfg: Config, s: Session, phase: Phase, outcomes: seq<EffectOutcome>, next: Phase)
    requires At(s, phase) && phase.AwaitingCodeCalls? && phase.calls.Valid() && Step(cfg, s, Settle(outcomes)).Some?
    requires At(Step(cfg, s, Settle(outcomes)).value, next) && next.AwaitingCodeStep?
    ensures |s.active.outstanding| == |outcomes|
    ensures var input := InputFor(s, Some(SettledEffects(s.active.outstanding, outcomes)));
      var d := SettleCodeCalls(cfg, phase.turns, phase.pending, phase.run, phase.snapshot, phase.calls, input);
      d.Ok? && d.value.InvokeEffects? && d.value.phase == next
  {
    var input := InputFor(s, Some(SettledEffects(s.active.outstanding, outcomes)));
    var d := SettleCodeCalls(cfg, phase.turns, phase.pending, phase.run, phase.snapshot, phase.calls, input);
    assert Decide(cfg, input) == d;
    if !d.value.InvokeEffects? {
      SettleCodeCallsMoves(cfg, phase, input);
    }
  }

  /** A code run that goes on after a wave resumes where it stopped, with the value of
      each nested call's own answer. */
  lemma RunsResumeWithTheirAnswers(cfg: Config, s: Session, phase: Phase, outcomes: seq<EffectOutcome>, next: Phase)
    requires Inv(cfg, s) && At(s, phase) && phase.AwaitingCodeCalls? && Step(cfg, s, Settle(outcomes)).Some?
    requires At(Step(cfg, s, Settle(outcomes)).value, next) && next.AwaitingCodeStep?
    ensures cfg.codeMode.Some? && next.step.runId == phase.run.runId && next.step.step.Resume?
    ensures next.step.step.snapshot == phase.snapshot
    ensures phase.calls.Valid() && HandsOn(cfg.codeMode.value, phase.calls.Ordered(), outcomes, next.step.step.results)
  {
    WaveIsOutstanding(cfg, s, phase);
    WaveDecision(cfg, s, phase, outcomes, next);
    var effects := SettledEffects(s.active.outstanding, outcomes);
    var input := InputFor(s, Some(effects));
    PersistedWave(cfg.codeMode.value, phase.run, phase.calls.Ordered(), outcomes);
    WaveResumes(cfg, phase.turns, phase.pending, phase.run, phase.snapshot, phase.calls, input);
    WaveHandsOn(cfg, phase.run, phase.calls, effects);
  }
}
