/** What each step asks of the adapters, and how operations end. */
module LoopOutcomes {
  import opened Base
  import opened PendingTools
  import opened CodeMode
  import opened LoopTypes
  import opened ContextInput
  import opened AgentLoop
  import opened LoopSession
  import opened LoopBounds
  import opened LoopProgress
  import opened LoopRecords

  // What is asked -----------------------------------------------------------

  /** The first configured tool of that name runs it. */
  predicate RunBy(cfg: Config, name: string, binding: string) {
    exists i :: 0 <= i < |cfg.tools| && FirstNamed(cfg, name, i) && cfg.tools[i].binding == binding
  }

  predicate FirstNamed(cfg: Config, name: string, i: nat)
    requires i < |cfg.tools|
  {
    cfg.tools[i].spec.name == name && forall j | 0 <= j < i :: cfg.tools[j].spec.name != name
  }

  lemma {:induction false} FindsTheFirst(cfg: Config, name: string, from: nat)
    requires from <= |cfg.tools| && forall j | 0 <= j < from :: cfg.tools[j].spec.name != name
    ensures cfg.FindTool(name, from).Some? ==> RunBy(cfg, name, cfg.FindTool(name, from).value.binding)
    decreases |cfg.tools| - from
  {
    if from < |cfg.tools| {
      if cfg.tools[from].spec.name == name {
        assert FirstNamed(cfg, name, from);
      } else {
        FindsTheFirst(cfg, name, from + 1);
      }
    }
  }

  /** A call is asked for as the model made it: of its tool, or of a new code run with the
      program the call carries. */
  ghost predicate AskedAsCalled(cfg: Config, operation: OperationId, turns: nat, call: ToolCall, effects: seq<EffectRequest>) {
    && |effects| == 1
    && if cfg.IsCodeMode(call.name) then
         var code := cfg.codeMode.value;
         && code.parseSource(call.arguments).Some?
         && effects[0].binding == CODE_STEP_BINDING
         && effects[0].request == CodeStepCall(
              CodeStepRequest(code.runId(operation, turns, call.id), Start(code.parseSource(call.arguments).value)))
       else effects[0].request == ToolCallRequest(call) && RunBy(cfg, call.name, effects[0].binding)
  }

  lemma RequestsAsCalled(cfg: Config, turns: nat, pending: PendingToolCalls, input: LoopInput)
    requires RequestTool(cfg, turns, pending, input).Ok? && Runnable(cfg, pending.current)
    ensures var d := RequestTool(cfg, turns, pending, input).value;
      d.InvokeEffects? && AskedAsCalled(cfg, input.operation, turns, pending.current, d.effects)
  {
    var name := pending.current.name;
    if !cfg.IsCodeMode(name) {
      var i :| 0 <= i < |cfg.tools| && cfg.tools[i].spec.name == name;
      FindsWhatIsThere(cfg, name, 0, i);
      FindsTheFirst(cfg, name, 0);
    }
  }

  /** In every session, the next call that can run is asked for as the model made it. */
  lemma CallsAreAskedAsMade(cfg: Config, s: Session, turns: nat, pending: PendingToolCalls)
    requires At(s, NeedTool(turns, pending)) && Step(cfg, s, Drive).Some? && Runnable(cfg, pending.current)
    ensures var s' := Step(cfg, s, Drive).value;
      s'.active.Running? && AskedAsCalled(cfg, s.active.operation, turns, pending.current, s'.active.outstanding)
  {
    RequestsAsCalled(cfg, turns, pending, InputFor(s, None));
  }

  /** The wave of a suspended run: its calls in their order, each with its own identity,
      reference and arguments. */
  ghost predicate AskedAsSuspended(
    code: LoopCodeMode, snapshot: string, calls: seq<CodePluginCall>, next: Phase, effects: seq<EffectRequest>)
  {
    && next.AwaitingCodeCalls? && next.snapshot == snapshot && next.calls.Valid() && next.calls.Ordered() == calls
    && |effects| == |calls|
    && (forall i | 0 <= i < |calls| :: effects[i] == EffectRequest(code.nestedBinding, ToolCallRequest(ToolCall(
          next.run.CallId(calls[i].callId), code.nestedName, code.nestedArguments(calls[i].reference, calls[i].arguments)))))
  }

  lemma SuspendsAsCalled(
    cfg: Config, turns: nat, pending: PendingToolCalls, run: CodeRun, snapshot: string, calls: seq<CodePluginCall>)
    requires SuspendRun(cfg, turns, pending, run, snapshot, NewBatch(calls)).Ok?
    requires SuspendRun(cfg, turns, pending, run, snapshot, NewBatch(calls)).value.InvokeEffects?
    ensures var d := SuspendRun(cfg, turns, pending, run, snapshot, NewBatch(calls)).value;
      cfg.codeMode.Some? && AskedAsSuspended(cfg.codeMode.value, snapshot, calls, d.phase, d.effects)
  {
    OrderedOfBuilt(calls);
  }

  /** In every session, a suspended program's calls are asked for as it made them. */
  lemma WavesAreAskedAsMade(cfg: Config, s: Session, phase: Phase, snapshot: string, calls: seq<CodePluginCall>)
    requires At(s, phase) && phase.AwaitingCodeStep?
    requires Step(cfg, s, Settle([Success(StepOutput(Suspended(snapshot, calls)))])).Some?
    requires var s' := Step(cfg, s, Settle([Success(StepOutput(Suspended(snapshot, calls)))])).value;
      s'.active.Running? && s'.active.checkpoint.Some? && s'.active.checkpoint.value.AwaitingCodeCalls?
    ensures var s' := Step(cfg, s, Settle([Success(StepOutput(Suspended(snapshot, calls)))])).value;
      && cfg.codeMode.Some?
      && AskedAsSuspended(cfg.codeMode.value, snapshot, calls, s'.active.checkpoint.value, s'.active.outstanding)
  {
    var outcomes := [Success(StepOutput(Suspended(snapshot, calls)))];
    var input := InputFor(s, Some(SettledEffects(s.active.outstanding, outcomes)));
    var d := Decide(cfg, input).value;
    assert d.InvokeEffects? by {
      DecideMoves(cfg, input);
    }
    assert input.effects.value[0].outcome == outcomes[0];
    SuspendsAsCalled(cfg, phase.turns, phase.pending, phase.run, snapshot, calls);
  }

  // How operations end ------------------------------------------------------

  /** What the one effect of a step answered, if it succeeded. */
  function Answer(input: LoopInput): Option<Output> {
    if input.effects.Some? && |input.effects.value| == 1 && input.effects.value[0].outcome.Success? then
      Some(input.effects.value[0].outcome.output)
    else None
  }

  predicate Closing(input: LoopInput) {
    Answer(input).Some? && Answer(input).value.ToolOutput? && Answer(input).value.result.closing.Some?
  }

  /** The operation has its answer: a response without calls, a summary that was asked for,
      or nothing to summarise. */
  ghost predicate Finishes(cfg: Config, input: LoopInput) {
    match input.checkpoint
    case None =>
      && input.command.Compact?
      && var context := BuildInput(cfg, input.operation, input.events, false);
      context.Ok? && cfg.strategy.prepareExplicit(context.value).Ok? && cfg.strategy.prepareExplicit(context.value).value.UpToDate?
    case Some(AwaitingModel(_)) =>
      Answer(input).Some? && Answer(input).value.Completed? && Calls(Answer(input).value.response.content) == []
    case Some(AwaitingExplicitCompaction(plan, _, _)) =>
      && Answer(input).Some? && Answer(input).value.Completed?
      && cfg.strategy.validateSummary(plan, Answer(input).value.response).Ok?
    case _ => false
  }

  lemma ModelFinishes(cfg: Config, turns: nat, response: ModelResponse)
    requires ClassifyResponse(cfg, turns, response).Ok?
    ensures ClassifyResponse(cfg, turns, response).value.Complete? <==> Calls(response.content) == []
    ensures !ClassifyResponse(cfg, turns, response).value.WaitForInput?
  {
    NoIdErrorMeansValid(Ids(Calls(response.content)));
  }

  lemma IdleFinishes(cfg: Config, input: LoopInput)
    requires input.checkpoint.None? && Decide(cfg, input).Ok?
    ensures (Decide(cfg, input).value.Complete? <==> Finishes(cfg, input)) && !Decide(cfg, input).value.WaitForInput?
  {
  }

  lemma SummaryFinishes(cfg: Config, input: LoopInput)
    requires Decide(cfg, input).Ok? && input.checkpoint.Some?
    requires input.checkpoint.value.AwaitingExplicitCompaction? || input.checkpoint.value.AwaitingCompaction?
    ensures (Decide(cfg, input).value.Complete? <==> Finishes(cfg, input)) && !Decide(cfg, input).value.WaitForInput?
  {
  }

  lemma ToolWaits(cfg: Config, turns: nat, pending: PendingToolCalls, events: seq<Event>, effects: Option<seq<SettledEffect>>)
    requires SettleTool(cfg, turns, pending, events, effects).Ok?
    ensures var d := SettleTool(cfg, turns, pending, events, effects).value;
      && !d.Complete? && effects.Some? && |effects.value| == 1
      && (d.WaitForInput? <==> effects.value[0].outcome.Success? && effects.value[0].outcome.output.result.closing.Some?)
  {
  }

  lemma CodeDoesNotFinish(cfg: Config, input: LoopInput)
    requires Decide(cfg, input).Ok? && input.checkpoint.Some? && IsCode(input.checkpoint.value)
    ensures !Decide(cfg, input).value.Complete?
    ensures Decide(cfg, input).value.WaitForInput? ==> input.checkpoint.value.AwaitingCodeCalls?
  {
  }

  /** An operation completes exactly when it has its answer, and waits for input only when
      a tool, or a call of a code run, closed the turn. */
  lemma CompletesExactly(cfg: Config, input: LoopInput)
    requires Decide(cfg, input).Ok?
    ensures Decide(cfg, input).value.Complete? <==> Finishes(cfg, input)
    ensures Decide(cfg, input).value.WaitForInput? ==>
      input.checkpoint.Some? && (input.checkpoint.value.AwaitingTool? || input.checkpoint.value.AwaitingCodeCalls?)
    ensures input.checkpoint.Some? && input.checkpoint.value.AwaitingTool? ==>
      (Decide(cfg, input).value.WaitForInput? <==> Closing(input))
  {
    match input.checkpoint
    case None => IdleFinishes(cfg, input);
    case Some(AwaitingModel(turns)) =>
      var outcome := input.effects.value[0].outcome;
      if outcome.Success? && outcome.output.Completed? {
        ModelFinishes(cfg, turns, outcome.output.response);
      }
    case Some(AwaitingTool(turns, pending)) => ToolWaits(cfg, turns, pending, input.events, input.effects);
    case Some(phase) =>
      if IsCode(phase) {
        CodeDoesNotFinish(cfg, input);
      } else if phase.AwaitingCompaction? || phase.AwaitingExplicitCompaction? {
        SummaryFinishes(cfg, input);
      }
  }
}
