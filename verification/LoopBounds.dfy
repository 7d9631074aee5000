/** Every operation of the loop ends: which transitions exist, an explicit linear
    bound for runs without compaction, and termination for all runs. */
module LoopBounds {
  import opened Base
  import opened PendingTools
  import opened CodeMode
  import opened LoopTypes
  import opened ContextInput
  import opened AgentLoop
  import opened LoopSession

  // The shape of the transition graph ---------------------------------------

  /** Events of the running conversation: no user message, marker or summary. */
  predicate Calm(kinds: seq<EventKind>) {
    forall i | 0 <= i < |kinds| :: (kinds[i].MessageEvent? && !kinds[i].message.User?) || kinds[i].CompactionResultEvent?
  }

  predicate AnswersCurrent(turns: nat, pending: PendingToolCalls, d: Decision) {
    && d.AppendAndContinue? && Calm(d.events)
    && d.phase == match pending.Advance()
         case None => NeedModel(turns)
         case Some(next) => NeedTool(turns, next)
  }

  predicate Ends(d: Decision) {
    (d.Complete? || d.Fail? || d.WaitForInput?) && d.phase.Terminal?
  }

  /** From a checkpoint the loop only moves along these edges. */
  predicate Moves(cfg: Config, checkpoint: Option<Phase>, d: Decision) {
    match checkpoint
    case None =>
      || (d.AppendAndContinue? && d.phase == NeedModel(0))
      || (d.InvokeEffects? && d.phase.AwaitingExplicitCompaction? && d.phase.attempt == 1)
      || (Ends(d) && Calm(d.events))
    case Some(NeedModel(turns)) =>
      || (d.InvokeEffects? && d.phase == AwaitingModel(turns + 1) && turns < TurnCap(cfg))
      || (d.InvokeEffects? && d.phase.AwaitingCompaction? && d.phase.turns == turns && d.phase.attempt == 1)
      || (Ends(d) && d.events == [])
    case Some(AwaitingModel(turns)) =>
      || (d.AppendAndContinue? && Calm(d.events) && d.phase == NeedModel(turns))
      || (d.AppendAndContinue? && Calm(d.events) && d.phase.NeedTool? && d.phase.turns == turns)
      || (d.InvokeEffects? && d.phase.AwaitingCompaction? && d.phase.turns == turns && d.phase.attempt == 1)
      || (Ends(d) && Calm(d.events))
    case Some(AwaitingCompaction(turns, plan, maxAttempts, attempt)) =>
      || (d.AppendAndContinue? && d.phase == NeedModel(turns) && |d.events| == 1 && d.events[0].CheckpointEvent?
          && d.events[0].coveredThrough == plan.coveredThrough && !Blank(d.events[0].summary))
      || (d.InvokeEffects? && d.phase == AwaitingCompaction(turns, plan, maxAttempts, attempt + 1) && attempt < maxAttempts)
      || (Ends(d) && d.events == [])
    case Some(AwaitingExplicitCompaction(plan, maxAttempts, attempt)) =>
      || (d.InvokeEffects? && d.phase == AwaitingExplicitCompaction(plan, maxAttempts, attempt + 1) && attempt < maxAttempts)
      || (Ends(d) && d.events == [])
      || (Ends(d) && |d.events| == 2 && d.events[0].CheckpointEvent? && d.events[1].CompactionResultEvent?
          && d.events[0].coveredThrough == plan.coveredThrough && !Blank(d.events[0].summary))
    case Some(NeedTool(turns, pending)) =>
      || AnswersCurrent(turns, pending, d)
      || (d.InvokeEffects? && d.phase == AwaitingTool(turns, pending))
      || (d.InvokeEffects? && d.phase.AwaitingCodeStep? && d.phase.turns == turns && d.phase.pending == pending
          && d.phase.run.wave == 0 && d.phase.run.totalCalls == 0)
    case Some(AwaitingTool(turns, pending)) =>
      AnswersCurrent(turns, pending, d) || (Ends(d) && Calm(d.events))
    case Some(AwaitingCodeStep(turns, pending, run, _)) =>
      || AnswersCurrent(turns, pending, d)
      || (Ends(d) && Calm(d.events))
      || (d.InvokeEffects? && d.phase.AwaitingCodeCalls? && d.phase.turns == turns && d.phase.pending == pending
          && run.AddWave(|d.effects|) == Ok(d.phase.run))
    case Some(AwaitingCodeCalls(turns, pending, run, _, _)) =>
      || AnswersCurrent(turns, pending, d)
      || (Ends(d) && Calm(d.events))
      || (d.InvokeEffects? && d.phase.AwaitingCodeStep? && d.phase.turns == turns && d.phase.pending == pending && d.phase.run == run)
    case Some(Terminal) => false
  }

  lemma InitialMoves(cfg: Config, input: LoopInput)
    requires DecideInitial(cfg, input).Ok?
    ensures Moves(cfg, None, DecideInitial(cfg, input).value)
  {
  }

  lemma RequestModelMoves(cfg: Config, turns: nat, input: LoopInput)
    requires RequestModel(cfg, turns, input).Ok?
    ensures Moves(cfg, Some(NeedModel(turns)), RequestModel(cfg, turns, input).value)
  {
  }

  lemma SettleModelMoves(cfg: Config, turns: nat, input: LoopInput)
    requires SettleModel(cfg, turns, input).Ok?
    ensures Moves(cfg, Some(AwaitingModel(turns)), SettleModel(cfg, turns, input).value)
  {
    var outcome := RequireEffect(input.effects).value.outcome;
    if outcome.Success? && outcome.output.Completed? {
      ClassifyMoves(cfg, turns, outcome.output.response);
    }
  }

  lemma ClassifyMoves(cfg: Config, turns: nat, response: ModelResponse)
    requires ClassifyResponse(cfg, turns, response).Ok?
    ensures Moves(cfg, Some(AwaitingModel(turns)), ClassifyResponse(cfg, turns, response).value)
  {
  }

  lemma SettleCompactionMoves(cfg: Config, phase: Phase, input: LoopInput)
    requires phase.AwaitingCompaction?
    requires SettleCompaction(cfg, phase.turns, phase.plan, phase.maxAttempts, phase.attempt, input).Ok?
    ensures Moves(cfg, Some(phase), SettleCompaction(cfg, phase.turns, phase.plan, phase.maxAttempts, phase.attempt, input).value)
  {
  }

  lemma SettleExplicitMoves(cfg: Config, phase: Phase, input: LoopInput)
    requires phase.AwaitingExplicitCompaction?
    requires SettleExplicitCompaction(cfg, phase.plan, phase.maxAttempts, phase.attempt, input).Ok?
    ensures Moves(cfg, Some(phase), SettleExplicitCompaction(cfg, phase.plan, phase.maxAttempts, phase.attempt, input).value)
  {
  }

  lemma RequestToolMoves(cfg: Config, turns: nat, pending: PendingToolCalls, input: LoopInput)
    requires RequestTool(cfg, turns, pending, input).Ok?
    ensures Moves(cfg, Some(NeedTool(turns, pending)), RequestTool(cfg, turns, pending, input).value)
  {
  }

  lemma SettleToolMoves(cfg: Config, turns: nat, pending: PendingToolCalls, input: LoopInput)
    requires SettleTool(cfg, turns, pending, input.events, input.effects).Ok?
    ensures Moves(cfg, Some(AwaitingTool(turns, pending)), SettleTool(cfg, turns, pending, input.events, input.effects).value)
  {
  }

  lemma SettleCodeStepMoves(cfg: Config, phase: Phase, input: LoopInput)
    requires phase.AwaitingCodeStep?
    requires SettleCodeStep(cfg, phase.turns, phase.pending, phase.run, phase.step, input.effects).Ok?
    ensures Moves(cfg, Some(phase), SettleCodeStep(cfg, phase.turns, phase.pending, phase.run, phase.step, input.effects).value)
  {
  }

  lemma SettleCodeCallsMoves(cfg: Config, phase: Phase, input: LoopInput)
    requires phase.AwaitingCodeCalls? && phase.calls.Valid()
    requires SettleCodeCalls(cfg, phase.turns, phase.pending, phase.run, phase.snapshot, phase.calls, input).Ok?
    ensures Moves(cfg, Some(phase),
      SettleCodeCalls(cfg, phase.turns, phase.pending, phase.run, phase.snapshot, phase.calls, input).value)
  {
    var reading := SettledWave(cfg, phase.run, phase.calls, input.effects).value;
    assert reading.WaveRead? || reading.WaveFailed? || reading.WaveTooLarge?;
  }

  lemma DecideMoves(cfg: Config, input: LoopInput)
    requires Decide(cfg, input).Ok?
    ensures Moves(cfg, input.checkpoint, Decide(cfg, input).value)
  {
    match input.checkpoint
    case None => InitialMoves(cfg, input);
    case Some(phase) =>
      match phase
      case NeedModel(turns) => RequestModelMoves(cfg, turns, input);
      case AwaitingModel(turns) => SettleModelMoves(cfg, turns, input);
      case AwaitingCompaction(_, _, _, _) => SettleCompactionMoves(cfg, phase, input);
      case AwaitingExplicitCompaction(_, _, _) => SettleExplicitMoves(cfg, phase, input);
      case NeedTool(turns, pending) => RequestToolMoves(cfg, turns, pending, input);
      case AwaitingTool(turns, pending) => SettleToolMoves(cfg, turns, pending, input);
      case AwaitingCodeStep(_, _, _, _) => SettleCodeStepMoves(cfg, phase, input);
      case AwaitingCodeCalls(_, _, _, _, _) => SettleCodeCallsMoves(cfg, phase, input);
      case Terminal =>
  }

  lemma CancelIsCalm(
    cfg: Config, operation: OperationId, events: seq<Event>, checkpoint: Option<Phase>, facts: Option<seq<EffectFact>>)
    requires CancelOperation(cfg, operation, events, checkpoint, facts).Ok?
    ensures Calm(CancelOperation(cfg, operation, events, checkpoint, facts).value)
  {
  }

  lemma AbandonIsCalm(cfg: Config, operation: OperationId, events: seq<Event>, phase: Phase, facts: seq<EffectFact>)
    requires AbandonUnknown(cfg, operation, events, phase, facts).Ok?
    ensures Calm(AbandonUnknown(cfg, operation, events, phase, facts).value)
  {
  }

  /** A committed step of a running operation commits a decision along an edge of
      the transition graph, or closes the operation with results only. */
  lemma StepCases(cfg: Config, s: Session, input: Input) returns (d: Option<Decision>, kinds: seq<EventKind>)
    requires s.active.Running? && Step(cfg, s, input).Some?
    ensures d.Some? ==> Moves(cfg, s.active.checkpoint, d.value) && Step(cfg, s, input) == Some(Commit(s, d.value))
    ensures d.Some? <==> input.Drive? || input.Settle?
    ensures input.Drive? ==> Decide(cfg, InputFor(s, None)) == Ok(d.value)
    ensures d.None? ==> Calm(kinds) && Step(cfg, s, input) == Some(Close(s, kinds))
  {
    var Running(operation, _, checkpoint, outstanding) := s.active;
    d, kinds := None, [];
    match input
    case Drive =>
      DecideMoves(cfg, InputFor(s, None));
      d := Some(Decide(cfg, InputFor(s, None)).value);
    case Settle(outcomes) =>
      var effects := Some(SettledEffects(outstanding, outcomes));
      DecideMoves(cfg, InputFor(s, effects));
      d := Some(Decide(cfg, InputFor(s, effects)).value);
    case Cancel(knowledge) =>
      var facts := if outstanding == [] then None else Some(Facts(outstanding, knowledge));
      CancelIsCalm(cfg, operation, s.events, checkpoint, facts);
      kinds := CancelOperation(cfg, operation, s.events, checkpoint, facts).value;
    case Abandon(knowledge) =>
      var facts := Facts(outstanding, knowledge);
      AbandonIsCalm(cfg, operation, s.events, checkpoint.value, facts);
      kinds := AbandonUnknown(cfg, operation, s.events, checkpoint.value, facts).value;
  }

  // An explicit bound -------------------------------------------------------

  /** Multiplication by counting, which keeps the arithmetic below linear. */
  function Times(n: nat, k: nat): nat {
    if n == 0 then 0 else Times(n - 1, k) + k
  }

  lemma {:induction false} TimesIsProduct(n: nat, k: nat)
    ensures Times(n, k) == n * k
  {
    if n > 0 {
      TimesIsProduct(n - 1, k);
    }
  }

  lemma {:induction false} TimesMonotone(n: nat, m: nat, k: nat)
    requires n <= m
    ensures Times(n, k) <= Times(m, k)
  {
    if n < m {
      TimesMonotone(n, m - 1, k);
    }
  }

  /** Steps one model turn can lead to: 66 per tool call (a tool effect, or a Code
      Mode run of 32 waves) and two for the model itself. */
  function TurnWeight(cfg: Config): nat {
    66 * cfg.maxToolCalls + 2
  }

  /** The most steps an operation without compaction can take. */
  function StepBound(cfg: Config): nat {
    Times(TurnCap(cfg), TurnWeight(cfg)) + 2
  }

  /** Steps still possible from a checkpoint, beyond its remaining turns. */
  function Local(cfg: Config, phase: Phase): nat {
    match phase
    case AwaitingModel(_) => TurnWeight(cfg)
    case NeedTool(_, pending) => 66 * |pending.All()| + 1
    case AwaitingTool(_, pending) => 66 * |pending.All()|
    case AwaitingCodeStep(_, pending, run, _) =>
      if run.wave <= MAX_WAVES then 66 * |pending.All()| - 2 * run.wave else 0
    case AwaitingCodeCalls(_, pending, run, _, _) =>
      if 1 <= run.wave <= MAX_WAVES then 66 * |pending.All()| - 2 * run.wave + 1 else 0
    case _ => 1
  }

  function Potential(cfg: Config, phase: Phase): nat
    requires TurnsOf(phase) <= TurnCap(cfg)
  {
    Times(TurnCap(cfg) - TurnsOf(phase), TurnWeight(cfg)) + Local(cfg, phase)
  }

  /** Tool effects the current turn may still request. */
  function ToolsLeft(cfg: Config, phase: Phase): nat {
    match phase
    case AwaitingModel(_) => cfg.maxToolCalls
    case AwaitingTool(_, pending) => |pending.All()| - 1
    case _ => |PendingOf(phase)|
  }

  /** Plugin calls of earlier waves of the running Code Mode call. */
  function WaveCalls(phase: Phase): nat {
    match phase
    case AwaitingCodeStep(_, _, run, _) => run.totalCalls
    case AwaitingCodeCalls(_, _, run, _, _) => run.totalCalls
    case _ => 0
  }

  function CallsLeft(cfg: Config, phase: Phase): nat {
    if phase.AwaitingModel? then cfg.maxToolCalls else |PendingOf(phase)|
  }

  ghost predicate WithinBudget(cfg: Config, phase: Phase, spent: Spent)
    requires TurnsOf(phase) <= TurnCap(cfg)
  {
    var turns, k := TurnsOf(phase), cfg.maxToolCalls;
    && spent.modelCalls == turns
    && spent.toolCalls + ToolsLeft(cfg, phase) <= Times(turns, k)
    && spent.nestedCalls + MAX_CALLS_PER_RUN * CallsLeft(cfg, phase) <= MAX_CALLS_PER_RUN * Times(turns, k) + WaveCalls(phase)
    && (!spent.compacted ==>
          && !phase.AwaitingCompaction? && !phase.AwaitingExplicitCompaction?
          && spent.steps + Potential(cfg, phase) <= StepBound(cfg))
  }

  ghost predicate SpentWithin(cfg: Config, spent: Spent) {
    var turns, k := TurnCap(cfg), cfg.maxToolCalls;
    && spent.modelCalls <= turns
    && spent.toolCalls <= Times(turns, k)
    && spent.nestedCalls <= MAX_CALLS_PER_RUN * Times(turns, k)
    && (!spent.compacted ==> spent.steps <= StepBound(cfg))
  }

  ghost predicate Budget(cfg: Config, s: Session) {
    match s.active
    case Idle => SpentWithin(cfg, s.spent)
    case Running(_, _, None, _) => s.spent == NOTHING_SPENT
    case Running(_, _, Some(phase), _) => TurnsOf(phase) <= TurnCap(cfg) && WithinBudget(cfg, phase, s.spent)
  }

  /** Whatever an operation has spent at a checkpoint leaves room for one more step. */
  lemma BudgetLeavesOneStep(cfg: Config, phase: Phase, spent: Spent)
    requires TurnsOf(phase) <= TurnCap(cfg) && WithinBudget(cfg, phase, spent)
    requires CheckpointRuns(phase)
    ensures SpentWithin(cfg, spent.(steps := spent.steps + 1))
  {
    TimesMonotone(TurnsOf(phase), TurnCap(cfg), cfg.maxToolCalls);
    assert Local(cfg, phase) >= 1;
  }

  /** Code Mode checkpoints stay within the wave and call budget. */
  predicate CheckpointRuns(phase: Phase) {
    match phase
    case AwaitingCodeStep(_, _, run, _) => run.WithinBudget()
    case AwaitingCodeCalls(_, _, run, _, _) => run.WithinBudget() && run.wave >= 1
    case Terminal => false
    case _ => true
  }

  lemma MoveKeepsBudget(cfg: Config, phase: Phase, spent: Spent, d: Decision)
    requires TurnsOf(phase) <= TurnCap(cfg) && WithinBudget(cfg, phase, spent)
    requires CheckpointRuns(phase) && |PendingOf(phase)| <= cfg.maxToolCalls
    requires Moves(cfg, Some(phase), d) && !Ends(d)
    requires TurnsOf(d.phase) <= TurnCap(cfg) && |PendingOf(d.phase)| <= cfg.maxToolCalls
    ensures d.InvokeEffects? ==> WithinBudget(cfg, d.phase, Charge(spent, d.phase, |d.effects|))
    ensures d.AppendAndContinue? ==> WithinBudget(cfg, d.phase, spent.(steps := spent.steps + 1))
  {
  }

  lemma FirstCommitKeepsBudget(cfg: Config, s: Session, d: Decision)
    requires s.active.Running? && s.active.checkpoint.None? && s.spent == NOTHING_SPENT && Moves(cfg, None, d)
    ensures Budget(cfg, Commit(s, d))
  {
  }

  lemma CommitKeepsBudget(cfg: Config, s: Session, d: Decision)
    requires s.active.Running? && Inv(cfg, s) && Budget(cfg, s)
    requires Moves(cfg, s.active.checkpoint, d) && Inv(cfg, Commit(s, d))
    ensures Budget(cfg, Commit(s, d))
  {
    match s.active.checkpoint
    case None => FirstCommitKeepsBudget(cfg, s, d);
    case Some(phase) =>
      if Ends(d) {
        BudgetLeavesOneStep(cfg, phase, s.spent);
      } else {
        MoveKeepsBudget(cfg, phase, s.spent, d);
      }
  }

  lemma CloseKeepsBudget(cfg: Config, s: Session, kinds: seq<EventKind>)
    requires s.active.Running? && Inv(cfg, s) && Budget(cfg, s)
    ensures Budget(cfg, Close(s, kinds))
  {
    if s.active.checkpoint.Some? {
      BudgetLeavesOneStep(cfg, s.active.checkpoint.value, s.spent);
    }
  }

  lemma StepKeepsBudget(cfg: Config, s: Session, input: Input)
    requires Inv(cfg, s) && Budget(cfg, s) && Step(cfg, s, input).Some?
    ensures Budget(cfg, Step(cfg, s, input).value)
  {
    if s.active.Running? {
      StepKeepsInv(cfg, s, input);
      var d, kinds := StepCases(cfg, s, input);
      if d.Some? {
        CommitKeepsBudget(cfg, s, d.value);
      } else {
        CloseKeepsBudget(cfg, s, kinds);
      }
    }
  }

  /** With turn limit L and per-turn call limit K, this is at most L model calls, L*K
      tool calls and 128*L*K plugin calls, and at most L*(66K+2)+2 steps without a
      compaction. */
  ghost predicate Bounded(cfg: Config, spent: Spent) {
    var turns, k := TurnCap(cfg), cfg.maxToolCalls;
    && spent.modelCalls <= turns
    && spent.toolCalls <= turns * k
    && spent.nestedCalls <= 128 * (turns * k)
    && (!spent.compacted ==> spent.steps <= turns * (66 * k + 2) + 2)
  }

  lemma BudgetIsBounded(cfg: Config, s: Session)
    requires Inv(cfg, s) && Budget(cfg, s)
    ensures Bounded(cfg, s.spent)
  {
    TimesIsProduct(TurnCap(cfg), cfg.maxToolCalls);
    TimesIsProduct(TurnCap(cfg), TurnWeight(cfg));
    if s.active.Running? && s.active.checkpoint.Some? {
      BudgetLeavesOneStep(cfg, s.active.checkpoint.value, s.spent);
    }
  }

  lemma {:induction false} RunKeepsBudget(configs: Configs, inputs: seq<Input>)
    requires Run(configs, inputs).Some?
    ensures Budget(Current(configs, Run(configs, inputs).value), Run(configs, inputs).value)
  {
    if inputs != [] {
      var before, last := inputs[..|inputs| - 1], inputs[|inputs| - 1];
      RunKeepsBudget(configs, before);
      RunKeepsInv(configs, before);
      var s := Run(configs, before).value;
      ConfigIsKept(configs, s, last);
      if s.active.Running? {
        StepKeepsBudget(ConfigFor(configs, s), s, last);
      }
    }
  }

  /** In every run, every operation stays within the limits of its own configuration. */
  lemma OperationsAreBounded(configs: Configs, inputs: seq<Input>)
    requires Run(configs, inputs).Some?
    ensures Bounded(Current(configs, Run(configs, inputs).value), Run(configs, inputs).value.spent)
  {
    RunKeepsInv(configs, inputs);
    RunKeepsBudget(configs, inputs);
    BudgetIsBounded(Current(configs, Run(configs, inputs).value), Run(configs, inputs).value);
  }
}
