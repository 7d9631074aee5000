/** What the journal of every run says about calls and results, and how the
    requests shown to a model relate to it and to each other. */
module LoopHistory {
  import opened Base
  import opened PendingTools
  import opened LoopTypes
  import opened ContextInput
  import opened ContextShows
  import opened AgentLoop
  import opened Transcript
  import opened LoopSession
  import opened LoopBounds
  import opened LoopJournal

  // Calls and results -------------------------------------------------------

  predicate AsksModel(active: Active) {
    active.Running? && active.checkpoint.Some? && active.checkpoint.value.AwaitingModel?
  }

  /** In every run, every assistant message is paired with its results, up to the
      pending queue; at a model request, and after the end of every operation,
      each of its calls has its result. */
  lemma CallsAndResultsPair(configs: Configs, inputs: seq<Input>, i: nat)
    requires Run(configs, inputs).Some?
    requires var messages := Conversation(Run(configs, inputs).value.events); i < |messages| && messages[i].Assistant?
    ensures var s := Run(configs, inputs).value; Paired(Conversation(s.events), Awaited(s.active), i)
    ensures var s := Run(configs, inputs).value;
      s.active.Idle? || AsksModel(s.active) ==>
        i + 1 + |Calls(Conversation(s.events)[i].content)| <= |Conversation(s.events)|
  {
    var s := Run(configs, inputs).value;
    var messages := Conversation(s.events);
    RunKeepsInv(configs, inputs);
    assert Owed(messages) == Some(Awaited(s.active));
    EveryCallIsAnswered(messages, Awaited(s.active), i);
  }

  /** And no result is in the journal that the assistant message before it did not call for. */
  lemma ResultsWereCalled(configs: Configs, inputs: seq<Input>, j: nat)
    requires Run(configs, inputs).Some?
    requires var messages := Conversation(Run(configs, inputs).value.events); j < |messages| && messages[j].Tool?
    ensures var messages := Conversation(Run(configs, inputs).value.events);
      exists i, k ::
        && 0 <= i < j && messages[i].Assistant? && k == j - i - 1
        && k < |Calls(messages[i].content)| && Answers(Calls(messages[i].content)[k], messages[j])
  {
    RunKeepsInv(configs, inputs);
    EveryResultWasCalled(Conversation(Run(configs, inputs).value.events), j);
  }

  // Requests ----------------------------------------------------------------

  /** Whenever a model effect is outstanding, preparing the request again from the
      journal gives exactly the persisted one, so its answer is never refused for
      a changed identity. */
  lemma RequestIsRecomputed(configs: Configs, inputs: seq<Input>)
    requires Run(configs, inputs).Some?
    requires AsksModel(Run(configs, inputs).value.active)
    ensures var s := Run(configs, inputs).value;
      && |s.active.outstanding| == 1
      && s.active.outstanding[0].binding == MODEL_BINDING
      && s.active.outstanding[0].request.ModelCall?
      && NormalModelRequest(Current(configs, s), s.active.operation, s.events) == Ok(s.active.outstanding[0].request.model)
  {
    RunKeepsInv(configs, inputs);
  }

  /** The full-history strategy: the model sees every entry. */
  ghost predicate FullHistory(cfg: Config) {
    forall context :: cfg.strategy.prepare(context) == Ok(ModelView(Messages(context.entries)))
  }

  predicate NoReceipts(kinds: seq<EventKind>) {
    forall i | 0 <= i < |kinds| :: !kinds[i].ReceiptedEvent?
  }

  /** What full history shows of a scanned journal. */
  function Shown(scan: Scan): seq<Message> {
    Visible(Messages(AnnotateAll(scan.entries, scan.annotations)))
  }

  lemma {:induction false} ScanWithoutReceipts(events: seq<Event>)
    requires ScanAll(events).Ok? && NoReceipts(Kinds(events))
    ensures ScanAll(events).value.receipted == {}
  {
    if events != [] {
      var before := events[..|events| - 1];
      assert forall i | 0 <= i < |before| :: Kinds(before)[i] == Kinds(events)[i];
      ScanWithoutReceipts(before);
      assert Kinds(events)[|events| - 1] == events[|events| - 1].kind;
    }
  }

  lemma FullRequest(cfg: Config, operation: OperationId, events: seq<Event>)
    requires FullHistory(cfg) && ScanAll(events).Ok? && NoReceipts(Kinds(events))
    requires NormalModelRequest(cfg, operation, events).Ok?
    ensures NormalModelRequest(cfg, operation, events).value
         == ModelRequest(cfg.systemPrompt, Shown(ScanAll(events).value), cfg.Specs())
  {
    ScanWithoutReceipts(events);
    ReplaceNothing(ScanAll(events).value.entries, operation, cfg.strategy.receipt, ScanAll(events).value.checkpoint);
  }

  lemma ShownGrows(a: Scan, b: Scan, length: nat, from: OperationId)
    requires ScanFits(a, length, from) && Kept(a, b, from)
    ensures Shown(a) <= Shown(b)
  {
    var x, y := AnnotateAll(a.entries, a.annotations), AnnotateAll(b.entries, b.annotations);
    forall i | 0 <= i < |x| ensures x[i] == y[i] {
      assert a.entries[i] == b.entries[i];
    }
    assert forall i | 0 <= i < |x| :: Visible(Messages(x))[i] == Visible(Messages(y))[i];
  }

  predicate Unreceipted(active: Active) {
    active.Running? && active.checkpoint.None? && active.command.Prompt? ==> active.command.observation != Receipted
  }

  /** Requests form a chain of prefixes that ends in what the journal shows now. */
  ghost predicate Chained(s: Session) {
    && NoReceipts(Kinds(s.events)) && Unreceipted(s.active)
    && ScanAll(s.events).Ok?
    && (forall i | 0 <= i < |s.requests| :: s.requests[i].request.messages <= Shown(ScanAll(s.events).value))
    && (forall i, j | 0 <= i <= j < |s.requests| :: s.requests[i].request.messages <= s.requests[j].request.messages)
  }

  lemma MovesWriteNoReceipt(cfg: Config, phase: Phase, d: Decision)
    requires Moves(cfg, Some(phase), d) && !d.InvokeEffects?
    ensures NoReceipts(d.events)
  {
  }

  lemma InitialWritesNoReceipt(cfg: Config, input: LoopInput)
    requires DecideInitial(cfg, input).Ok? && !DecideInitial(cfg, input).value.InvokeEffects?
    requires input.command.Prompt? ==> input.command.observation != Receipted
    ensures NoReceipts(DecideInitial(cfg, input).value.events)
  {
  }

  lemma AppendKeepsNoReceipts(events: seq<Event>, operation: OperationId, kinds: seq<EventKind>)
    requires NoReceipts(Kinds(events)) && NoReceipts(kinds)
    ensures NoReceipts(Kinds(Append(events, operation, kinds)))
  {
    KindsAppend(events, operation, kinds);
  }

  lemma DecisionWritesNoReceipt(cfg: Config, s: Session, d: Decision)
    requires s.active.Running? && NoReceipts(Kinds(s.events)) && Unreceipted(s.active)
    requires Moves(cfg, s.active.checkpoint, d)
    requires s.active.checkpoint.None? ==> Decide(cfg, InputFor(s, None)) == Ok(d)
    ensures NoReceipts(Kinds(Commit(s, d).events))
  {
    if !d.InvokeEffects? {
      if s.active.checkpoint.Some? {
        MovesWriteNoReceipt(cfg, s.active.checkpoint.value, d);
      } else {
        InitialWritesNoReceipt(cfg, InputFor(s, None));
      }
      AppendKeepsNoReceipts(s.events, s.active.operation, d.events);
    }
  }

  lemma StepWritesNoReceipt(cfg: Config, s: Session, input: Input)
    requires NoReceipts(Kinds(s.events)) && Unreceipted(s.active) && Step(cfg, s, input).Some?
    requires s.active.Running? && s.active.checkpoint.None? ==> s.active.outstanding == []
    requires input.Submit? && input.command.Prompt? ==> input.command.observation != Receipted
    ensures var s' := Step(cfg, s, input).value; NoReceipts(Kinds(s'.events)) && Unreceipted(s'.active)
  {
    if s.active.Running? {
      var d, kinds := StepCases(cfg, s, input);
      if d.Some? {
        DecisionWritesNoReceipt(cfg, s, d.value);
      } else {
        AppendKeepsNoReceipts(s.events, s.active.operation, kinds);
      }
    }
  }

  lemma KindsAppend(events: seq<Event>, operation: OperationId, kinds: seq<EventKind>)
    ensures Kinds(Append(events, operation, kinds)) == Kinds(events) + kinds
  {
    var appended := Append(events, operation, kinds);
    assert forall i | 0 <= i < |events| :: appended[i] == appended[..|events|][i];
    assert forall i | |events| <= i < |appended| :: appended[i] == appended[|events| + (i - |events|)];
  }

  /** A step adds at most the request of the checkpoint it reaches. */
  lemma StepRequests(cfg: Config, s: Session, input: Input)
    requires Inv(cfg, s) && Step(cfg, s, input).Some?
    ensures var s' := Step(cfg, s, input).value;
      || s'.requests == s.requests
      || (exists request ::
            && s'.requests == s.requests + [Persisted(s.active.operation, request)] && s'.events == s.events
            && NormalModelRequest(cfg, s.active.operation, s.events) == Ok(request))
  {
    StepKeepsInv(cfg, s, input);
    if s.active.Running? {
      var d, kinds := StepCases(cfg, s, input);
    }
  }

  lemma StepKeepsChain(cfg: Config, s: Session, input: Input)
    requires FullHistory(cfg) && Inv(cfg, s) && Readable(s.events, Started(s)) && Chained(s)
    requires Step(cfg, s, input).Some?
    requires input.Submit? && input.command.Prompt? ==> input.command.observation != Receipted
    ensures Chained(Step(cfg, s, input).value)
  {
    var s' := Step(cfg, s, input).value;
    StepWritesNoReceipt(cfg, s, input);
    StepKeepsReadable(cfg, s, input);
    ShownGrows(ScanAll(s.events).value, ScanAll(s'.events).value, |s.events|, Started(s));
    StepRequests(cfg, s, input);
    if s'.requests != s.requests {
      FullRequest(cfg, s.active.operation, s.events);
    }
  }

  /** No prompt of the session asks for a receipt. */
  predicate Unreceipting(inputs: seq<Input>) {
    forall i | 0 <= i < |inputs| ::
      inputs[i].Submit? && inputs[i].command.Prompt? ==> inputs[i].command.observation != Receipted
  }

  lemma {:induction false} RunWritesNoReceipt(configs: Configs, inputs: seq<Input>)
    requires Unreceipting(inputs) && Run(configs, inputs).Some?
    ensures var s := Run(configs, inputs).value; NoReceipts(Kinds(s.events)) && Unreceipted(s.active)
  {
    if inputs != [] {
      var before, last := inputs[..|inputs| - 1], inputs[|inputs| - 1];
      RunWritesNoReceipt(configs, before);
      RunKeepsInv(configs, before);
      var s := Run(configs, before).value;
      StepWritesNoReceipt(ConfigFor(configs, s), s, last);
    }
  }

  lemma {:induction false} RunKeepsChain(configs: Configs, inputs: seq<Input>)
    requires (forall operation :: FullHistory(configs(operation))) && Unreceipting(inputs) && Run(configs, inputs).Some?
    ensures Chained(Run(configs, inputs).value)
  {
    if inputs != [] {
      var before, last := inputs[..|inputs| - 1], inputs[|inputs| - 1];
      RunKeepsChain(configs, before);
      RunKeepsInv(configs, before);
      RunKeepsReadable(configs, before);
      var s := Run(configs, before).value;
      ConfigIsKept(configs, s, last);
      StepKeepsChain(ConfigFor(configs, s), s, last);
    }
  }

  /** Under full history and without receipted prompts, the messages of every model
      request of a session are a prefix of those of every later one: over retries,
      cancellations, explicit summaries and any number of operations, each with its
      own configuration, what a model was shown once is never reordered, edited or
      dropped. */
  lemma RequestsOnlyGrow(configs: Configs, inputs: seq<Input>, i: nat, j: nat)
    requires (forall operation :: FullHistory(configs(operation))) && Unreceipting(inputs) && Run(configs, inputs).Some?
    requires i <= j < |Run(configs, inputs).value.requests|
    ensures var requests := Run(configs, inputs).value.requests; requests[i].request.messages <= requests[j].request.messages
  {
    RunKeepsChain(configs, inputs);
  }

  /** What a model is told of a journalled message: a user message with the operation's
      annotation behind its own blocks, a tool result without its details, and every
      other message as it was written. */
  ghost predicate ToldAs(events: seq<Event>, event: Event, told: Message)
    requires event.kind.MessageEvent?
  {
    match event.kind.message
    case Tool(result) => told == Tool(result.(details := None))
    case _ => ShownAs(events, event, told)
  }

  lemma NoReceiptIsAsked(events: seq<Event>, operation: OperationId)
    requires NoReceipts(Kinds(events))
    ensures !Receipts(events, operation)
  {
    forall j | 0 <= j < |events| ensures !IsReceipt(events[j], operation) {
      assert Kinds(events)[j] == events[j].kind;
    }
  }

  /** Full history tells the whole journal. */
  lemma FullRequestTells(cfg: Config, operation: OperationId, events: seq<Event>)
    requires FullHistory(cfg) && NoReceipts(Kinds(events)) && NormalModelRequest(cfg, operation, events).Ok?
    ensures var messages := NormalModelRequest(cfg, operation, events).value.messages;
      && |messages| == |Written(events)|
      && (forall i | 0 <= i < |messages| :: ToldAs(events, Written(events)[i], messages[i]))
  {
    forall other ensures !Receipts(events, other) {
      NoReceiptIsAsked(events, other);
    }
    ContextShowsEveryMessage(operation, events, cfg.strategy.receipt, cfg.systemPrompt, cfg.Specs(), false);
    var context := ContextOf(operation, events, cfg.strategy.receipt, cfg.systemPrompt, cfg.Specs(), false).value;
    var messages := NormalModelRequest(cfg, operation, events).value.messages;
    forall i | 0 <= i < |messages| ensures ToldAs(events, Written(events)[i], messages[i]) {
      assert Keeps(events, Written(events)[i], context.entries[i]);
    }
  }

  /** In every run, under full history and without receipted prompts, the model is asked
      with every message of the journal, one for one and in order: its own blocks first,
      and nothing behind them but the operation's annotation. */
  lemma RequestsTellTheJournal(configs: Configs, inputs: seq<Input>)
    requires Unreceipting(inputs) && Run(configs, inputs).Some?
    requires var s := Run(configs, inputs).value; AsksModel(s.active) && FullHistory(Current(configs, s))
    ensures var s := Run(configs, inputs).value;
      && |s.active.outstanding| == 1 && s.active.outstanding[0].request.ModelCall?
      && var messages := s.active.outstanding[0].request.model.messages;
      && |messages| == |Written(s.events)|
      && (forall i | 0 <= i < |messages| :: ToldAs(s.events, Written(s.events)[i], messages[i]))
  {
    var s := Run(configs, inputs).value;
    RequestIsRecomputed(configs, inputs);
    RunWritesNoReceipt(configs, inputs);
    FullRequestTells(Current(configs, s), s.active.operation, s.events);
  }

  // Prompt and tools --------------------------------------------------------

  /** The request has the system prompt and the tools of a configuration. */
  predicate MadeUnder(cfg: Config, request: ModelRequest) {
    request.systemPrompt == cfg.systemPrompt && request.tools == cfg.Specs()
  }

  /** Every request was made under the configuration of the operation that made it. */
  predicate AllMadeUnder(configs: Configs, s: Session) {
    forall i | 0 <= i < |s.requests| ::
      s.requests[i].operation < s.nextOperation && MadeUnder(configs(s.requests[i].operation), s.requests[i].request)
  }

  lemma StepMakesRequests(configs: Configs, s: Session, input: Input)
    requires Inv(ConfigFor(configs, s), s) && Step(ConfigFor(configs, s), s, input).Some? && AllMadeUnder(configs, s)
    ensures AllMadeUnder(configs, Step(ConfigFor(configs, s), s, input).value)
  {
    StepRequests(ConfigFor(configs, s), s, input);
  }

  /** Whatever the strategies are, every request of a session carries the system prompt
      and the tools of the operation that made it, never a mixture. */
  lemma {:induction false} RequestsAreUnmixed(configs: Configs, inputs: seq<Input>)
    requires Run(configs, inputs).Some?
    ensures AllMadeUnder(configs, Run(configs, inputs).value)
  {
    if inputs != [] {
      var before, last := inputs[..|inputs| - 1], inputs[|inputs| - 1];
      RequestsAreUnmixed(configs, before);
      RunKeepsInv(configs, before);
      var s := Run(configs, before).value;
      ConfigIsKept(configs, s, last);
      StepMakesRequests(configs, s, last);
    }
  }
}
