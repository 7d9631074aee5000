/** No reachable session is stuck: it can always be driven on, an answer of the
    expected shape is always accepted, and it can always be cancelled. */
module LoopProgress {
  import opened Base
  import opened PendingTools
  import opened CodeMode
  import opened LoopTypes
  import opened ContextInput
  import opened ContextShows
  import opened AgentLoop
  import opened Transcript
  import opened LoopSession
  import opened LoopBounds
  import opened LoopJournal
  import opened LoopHistory

  // Matching a wave ---------------------------------------------------------

  ghost predicate WaveRequests(code: LoopCodeMode, run: CodeRun, calls: seq<CodePluginCall>, requests: seq<Request>) {
    && |requests| == |calls|
    && (forall i | 0 <= i < |calls| :: requests[i] == ToolCallRequest(NestedCall(code, run, calls[i])))
  }

  predicate Distinct(ids: seq<string>) {
    forall i, j | 0 <= i < j < |ids| :: ids[i] != ids[j]
  }

  predicate HaveIds(requests: seq<Request>, ids: seq<string>) {
    |requests| == |ids| && forall i | 0 <= i < |ids| :: requests[i].ToolCallRequest? && requests[i].call.id == ids[i]
  }

  /** Requests with distinct identities are found each at its own place. */
  lemma {:induction false} DistinctIdsAreIndexed(requests: seq<Request>, ids: seq<string>)
    requires HaveIds(requests, ids) && Distinct(ids)
    ensures ById(requests).Ok?
    ensures forall i | 0 <= i < |ids| :: ids[i] in ById(requests).value && ById(requests).value[ids[i]] == i
    ensures forall id | id in ById(requests).value :: id in ids
    decreases |ids|
  {
    if ids != [] {
      var last := |ids| - 1;
      DistinctIdsAreIndexed(requests[..last], ids[..last]);
      assert forall i | 0 <= i < last :: ids[..last][i] == ids[i];
      assert ids[last] !in ids[..last];
      assert ids == ids[..last] + [ids[last]];
    }
  }

  function WaveIds(run: CodeRun, calls: seq<CodePluginCall>): (ids: seq<string>)
    ensures |ids| == |calls| && forall i | 0 <= i < |ids| :: ids[i] == run.CallId(calls[i].callId)
  {
    seq(|calls|, i requires 0 <= i < |calls| => run.CallId(calls[i].callId))
  }

  lemma WaveIdsAreDistinct(run: CodeRun, batch: CodeCallBatch)
    requires batch.Valid()
    ensures Distinct(WaveIds(run, batch.Ordered()))
  {
    var calls := batch.Ordered();
    forall i, j | 0 <= i < j < |calls| ensures run.CallId(calls[i].callId) != run.CallId(calls[j].callId) {
      assert batch.ValidEntry(batch.order[i]) && batch.ValidEntry(batch.order[j]);
      DifferentCalls(run, calls[i].callId, calls[j].callId);
    }
  }

  lemma DifferentCalls(run: CodeRun, a: nat, b: nat)
    ensures run.CallId(a) == run.CallId(b) ==> a == b
  {
    if run.CallId(a) == run.CallId(b) {
      CallIdParts(run, run, a, b);
    }
  }

  /** The effects persisted for a wave always match it again, each at its own place. */
  lemma WaveMatches(code: LoopCodeMode, run: CodeRun, batch: CodeCallBatch, bindings: seq<string>, requests: seq<Request>)
    requires batch.Valid() && |bindings| == |requests|
    requires WaveRequests(code, run, batch.Ordered(), requests)
    requires forall i | 0 <= i < |bindings| :: bindings[i] == code.nestedBinding
    ensures MatchWave(code, run, batch, bindings, requests) == ById(requests) && ById(requests).Ok?
    ensures Places(run, batch.Ordered(), ById(requests).value)
  {
    var calls := batch.Ordered();
    WaveIdsAreDistinct(run, batch);
    DistinctIdsAreIndexed(requests, WaveIds(run, calls));
    forall i | 0 <= i < |calls|
      ensures EffectMatches(code, NestedCall(code, run, calls[i]), ById(requests).value, bindings, requests)
      ensures ById(requests).value[WaveIds(run, calls)[i]] == i
    {
      assert WaveIds(run, calls)[i] == NestedCall(code, run, calls[i]).id;
    }
  }

  /** Each call of the wave is found at its own place. */
  predicate Places(run: CodeRun, calls: seq<CodePluginCall>, byId: map<string, nat>) {
    forall i | 0 <= i < |calls| :: WaveIds(run, calls)[i] in byId && byId[WaveIds(run, calls)[i]] == i
  }

  /** Some effect has exactly the binding and request the loop persists for the call. */
  ghost predicate HasEffect(code: LoopCodeMode, expected: ToolCall, bindings: seq<string>, requests: seq<Request>)
    requires |bindings| == |requests|
  {
    exists k :: 0 <= k < |requests| && bindings[k] == code.nestedBinding && requests[k] == ToolCallRequest(expected)
  }

  lemma {:induction false} DistinctPlaces(places: seq<nat>, n: nat) returns (covered: set<nat>)
    requires forall i | 0 <= i < |places| :: places[i] < n
    requires forall i, j | 0 <= i < j < |places| :: places[i] != places[j]
    ensures |covered| == |places| && forall k :: k in covered <==> k in places
  {
    if places == [] {
      covered := {};
    } else {
      var last := |places| - 1;
      var before := DistinctPlaces(places[..last], n);
      assert places == places[..last] + [places[last]];
      assert places[last] !in before;
      covered := before + {places[last]};
    }
  }

  lemma {:induction false} NumbersBelow(n: nat) returns (all: set<nat>)
    ensures |all| == n && forall k: nat :: k in all <==> k < n
  {
    if n == 0 {
      all := {};
    } else {
      var before := NumbersBelow(n - 1);
      all := before + {n - 1};
    }
  }

  /** As many distinct places as there are cover all. */
  lemma PlacesCover(places: seq<nat>, n: nat, k: nat)
    requires |places| == n && k < n
    requires forall i | 0 <= i < |places| :: places[i] < n
    requires forall i, j | 0 <= i < j < |places| :: places[i] != places[j]
    ensures k in places
  {
    var covered := DistinctPlaces(places, n);
    var all := NumbersBelow(n);
    SubsetOfEqualSize(covered, all);
  }

  lemma {:induction false} ChoosePlaces(
    code: LoopCodeMode, run: CodeRun, calls: seq<CodePluginCall>, bindings: seq<string>, requests: seq<Request>)
    returns (places: seq<nat>)
    requires |bindings| == |requests|
    requires forall i | 0 <= i < |calls| :: HasEffect(code, NestedCall(code, run, calls[i]), bindings, requests)
    ensures |places| == |calls|
    ensures forall i | 0 <= i < |calls| ::
      && places[i] < |requests| && bindings[places[i]] == code.nestedBinding
      && requests[places[i]] == ToolCallRequest(NestedCall(code, run, calls[i]))
  {
    if calls == [] {
      places := [];
    } else {
      var last := |calls| - 1;
      var before := ChoosePlaces(code, run, calls[..last], bindings, requests);
      assert HasEffect(code, NestedCall(code, run, calls[last]), bindings, requests);
      var k :| 0 <= k < |requests| && bindings[k] == code.nestedBinding
        && requests[k] == ToolCallRequest(NestedCall(code, run, calls[last]));
      places := before + [k];
    }
  }

  function IdOf(request: Request): string {
    if request.ToolCallRequest? then request.call.id else ""
  }

  function IdsOf(requests: seq<Request>): (ids: seq<string>)
    ensures |ids| == |requests| && forall k | 0 <= k < |ids| :: ids[k] == IdOf(requests[k])
  {
    seq(|requests|, k requires 0 <= k < |requests| => IdOf(requests[k]))
  }

  /** Where each call's effect is, and that there is nothing else. */
  ghost predicate Placed(
    code: LoopCodeMode, run: CodeRun, calls: seq<CodePluginCall>, bindings: seq<string>, requests: seq<Request>, places: seq<nat>)
    requires |bindings| == |requests|
  {
    && |places| == |calls| == |requests|
    && (forall i | 0 <= i < |calls| ::
          && places[i] < |requests| && bindings[places[i]] == code.nestedBinding
          && requests[places[i]] == ToolCallRequest(NestedCall(code, run, calls[i])))
  }

  lemma PlaceOf(
    code: LoopCodeMode, run: CodeRun, batch: CodeCallBatch, bindings: seq<string>, requests: seq<Request>, places: seq<nat>, k: nat)
    returns (i: nat)
    requires batch.Valid() && |bindings| == |requests| && Placed(code, run, batch.Ordered(), bindings, requests, places)
    requires k < |requests|
    ensures i < |places| && places[i] == k && requests[k].ToolCallRequest?
    ensures IdOf(requests[k]) == WaveIds(run, batch.Ordered())[i]
  {
    var ids := WaveIds(run, batch.Ordered());
    WaveIdsAreDistinct(run, batch);
    forall i, j | 0 <= i < j < |places| ensures places[i] != places[j] {
      assert ids[i] != ids[j];
    }
    PlacesCover(places, |requests|, k);
    i :| 0 <= i < |places| && places[i] == k;
  }

  lemma PlacedIsDistinct(
    code: LoopCodeMode, run: CodeRun, batch: CodeCallBatch, bindings: seq<string>, requests: seq<Request>, places: seq<nat>)
    requires batch.Valid() && |bindings| == |requests| && Placed(code, run, batch.Ordered(), bindings, requests, places)
    ensures HaveIds(requests, IdsOf(requests)) && Distinct(IdsOf(requests))
  {
    forall k | 0 <= k < |requests| ensures requests[k].ToolCallRequest? {
      var _ := PlaceOf(code, run, batch, bindings, requests, places, k);
    }
    WaveIdsAreDistinct(run, batch);
    forall k, l | 0 <= k < l < |requests| ensures IdsOf(requests)[k] != IdsOf(requests)[l] {
      var i := PlaceOf(code, run, batch, bindings, requests, places, k);
      var j := PlaceOf(code, run, batch, bindings, requests, places, l);
    }
  }

  lemma PlacedMatches(
    code: LoopCodeMode, run: CodeRun, batch: CodeCallBatch, bindings: seq<string>, requests: seq<Request>, places: seq<nat>)
    requires batch.Valid() && |bindings| == |requests| && Placed(code, run, batch.Ordered(), bindings, requests, places)
    ensures MatchWave(code, run, batch, bindings, requests).Ok?
  {
    PlacedIsDistinct(code, run, batch, bindings, requests, places);
    DistinctIdsAreIndexed(requests, IdsOf(requests));
    var calls, byId := batch.Ordered(), ById(requests).value;
    forall i | 0 <= i < |calls| ensures EffectMatches(code, NestedCall(code, run, calls[i]), byId, bindings, requests) {
      assert IdsOf(requests)[places[i]] == NestedCall(code, run, calls[i]).id;
    }
  }

  /** Effects are accepted for a wave exactly when there are as many as calls and each
      call's own effect is among them, in whatever order they arrive. */
  lemma WaveMatchesExactly(code: LoopCodeMode, run: CodeRun, batch: CodeCallBatch, bindings: seq<string>, requests: seq<Request>)
    requires batch.Valid() && |bindings| == |requests|
    ensures MatchWave(code, run, batch, bindings, requests).Ok? <==>
      && |requests| == |batch.Ordered()|
      && forall i | 0 <= i < |batch.Ordered()| :: HasEffect(code, NestedCall(code, run, batch.Ordered()[i]), bindings, requests)
  {
    var calls, found := batch.Ordered(), MatchWave(code, run, batch, bindings, requests);
    if found.Ok? {
      forall i | 0 <= i < |calls| ensures HasEffect(code, NestedCall(code, run, calls[i]), bindings, requests) {
        var k := found.value[NestedCall(code, run, calls[i]).id];
        assert EffectMatches(code, NestedCall(code, run, calls[i]), found.value, bindings, requests);
      }
    }
    if |requests| == |calls| && forall i | 0 <= i < |calls| :: HasEffect(code, NestedCall(code, run, calls[i]), bindings, requests) {
      var places := ChoosePlaces(code, run, calls, bindings, requests);
      PlacedMatches(code, run, batch, bindings, requests, places);
    }
  }

  // Reading a wave ----------------------------------------------------------

  predicate AnswersCall(code: LoopCodeMode, run: CodeRun, call: CodePluginCall, outcome: EffectOutcome) {
    && outcome.Success? && outcome.output.ToolOutput?
    && outcome.output.result.callId == run.CallId(call.callId) && outcome.output.result.name == code.nestedName
  }

  /** The closings of answered calls, in call order. */
  function ClosingsOf(results: seq<ToolResult>): seq<Closing> {
    if results == [] then []
    else
      var last := results[|results| - 1];
      ClosingsOf(results[..|results| - 1]) + (if last.closing.Some? then [last.closing.value] else [])
  }

  /** One call's answer and what is handed on of it. */
  ghost predicate ReadsOne(
    code: LoopCodeMode, run: CodeRun, call: CodePluginCall, outcomes: map<string, EffectOutcome>, result: ToolResult,
    reading: WaveReading)
    requires reading.WaveRead?
  {
    var identity, key := run.CallId(call.callId), Decimal(call.callId);
    && identity in outcomes && AnswersCall(code, run, call, outcomes[identity]) && result == outcomes[identity].output.result
    && key in reading.results && reading.results[key] == code.pythonValue(result)
    && key in reading.seen && reading.seen[key] == (result.content, result.isError)
  }

  ghost predicate ReadsAs(
    code: LoopCodeMode, run: CodeRun, calls: seq<CodePluginCall>, outcomes: map<string, EffectOutcome>,
    results: seq<ToolResult>, reading: WaveReading)
  {
    && |results| == |calls| && reading.WaveRead? && reading.closings == ClosingsOf(results)
    && (forall i | 0 <= i < |calls| :: ReadsOne(code, run, calls[i], outcomes, results[i], reading))
  }

  lemma ReadStep(code: LoopCodeMode, run: CodeRun, calls: seq<CodePluginCall>, outcomes: map<string, EffectOutcome>)
    requires calls != [] && ReadWave(code, run, calls, outcomes).Ok? && ReadWave(code, run, calls, outcomes).value.WaveRead?
    ensures var call, before := calls[|calls| - 1], ReadWave(code, run, calls[..|calls| - 1], outcomes);
      var after, identity, key := ReadWave(code, run, calls, outcomes).value, run.CallId(call.callId), Decimal(call.callId);
      && before.Ok? && before.value.WaveRead?
      && identity in outcomes && AnswersCall(code, run, call, outcomes[identity])
      && var result := outcomes[identity].output.result;
      && after.results == before.value.results[key := code.pythonValue(result)]
      && after.seen == before.value.seen[key := (result.content, result.isError)]
      && after.closings == before.value.closings + (if result.closing.Some? then [result.closing.value] else [])
  {
  }

  lemma ReadsStill(
    code: LoopCodeMode, run: CodeRun, call: CodePluginCall, other: CodePluginCall, outcomes: map<string, EffectOutcome>,
    result: ToolResult, before: WaveReading, after: WaveReading, value: string, seen: (seq<Block>, bool))
    requires before.WaveRead? && after.WaveRead? && ReadsOne(code, run, call, outcomes, result, before)
    requires call.callId != other.callId
    requires after.results == before.results[Decimal(other.callId) := value]
    requires after.seen == before.seen[Decimal(other.callId) := seen]
    ensures ReadsOne(code, run, call, outcomes, result, after)
  {
    DecimalParses(call.callId);
    DecimalParses(other.callId);
  }

  /** A wave that is read hands every call the value of its own answer, and collects
      what closes the turn in call order. */
  lemma {:induction false} WaveIsReadByCall(
    code: LoopCodeMode, run: CodeRun, calls: seq<CodePluginCall>, outcomes: map<string, EffectOutcome>)
    returns (results: seq<ToolResult>)
    requires forall i, j | 0 <= i < j < |calls| :: calls[i].callId != calls[j].callId
    requires ReadWave(code, run, calls, outcomes).Ok? && ReadWave(code, run, calls, outcomes).value.WaveRead?
    ensures ReadsAs(code, run, calls, outcomes, results, ReadWave(code, run, calls, outcomes).value)
  {
    if calls == [] {
      results := [];
    } else {
      var last := |calls| - 1;
      ReadStep(code, run, calls, outcomes);
      var first := WaveIsReadByCall(code, run, calls[..last], outcomes);
      var before, after := ReadWave(code, run, calls[..last], outcomes).value, ReadWave(code, run, calls, outcomes).value;
      var result := outcomes[run.CallId(calls[last].callId)].output.result;
      results := first + [result];
      assert results[..last] == first;
      forall i | 0 <= i < last ensures ReadsOne(code, run, calls[i], outcomes, results[i], after) {
        assert ReadsOne(code, run, calls[..last][i], outcomes, first[i], before);
        ReadsStill(code, run, calls[i], calls[last], outcomes, results[i], before, after,
          code.pythonValue(result), (result.content, result.isError));
      }
      assert ReadsOne(code, run, calls[last], outcomes, result, after);
    }
  }

  // Cancelling --------------------------------------------------------------

  /** A tool answer that arrived before the cancellation carries its call's identity. */
  predicate CancelReadable(phase: Phase, knowledge: seq<Knowledge>) {
    phase.AwaitingTool? && |knowledge| == 1 && knowledge[0].Answered? ==>
      SettledToolResult(phase.pending.current, knowledge[0].outcome).Ok?
  }

  lemma FactsMatch(outstanding: seq<EffectRequest>, knowledge: seq<Knowledge>)
    requires |outstanding| == |knowledge|
    ensures forall i | 0 <= i < |outstanding| ::
      && FactBindings(Facts(outstanding, knowledge))[i] == outstanding[i].binding
      && FactRequests(Facts(outstanding, knowledge))[i] == outstanding[i].request
  {
  }

  lemma PhaseCancels(
    cfg: Config, operation: OperationId, events: seq<Event>, phase: Phase, outstanding: seq<EffectRequest>,
    knowledge: seq<Knowledge>)
    requires Resumable(cfg, operation, events, phase, outstanding) && |knowledge| == |outstanding|
    requires CancelReadable(phase, knowledge)
    ensures var facts := if outstanding == [] then None else Some(Facts(outstanding, knowledge));
      CancelOperation(cfg, operation, events, Some(phase), facts).Ok?
  {
    FactsMatch(outstanding, knowledge);
    if phase.AwaitingCodeCalls? {
      var facts := Facts(outstanding, knowledge);
      WaveMatches(cfg.codeMode.value, phase.run, phase.calls, FactBindings(facts), FactRequests(facts));
    }
  }

  /** Every running operation can be cancelled at every point, whatever is known of
      its effects; only an answered tool call must carry that call's identity. */
  lemma AlwaysCancellable(configs: Configs, inputs: seq<Input>, knowledge: seq<Knowledge>)
    requires Run(configs, inputs).Some?
    requires var active := Run(configs, inputs).value.active;
      && active.Running? && |knowledge| == |active.outstanding|
      && (active.checkpoint.Some? ==> CancelReadable(active.checkpoint.value, knowledge))
    ensures var s := Run(configs, inputs).value; Step(ConfigFor(configs, s), s, Cancel(knowledge)).Some?
  {
    RunKeepsInv(configs, inputs);
    var s := Run(configs, inputs).value;
    var cfg := ConfigFor(configs, s);
    match s.active.checkpoint
    case None =>
    case Some(phase) => PhaseCancels(cfg, s.active.operation, s.events, phase, s.active.outstanding, knowledge);
  }

  // Driving and settling ----------------------------------------------------

  /** Normal preparation always yields something, and plans keep their promises. */
  ghost predicate SoundPreparation(cfg: Config, context: Context) {
    var prepared := cfg.strategy.prepare(context);
    && prepared.Ok?
    && (prepared.value.CompactFirst? ==>
          PlanValid(context.(compactionRequired := false), prepared.value.plan, cfg.strategy.safeCut))
  }

  ghost predicate SoundRequest(cfg: Config, context: Context) {
    var explicit := cfg.strategy.prepareExplicit(context);
    && explicit.Ok? && (explicit.value.CompactNow? ==> PlanValid(context, explicit.value.plan, cfg.strategy.idleCut))
  }

  /** The strategy serves compactions that a user asks for. */
  ghost predicate CompactsOnRequest(cfg: Config) {
    && (forall context :: SoundRequest(cfg, context))
    && (forall context, plan, summary :: cfg.strategy.estimateAfter(context, plan, summary).Ok?)
  }

  ghost predicate RendersReceipts(cfg: Config) {
    forall messages :: cfg.strategy.receipt(messages).Ok?
  }

  /** The strategy can do what this session asks of it: receipts only matter where the
      journal holds one, and compaction on request only for a command that requests it. */
  ghost predicate Serves(cfg: Config, s: Session) {
    && (forall context :: SoundPreparation(cfg, context))
    && (forall plan, response :: cfg.strategy.validateSummary(plan, response).Ok? ==>
          !Blank(cfg.strategy.validateSummary(plan, response).value))
    && (RendersReceipts(cfg) || NoReceipts(Kinds(s.events)))
    && (CompactsOnRequest(cfg) || (s.active.Running? ==> !s.active.command.Compact?))
  }

  /** A journal without receipts needs none rendered. */
  lemma UnreceiptedBuilds(cfg: Config, events: seq<Event>, started: OperationId, operation: OperationId, required: bool)
    requires Readable(events, started) && NoReceipts(Kinds(events))
    ensures BuildInput(cfg, operation, events, required).Ok?
  {
    var scan := ScanAll(events).value;
    ScanWithoutReceipts(events);
    ReplaceNothing(scan.entries, operation, cfg.strategy.receipt, scan.checkpoint);
  }

  lemma JournalBuilds(cfg: Config, s: Session, required: bool)
    requires s.active.Running? && Serves(cfg, s) && Readable(s.events, Started(s))
    ensures BuildInput(cfg, s.active.operation, s.events, required).Ok?
  {
    if RendersReceipts(cfg) {
      ReadableBuilds(cfg, s.events, Started(s), s.active.operation, required);
    } else {
      UnreceiptedBuilds(cfg, s.events, Started(s), s.active.operation, required);
    }
  }

  lemma ContextPrepares(cfg: Config, s: Session, required: bool)
    requires s.active.Running? && Serves(cfg, s) && Readable(s.events, Started(s))
    ensures PrepareContext(cfg, s.active.operation, s.events, required).Ok?
  {
    JournalBuilds(cfg, s, required);
    JournalBuilds(cfg, s, false);
    var context := BuildInput(cfg, s.active.operation, s.events, required).value;
    assert SoundPreparation(cfg, context);
    assert BuildInput(cfg, s.active.operation, s.events, false).value == context.(compactionRequired := false);
  }

  /** Whenever nothing is outstanding, the loop decides; the one exception is a
      session without a turn limit that has used every 32-bit turn number. */
  lemma AlwaysDrivable(configs: Configs, inputs: seq<Input>)
    requires Run(configs, inputs).Some?
    requires var s := Run(configs, inputs).value;
      s.active.Running? && s.active.outstanding == [] && Serves(ConfigFor(configs, s), s)
    ensures var s := Run(configs, inputs).value;
      var cfg := ConfigFor(configs, s);
      || Step(cfg, s, Drive).Some?
      || (s.active.checkpoint == Some(NeedModel(U32_MAX)) && (cfg.maxModelTurns.Some? ==> cfg.maxModelTurns.value > U32_MAX))
  {
    RunKeepsInv(configs, inputs);
    RunKeepsReadable(configs, inputs);
    var s := Run(configs, inputs).value;
    var cfg, input := ConfigFor(configs, s), InputFor(s, None);
    match s.active.checkpoint
    case None =>
      JournalBuilds(cfg, s, false);
      InitialDecides(cfg, s);
    case Some(phase) =>
      ContextPrepares(cfg, s, false);
      DriveDecides(cfg, input, phase);
  }

  lemma InitialDecides(cfg: Config, s: Session)
    requires s.active.Running? && Serves(cfg, s) && BuildInput(cfg, s.active.operation, s.events, false).Ok?
    ensures DecideInitial(cfg, InputFor(s, None)).Ok?
  {
    if s.active.command.Compact? {
      assert SoundRequest(cfg, BuildInput(cfg, s.active.operation, s.events, false).value);
    }
  }

  /** The built-in strategy that shows everything: it renders no receipts and refuses
      to compact. */
  ghost predicate ShowsEverything(cfg: Config) {
    && FullHistory(cfg)
    && (forall messages :: cfg.strategy.receipt(messages).Err?)
    && (forall context :: cfg.strategy.prepareExplicit(context).Err?)
    && (forall plan, response :: cfg.strategy.validateSummary(plan, response).Err?)
  }

  lemma EverythingServes(cfg: Config, s: Session)
    requires ShowsEverything(cfg) && NoReceipts(Kinds(s.events)) && s.active.Running?
    ensures Serves(cfg, s) <==> !s.active.command.Compact?
  {
    forall context ensures SoundPreparation(cfg, context) {
    }
    assert !SoundRequest(cfg, Context(0, [], None, "", [], false));
  }

  lemma EverythingRefuses(cfg: Config, s: Session)
    requires ShowsEverything(cfg) && s.active.Running? && s.active.command.Compact? && s.active.checkpoint.None?
    ensures Step(cfg, s, Drive).None?
  {
    assert RequestExplicitCompaction(cfg, InputFor(s, None)).Err?;
  }

  /** Without receipted prompts in the session, that strategy serves exactly the
      operations that are not compactions; and driving a compaction is refused. */
  lemma FullHistoryServes(configs: Configs, inputs: seq<Input>)
    requires Run(configs, inputs).Some? && Unreceipting(inputs) && Run(configs, inputs).value.active.Running?
    requires ShowsEverything(ConfigFor(configs, Run(configs, inputs).value))
    ensures var s := Run(configs, inputs).value; Serves(ConfigFor(configs, s), s) <==> !s.active.command.Compact?
    ensures var s := Run(configs, inputs).value;
      s.active.command.Compact? && s.active.checkpoint.None? ==> Step(ConfigFor(configs, s), s, Drive).None?
  {
    RunWritesNoReceipt(configs, inputs);
    var s := Run(configs, inputs).value;
    EverythingServes(ConfigFor(configs, s), s);
    if s.active.command.Compact? && s.active.checkpoint.None? {
      EverythingRefuses(ConfigFor(configs, s), s);
    }
  }

  lemma DriveDecides(cfg: Config, input: LoopInput, phase: Phase)
    requires input.checkpoint == Some(phase) && input.effects.None? && CheckpointValid(cfg, input.operation, phase)
    requires phase.NeedModel? || phase.NeedTool?
    requires PrepareContext(cfg, input.operation, input.events, false).Ok? && TurnsOf(phase) <= TurnCap(cfg)
    ensures || Decide(cfg, input).Ok?
            || (phase == NeedModel(U32_MAX) && (cfg.maxModelTurns.Some? ==> cfg.maxModelTurns.value > U32_MAX))
  {
  }

  /** An answer that closes the turn does not close it with a blank message. */
  predicate ClosesWithText(result: ToolResult) {
    result.closing.Some? ==> !Blank(result.closing.value.message)
  }

  /** What an adapter may answer for the effects of a checkpoint. */
  ghost predicate Fits(cfg: Config, phase: Phase, outcomes: seq<EffectOutcome>) {
    match phase
    case AwaitingTool(_, pending) =>
      && |outcomes| == 1
      && (outcomes[0].Failure? || (outcomes[0].Success? && FitsCall(outcomes[0].output, pending.current.id, pending.current.name)))
    case AwaitingCodeStep(_, _, _, _) =>
      |outcomes| == 1 && (outcomes[0].Failure? || (outcomes[0].Success? && outcomes[0].output.StepOutput?))
    case AwaitingCodeCalls(_, _, run, _, calls) =>
      && cfg.codeMode.Some? && calls.Valid() && |outcomes| == |calls.order|
      && (forall i | 0 <= i < |outcomes| :: FitsNested(cfg.codeMode.value, run, calls.Ordered()[i], outcomes[i]))
    case _ =>
      && |outcomes| == 1
      && (outcomes[0].Failure? || (outcomes[0].Success? && (outcomes[0].output.Completed? || outcomes[0].output.ContextWindowExceeded?)))
  }

  predicate FitsCall(output: Output, id: string, name: string) {
    output.ToolOutput? && output.result.callId == id && output.result.name == name && ClosesWithText(output.result)
  }

  predicate FitsNested(code: LoopCodeMode, run: CodeRun, call: CodePluginCall, outcome: EffectOutcome) {
    outcome.Failure? || (outcome.Success? && FitsCall(outcome.output, run.CallId(call.callId), code.nestedName))
  }

  predicate AllText(closings: seq<Closing>) {
    forall i | 0 <= i < |closings| :: !Blank(closings[i].message)
  }

  lemma {:induction false} WaveReads(
    code: LoopCodeMode, run: CodeRun, calls: seq<CodePluginCall>, outcomes: map<string, EffectOutcome>)
    requires forall i | 0 <= i < |calls| ::
      run.CallId(calls[i].callId) in outcomes && FitsNested(code, run, calls[i], outcomes[run.CallId(calls[i].callId)])
    ensures ReadWave(code, run, calls, outcomes).Ok?
    ensures ReadWave(code, run, calls, outcomes).value.WaveRead? ==> AllText(ReadWave(code, run, calls, outcomes).value.closings)
  {
    if calls != [] {
      WaveReads(code, run, calls[..|calls| - 1], outcomes);
    }
  }

  lemma BlankPrefix(a: string, b: string)
    requires !Blank(a)
    ensures !Blank(a + b)
  {
    var i :| 0 <= i < |a| && !IsSpace(a[i]);
    assert (a + b)[i] == a[i];
  }

  lemma JoinedText(closings: seq<Closing>)
    requires closings != [] && AllText(closings)
    ensures !Blank(JoinMessages(closings))
  {
    if |closings| > 1 {
      BlankPrefix(closings[0].message, "\n\n" + JoinMessages(closings[1..]));
      assert closings[0].message + "\n\n" + JoinMessages(closings[1..])
          == closings[0].message + ("\n\n" + JoinMessages(closings[1..]));
    }
  }

  /** While a call is pending, the journal holds the assistant message that made it. */
  lemma {:induction false} CallerIsKnown(events: seq<Event>, i: nat)
    requires i < |events| && events[i].kind.MessageEvent? && events[i].kind.message.Assistant?
    ensures CallerMetadata(events).Ok?
    decreases |events|
  {
    var last := |events| - 1;
    if i < last {
      CallerIsKnown(events[..last], i);
    }
  }

  lemma {:induction false} MessageHasEvent(events: seq<Event>, k: nat) returns (i: nat)
    requires k < |Conversation(events)|
    ensures i < |events| && events[i].kind == MessageEvent(Conversation(events)[k])
  {
    i := KindOfMessage(Kinds(events), k);
  }

  lemma {:induction false} KindOfMessage(kinds: seq<EventKind>, k: nat) returns (i: nat)
    requires k < |MessagesIn(kinds)|
    ensures i < |kinds| && kinds[i] == MessageEvent(MessagesIn(kinds)[k])
  {
    if kinds[0].MessageEvent? {
      if k == 0 {
        i := 0;
      } else {
        i := KindOfMessage(kinds[1..], k - 1);
        i := i + 1;
      }
    } else {
      i := KindOfMessage(kinds[1..], k);
      i := i + 1;
    }
  }

  lemma PendingHasCaller(events: seq<Event>, pending: seq<ToolCall>)
    requires Owed(Conversation(events)) == Some(pending) && pending != []
    ensures CallerMetadata(events).Ok?
  {
    var k := LastAssistant(Conversation(events));
    var i := MessageHasEvent(events, k);
    CallerIsKnown(events, i);
  }

  lemma ToolAnswerDecides(cfg: Config, phase: Phase, events: seq<Event>, effects: seq<SettledEffect>)
    requires phase.AwaitingTool? && |effects| == 1 && CallerMetadata(events).Ok?
    requires Outstanding(cfg, 0, events, phase, [EffectRequest(effects[0].binding, effects[0].request)])
    requires Fits(cfg, phase, [effects[0].outcome])
    ensures SettleTool(cfg, phase.turns, phase.pending, events, Some(effects)).Ok?
  {
  }

  ghost predicate WaveSettled(code: LoopCodeMode, run: CodeRun, calls: seq<CodePluginCall>, effects: seq<SettledEffect>) {
    && WaveRequests(code, run, calls, Requests(effects))
    && (forall i | 0 <= i < |effects| ::
          effects[i].binding == code.nestedBinding && FitsNested(code, run, calls[i], effects[i].outcome))
  }

  lemma WaveSettles(cfg: Config, run: CodeRun, batch: CodeCallBatch, effects: seq<SettledEffect>)
    requires cfg.codeMode.Some? && batch.Valid() && WaveSettled(cfg.codeMode.value, run, batch.Ordered(), effects)
    ensures SettledWave(cfg, run, batch, Some(effects)).Ok?
    ensures var reading := SettledWave(cfg, run, batch, Some(effects)).value; reading.WaveRead? ==> AllText(reading.closings)
  {
    var code, calls := cfg.codeMode.value, batch.Ordered();
    WaveMatches(code, run, batch, Bindings(effects), Requests(effects));
    var byId := ById(Requests(effects)).value;
    var settled := map id | id in byId && byId[id] < |effects| :: effects[byId[id]].outcome;
    forall i | 0 <= i < |calls|
      ensures run.CallId(calls[i].callId) in settled && settled[run.CallId(calls[i].callId)] == effects[i].outcome
    {
      assert byId[WaveIds(run, calls)[i]] == i;
    }
    WaveReads(code, run, calls, settled);
  }

  lemma WaveAnswerDecides(cfg: Config, phase: Phase, input: LoopInput, effects: seq<SettledEffect>)
    requires phase.AwaitingCodeCalls? && input.effects == Some(effects) && CallerMetadata(input.events).Ok?
    requires cfg.codeMode.Some? && phase.calls.Valid()
    requires WaveSettled(cfg.codeMode.value, phase.run, phase.calls.Ordered(), effects)
    ensures SettleCodeCalls(cfg, phase.turns, phase.pending, phase.run, phase.snapshot, phase.calls, input).Ok?
  {
    WaveSettles(cfg, phase.run, phase.calls, effects);
    var reading := SettledWave(cfg, phase.run, phase.calls, Some(effects)).value;
    if reading.WaveRead? && reading.closings != [] {
      JoinedText(reading.closings);
    }
  }

  lemma SummaryAnswerDecides(cfg: Config, s: Session, plan: CompactionPlan, input: LoopInput, effects: seq<SettledEffect>)
    requires Serves(cfg, s) && input.effects == Some(effects) && |effects| == 1
    requires effects[0].binding == COMPACTION_BINDING && effects[0].request == ModelCall(plan.summaryRequest)
    requires Fits(cfg, NeedModel(0), [effects[0].outcome])
    ensures SettledSummary(cfg, plan, input).Ok?
    ensures SettledSummary(cfg, plan, input).value.Accepted? ==>
      CheckpointEventFor(plan, SettledSummary(cfg, plan, input).value.summary).Ok?
  {
  }

  lemma ModelAnswerDecides(cfg: Config, turns: nat, input: LoopInput, effects: seq<SettledEffect>)
    requires input.effects == Some(effects) && |effects| == 1
    requires NormalModelRequest(cfg, input.operation, input.events).Ok?
    requires effects[0].binding == MODEL_BINDING
    requires effects[0].request == ModelCall(NormalModelRequest(cfg, input.operation, input.events).value)
    requires PrepareContext(cfg, input.operation, input.events, true).Ok?
    requires Fits(cfg, NeedModel(0), [effects[0].outcome])
    ensures SettleModel(cfg, turns, input).Ok?
  {
    var outcome := effects[0].outcome;
    if outcome.Success? && outcome.output.Completed? {
      var calls := Calls(outcome.output.response.content);
      if calls != [] {
        assert [calls[0]] + calls[1..] == calls;
      }
    }
  }

  /** Only a command that asks for it is ever in an explicit compaction. */
  predicate CompactsAsAsked(active: Active) {
    active.Running? && active.checkpoint.Some? && active.checkpoint.value.AwaitingExplicitCompaction? ==> active.command.Compact?
  }

  lemma StepCompactsAsAsked(cfg: Config, s: Session, input: Input)
    requires Inv(cfg, s) && CompactsAsAsked(s.active) && Step(cfg, s, input).Some?
    ensures CompactsAsAsked(Step(cfg, s, input).value.active)
  {
    if s.active.Running? {
      var d, kinds := StepCases(cfg, s, input);
      if d.Some? && s.active.checkpoint.None? && d.value.InvokeEffects? {
        InitialIsAsked(cfg, InputFor(s, None));
      }
    }
  }

  lemma InitialIsAsked(cfg: Config, input: LoopInput)
    requires DecideInitial(cfg, input).Ok? && DecideInitial(cfg, input).value.InvokeEffects?
    ensures input.command.Compact?
  {
  }

  lemma {:induction false} RunCompactsAsAsked(configs: Configs, inputs: seq<Input>)
    requires Run(configs, inputs).Some?
    ensures CompactsAsAsked(Run(configs, inputs).value.active)
  {
    if inputs != [] {
      var before, last := inputs[..|inputs| - 1], inputs[|inputs| - 1];
      RunCompactsAsAsked(configs, before);
      RunKeepsInv(configs, before);
      var s := Run(configs, before).value;
      ConfigIsKept(configs, s, last);
      StepCompactsAsAsked(ConfigFor(configs, s), s, last);
    }
  }

  /** Every answer of the expected shape is accepted in every reachable session. */
  lemma AnswersAreAccepted(configs: Configs, inputs: seq<Input>, outcomes: seq<EffectOutcome>)
    requires Run(configs, inputs).Some?
    requires var s := Run(configs, inputs).value;
      && s.active.Running? && s.active.outstanding != [] && s.active.checkpoint.Some?
      && Serves(ConfigFor(configs, s), s) && Fits(ConfigFor(configs, s), s.active.checkpoint.value, outcomes)
    ensures var s := Run(configs, inputs).value; Step(ConfigFor(configs, s), s, Settle(outcomes)).Some?
  {
    RunKeepsInv(configs, inputs);
    RunKeepsReadable(configs, inputs);
    RunCompactsAsAsked(configs, inputs);
    var s := Run(configs, inputs).value;
    SessionAccepts(ConfigFor(configs, s), s, s.active.checkpoint.value, outcomes);
  }

  /** A running session and an answer of the expected shape for its effects. */
  ghost predicate Answerable(cfg: Config, s: Session, phase: Phase, outcomes: seq<EffectOutcome>) {
    && Serves(cfg, s) && Inv(cfg, s) && Readable(s.events, Started(s)) && CompactsAsAsked(s.active)
    && s.active.Running? && s.active.checkpoint == Some(phase) && s.active.outstanding != []
    && Fits(cfg, phase, outcomes) && |s.active.outstanding| == |outcomes|
  }

  function AnswerInput(s: Session, outcomes: seq<EffectOutcome>): LoopInput
    requires s.active.Running? && |s.active.outstanding| == |outcomes|
  {
    InputFor(s, Some(SettledEffects(s.active.outstanding, outcomes)))
  }

  lemma ModelSessionAccepts(cfg: Config, s: Session, phase: Phase, outcomes: seq<EffectOutcome>)
    requires Answerable(cfg, s, phase, outcomes) && phase.AwaitingModel?
    ensures Decide(cfg, AnswerInput(s, outcomes)).Ok?
  {
    ContextPrepares(cfg, s, true);
    ModelAnswerDecides(cfg, phase.turns, AnswerInput(s, outcomes), SettledEffects(s.active.outstanding, outcomes));
  }

  lemma SummarySessionAccepts(cfg: Config, s: Session, phase: Phase, outcomes: seq<EffectOutcome>)
    requires Answerable(cfg, s, phase, outcomes) && (phase.AwaitingCompaction? || phase.AwaitingExplicitCompaction?)
    ensures Decide(cfg, AnswerInput(s, outcomes)).Ok?
  {
    SummaryAnswerDecides(cfg, s, phase.plan, AnswerInput(s, outcomes), SettledEffects(s.active.outstanding, outcomes));
  }

  lemma ToolSessionAccepts(cfg: Config, s: Session, phase: Phase, outcomes: seq<EffectOutcome>)
    requires Answerable(cfg, s, phase, outcomes) && (phase.AwaitingTool? || phase.AwaitingCodeStep?)
    ensures Decide(cfg, AnswerInput(s, outcomes)).Ok?
  {
    PendingHasCaller(s.events, PendingOf(phase));
    if phase.AwaitingTool? {
      ToolAnswerDecides(cfg, phase, s.events, SettledEffects(s.active.outstanding, outcomes));
    }
  }

  lemma WaveSessionAccepts(cfg: Config, s: Session, phase: Phase, outcomes: seq<EffectOutcome>)
    requires Answerable(cfg, s, phase, outcomes) && phase.AwaitingCodeCalls?
    ensures Decide(cfg, AnswerInput(s, outcomes)).Ok?
  {
    PendingHasCaller(s.events, PendingOf(phase));
    WaveAnswerDecides(cfg, phase, AnswerInput(s, outcomes), SettledEffects(s.active.outstanding, outcomes));
  }

  lemma FitsOutstanding(cfg: Config, s: Session, phase: Phase, outcomes: seq<EffectOutcome>)
    requires Inv(cfg, s) && s.active.Running? && s.active.checkpoint == Some(phase) && s.active.outstanding != []
    requires Fits(cfg, phase, outcomes)
    ensures |s.active.outstanding| == |outcomes| && !phase.NeedModel? && !phase.NeedTool? && !phase.Terminal?
  {
  }

  lemma SessionAccepts(cfg: Config, s: Session, phase: Phase, outcomes: seq<EffectOutcome>)
    requires Serves(cfg, s) && Inv(cfg, s) && Readable(s.events, Started(s)) && CompactsAsAsked(s.active)
    requires s.active.Running? && s.active.checkpoint == Some(phase) && s.active.outstanding != []
    requires Fits(cfg, phase, outcomes)
    ensures |s.active.outstanding| == |outcomes| && Decide(cfg, AnswerInput(s, outcomes)).Ok?
  {
    FitsOutstanding(cfg, s, phase, outcomes);
    if phase.AwaitingModel? {
      ModelSessionAccepts(cfg, s, phase, outcomes);
    } else if phase.AwaitingCompaction? || phase.AwaitingExplicitCompaction? {
      SummarySessionAccepts(cfg, s, phase, outcomes);
    } else if phase.AwaitingCodeCalls? {
      WaveSessionAccepts(cfg, s, phase, outcomes);
    } else {
      ToolSessionAccepts(cfg, s, phase, outcomes);
    }
  }
}
