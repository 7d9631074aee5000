/** One model invocation: what an observer sees of every provider stream and every
    moment of cancellation, and what the effect adapter reports. */
module Sampling {
  import opened Base

  // Vocabulary --------------------------------------------------------------

  datatype Response = Response(content: seq<string>, usage: nat)

  datatype ErrorKind =
    | Authentication | RateLimited | InvalidRequest | ContextWindowExceeded | Network | Timeout
    | ProviderUnavailable | Protocol | StreamInterrupted | CancelledKind | UnknownKind

  datatype Inference = KnownNotStarted | Unknown

  datatype ModelError = ModelError(kind: ErrorKind, outcome: Inference)

  datatype ModelEvent =
    | ProviderRequest
    | ProviderResponse(status: nat)
    | ContentDelta(index: nat, delta: string)
    | RetryAttempt(attempt: nat)
    | Completed(response: Response)

  datatype Item = Event(event: ModelEvent) | Error(error: ModelError)

  datatype FailureCode = OfKind(kind: ErrorKind) | Incomplete

  datatype AgentEvent =
    | RequestStart
    | ProviderRequested
    | ProviderResponded(status: nat)
    | RequestChunk(index: nat, delta: string)
    | MessageStart
    | MessageUpdate(index: nat, delta: string)
    | Retried(attempt: nat)
    | RequestEnd(response: Response)
    | MessageAbort
    | RequestFailed(code: FailureCode, outcomeUnknown: bool)

  datatype SamplingError = Cancelled | Model(error: ModelError) | IncompleteStream

  type Sampled = Result<Response, SamplingError>

  /** When cancellation becomes visible: 0 before the invocation, 2k + 1 before item
      `k` is awaited, 2k + 2 when item `k` has arrived. */
  type Moment = Option<nat>

  predicate CancelledBy(moment: Moment, time: nat) {
    moment.Some? && moment.value <= time
  }

  // The observer ------------------------------------------------------------

  datatype Observed = Observed(started: bool, traffic: bool, emitted: seq<AgentEvent>)

  function Emit(o: Observed, event: AgentEvent): Observed {
    o.(emitted := o.emitted + [event])
  }

  function Recorded(o: Observed, event: ModelEvent): Observed {
    match event
    case ProviderRequest => Emit(o.(traffic := true), ProviderRequested)
    case ProviderResponse(status) => Emit(o.(traffic := true), ProviderResponded(status))
    case ContentDelta(index, delta) =>
      var chunk := Emit(o, RequestChunk(index, delta));
      var begun := if o.started then chunk else Emit(chunk, MessageStart).(started := true);
      Emit(begun, MessageUpdate(index, delta))
    case RetryAttempt(attempt) => Emit(o.(traffic := true), Retried(attempt))
    case Completed(response) => Emit(o, RequestEnd(response))
  }

  function Failed(o: Observed, code: FailureCode, outcomeUnknown: bool): Observed {
    Emit(if o.started then Emit(o, MessageAbort) else o, RequestFailed(code, outcomeUnknown))
  }

  /** Once a message started, the provider has generated something. */
  function Weakened(o: Observed, error: ModelError): ModelError {
    if o.started then error.(outcome := Unknown) else error
  }

  class Observer {
    var messageStarted: bool
    var providerTraffic: bool
    var emitted: seq<AgentEvent>

    function State(): Observed
      reads this
    {
      Observed(messageStarted, providerTraffic, emitted)
    }

    constructor ()
      ensures State() == Observed(false, false, [RequestStart])
    {
      messageStarted, providerTraffic, emitted := false, false, [RequestStart];
    }

    method Record(event: ModelEvent) returns (response: Option<Response>)
      modifies this
      ensures State() == Recorded(old(State()), event)
      ensures response == if event.Completed? then Some(event.response) else None
    {
      match event
      case ProviderRequest =>
        providerTraffic := true;
        emitted := emitted + [ProviderRequested];
        return None;
      case ProviderResponse(status) =>
        providerTraffic := true;
        emitted := emitted + [ProviderResponded(status)];
        return None;
      case ContentDelta(index, delta) =>
        emitted := emitted + [RequestChunk(index, delta)];
        if !messageStarted {
          emitted := emitted + [MessageStart];
          messageStarted := true;
        }
        emitted := emitted + [MessageUpdate(index, delta)];
        return None;
      case RetryAttempt(attempt) =>
        providerTraffic := true;
        emitted := emitted + [Retried(attempt)];
        return None;
      case Completed(done) =>
        emitted := emitted + [RequestEnd(done)];
        return Some(done);
    }

    method Fail(code: FailureCode, outcomeUnknown: bool)
      modifies this`emitted
      ensures State() == Failed(old(State()), code, outcomeUnknown)
    {
      if messageStarted {
        emitted := emitted + [MessageAbort];
      }
      emitted := emitted + [RequestFailed(code, outcomeUnknown)];
    }

    method ModelFailure(error: ModelError) returns (reported: ModelError)
      modifies this`emitted
      ensures reported == Weakened(old(State()), error)
      ensures State() == Failed(old(State()), OfKind(error.kind), reported.outcome.Unknown?)
    {
      reported := error;
      if messageStarted && reported.outcome.KnownNotStarted? {
        reported := reported.(outcome := Unknown);
      }
      Fail(OfKind(reported.kind), reported.outcome.Unknown?);
    }
  }

  // Sampling ----------------------------------------------------------------

  /** Reads the rest of a cancelled stream: the last completion and the last error. */
  function Drained(o: Observed, items: seq<Item>): (Observed, Option<Response>, Option<ModelError>) {
    if items == [] then (o, None, None)
    else
      var (before, completed, error) := Drained(o, items[..|items| - 1]);
      match items[|items| - 1]
      case Error(e) => (before, completed, Some(e))
      case Event(event) => (Recorded(before, event), if event.Completed? then Some(event.response) else completed, error)
  }

  function AfterDrain(o: Observed, completed: Option<Response>, error: Option<ModelError>): (Observed, Sampled) {
    if completed.Some? then (o, Ok(completed.value))
    else if o.traffic || o.started then
      match error
      case Some(e) => (Failed(o, OfKind(e.kind), Weakened(o, e).outcome.Unknown?), Err(Model(Weakened(o, e))))
      case None => (Failed(o, OfKind(CancelledKind), true), Err(Model(ModelError(CancelledKind, Unknown))))
    else (Failed(o, OfKind(CancelledKind), false), Err(Cancelled))
  }

  function DrainAndEnd(o: Observed, items: seq<Item>): (Observed, Sampled) {
    var (after, completed, error) := Drained(o, items);
    AfterDrain(after, completed, error)
  }

  /** What sampling does from item `k` on. */
  function SampledFrom(o: Observed, items: seq<Item>, k: nat, moment: Moment): (Observed, Sampled)
    requires k <= |items|
    decreases |items| - k
  {
    if CancelledBy(moment, 2 * k + 1) then DrainAndEnd(o, items[k..])
    else if k == |items| then (Failed(o, Incomplete, true), Err(IncompleteStream))
    else match items[k]
      case Event(Completed(response)) => (Recorded(o, Completed(response)), Ok(response))
      case Event(event) => SampledFrom(Recorded(o, event), items, k + 1, moment)
      case Error(error) =>
        if CancelledBy(moment, 2 * k + 2) && !o.traffic && !o.started then
          (Failed(o, OfKind(CancelledKind), false), Err(Cancelled))
        else
          (Failed(o, OfKind(error.kind), Weakened(o, error).outcome.Unknown?), Err(Model(Weakened(o, error))))
  }

  const BEGUN := Observed(false, false, [RequestStart])

  function SampleAll(items: seq<Item>, moment: Moment): (Observed, Sampled) {
    if CancelledBy(moment, 0) then (Observed(false, false, []), Err(Cancelled))
    else SampledFrom(BEGUN, items, 0, moment)
  }

  method DrainCancelledStream(observer: Observer, items: seq<Item>) returns (sampled: Sampled)
    modifies observer
    ensures (observer.State(), sampled) == DrainAndEnd(old(observer.State()), items)
  {
    var completed: Option<Response> := None;
    var adapterError: Option<ModelError> := None;
    for i := 0 to |items|
      invariant Drained(old(observer.State()), items[..i]) == (observer.State(), completed, adapterError)
    {
      assert items[..i + 1][..i] == items[..i];
      match items[i] {
        case Error(error) => adapterError := Some(error);
        case Event(event) =>
          var response := observer.Record(event);
          if response.Some? {
            completed := response;
          }
      }
    }
    assert items[..|items|] == items;
    if completed.Some? {
      return Ok(completed.value);
    }
    if observer.providerTraffic || observer.messageStarted {
      if adapterError.Some? {
        var reported := observer.ModelFailure(adapterError.value);
        return Err(Model(reported));
      }
      observer.Fail(OfKind(CancelledKind), true);
      return Err(Model(ModelError(CancelledKind, Unknown)));
    }
    observer.Fail(OfKind(CancelledKind), false);
    return Err(Cancelled);
  }

  /** The sampling loop; the log it returns is everything that was emitted. */
  method SampleModel(items: seq<Item>, moment: Moment) returns (sampled: Sampled, log: seq<AgentEvent>)
    ensures var (o, result) := SampleAll(items, moment); sampled == result && log == o.emitted
  {
    if CancelledBy(moment, 0) {
      return Err(Cancelled), [];
    }
    var observer := new Observer();
    var k := 0;
    while k < |items|
      invariant k <= |items|
      invariant SampleAll(items, moment) == SampledFrom(observer.State(), items, k, moment)
    {
      if CancelledBy(moment, 2 * k + 1) {
        sampled := DrainCancelledStream(observer, items[k..]);
        return sampled, observer.emitted;
      }
      match items[k] {
        case Event(event) =>
          var response := observer.Record(event);
          if response.Some? {
            return Ok(response.value), observer.emitted;
          }
        case Error(error) =>
          if CancelledBy(moment, 2 * k + 2) && !observer.providerTraffic && !observer.messageStarted {
            observer.Fail(OfKind(CancelledKind), false);
            return Err(Cancelled), observer.emitted;
          }
          var reported := observer.ModelFailure(error);
          return Err(Model(reported)), observer.emitted;
      }
      k := k + 1;
    }
    if CancelledBy(moment, 2 * k + 1) {
      sampled := DrainCancelledStream(observer, items[k..]);
      return sampled, observer.emitted;
    }
    observer.Fail(Incomplete, true);
    return Err(IncompleteStream), observer.emitted;
  }

  // What observers see ------------------------------------------------------

  /** How often each kind of report was made, and whether an update came before
      the message started. */
  datatype Tally = Tally(starts: nat, updates: nat, aborts: nat, failures: nat, ends: nat, chunks: nat, early: bool)

  function Bump(t: Tally, event: AgentEvent): Tally {
    match event
    case MessageStart => t.(starts := t.starts + 1)
    case MessageUpdate(_, _) => t.(updates := t.updates + 1, early := t.early || t.starts == 0)
    case MessageAbort => t.(aborts := t.aborts + 1)
    case RequestFailed(_, _) => t.(failures := t.failures + 1)
    case RequestEnd(_) => t.(ends := t.ends + 1)
    case RequestChunk(_, _) => t.(chunks := t.chunks + 1)
    case _ => t
  }

  function TallyOf(log: seq<AgentEvent>): Tally {
    if log == [] then Tally(0, 0, 0, 0, 0, 0, false) else Bump(TallyOf(log[..|log| - 1]), log[|log| - 1])
  }

  lemma TallyOne(log: seq<AgentEvent>, event: AgentEvent)
    ensures TallyOf(log + [event]) == Bump(TallyOf(log), event)
  {
    assert (log + [event])[..|log|] == log;
  }

  /** What the tally says about positions in the log. */
  lemma {:induction false} TallyMeaning(log: seq<AgentEvent>)
    ensures TallyOf(log).starts == 0 <==> forall i | 0 <= i < |log| :: !log[i].MessageStart?
    ensures TallyOf(log).starts <= 1 <==> forall i, j | 0 <= i < j < |log| :: !(log[i].MessageStart? && log[j].MessageStart?)
    ensures !TallyOf(log).early <==>
      forall j | 0 <= j < |log| && log[j].MessageUpdate? :: exists i :: 0 <= i < j && log[i].MessageStart?
  {
    if log != [] {
      var before, last := log[..|log| - 1], |log| - 1;
      TallyMeaning(before);
      assert forall i | 0 <= i < last :: before[i] == log[i];
    }
  }

  /** While the stream is read. */
  predicate Reading(t: Tally, started: bool) {
    && t.starts == (if started then 1 else 0)
    && (t.updates > 0 || t.chunks > 0 ==> started)
    && t.aborts == 0 && t.failures == 0 && !t.early
  }

  predicate ReadingOn(o: Observed) {
    Reading(TallyOf(o.emitted), o.started)
  }

  lemma RecordTally(o: Observed, event: ModelEvent)
    ensures TallyOf(Recorded(o, event).emitted) ==
      match event
      case ContentDelta(index, delta) =>
        var chunk := Bump(TallyOf(o.emitted), RequestChunk(index, delta));
        Bump(if o.started then chunk else Bump(chunk, MessageStart), MessageUpdate(index, delta))
      case Completed(response) => Bump(TallyOf(o.emitted), RequestEnd(response))
      case _ => TallyOf(o.emitted)
  {
    match event
    case ProviderRequest => TallyOne(o.emitted, ProviderRequested);
    case ProviderResponse(status) => TallyOne(o.emitted, ProviderResponded(status));
    case RetryAttempt(attempt) => TallyOne(o.emitted, Retried(attempt));
    case Completed(response) => TallyOne(o.emitted, RequestEnd(response));
    case ContentDelta(index, delta) =>
      var chunk := o.emitted + [RequestChunk(index, delta)];
      TallyOne(o.emitted, RequestChunk(index, delta));
      TallyOne(chunk, MessageStart);
      TallyOne(if o.started then chunk else chunk + [MessageStart], MessageUpdate(index, delta));
  }

  lemma DeltaKeepsReading(t: Tally, started: bool, index: nat, delta: string)
    requires Reading(t, started)
    ensures var chunk := Bump(t, RequestChunk(index, delta));
      var after := Bump(if started then chunk else Bump(chunk, MessageStart), MessageUpdate(index, delta));
      Reading(after, true) && after.ends == t.ends
  {
  }

  lemma ContentKeepsReading(o: Observed, event: ModelEvent)
    requires ReadingOn(o) && event.ContentDelta?
    ensures ReadingOn(Recorded(o, event)) && TallyOf(Recorded(o, event).emitted).ends == TallyOf(o.emitted).ends
  {
    RecordTally(o, event);
    DeltaKeepsReading(TallyOf(o.emitted), o.started, event.index, event.delta);
    assert Recorded(o, event).started;
  }

  lemma OtherKeepsReading(o: Observed, event: ModelEvent)
    requires ReadingOn(o) && !event.ContentDelta?
    ensures ReadingOn(Recorded(o, event))
    ensures TallyOf(Recorded(o, event).emitted).ends == TallyOf(o.emitted).ends + (if event.Completed? then 1 else 0)
  {
    RecordTally(o, event);
    assert Recorded(o, event).started == o.started;
  }

  lemma RecordKeepsReading(o: Observed, event: ModelEvent)
    requires ReadingOn(o)
    ensures ReadingOn(Recorded(o, event))
    ensures TallyOf(Recorded(o, event).emitted).ends == TallyOf(o.emitted).ends + (if event.Completed? then 1 else 0)
  {
    if event.ContentDelta? {
      ContentKeepsReading(o, event);
    } else {
      OtherKeepsReading(o, event);
    }
  }

  /** The whole log of one invocation that began. */
  predicate WellReported(log: seq<AgentEvent>, sampled: Sampled) {
    var t := TallyOf(log);
    && t.starts <= 1 && !t.early
    && (sampled.Ok? ==> t.failures == 0 && t.aborts == 0 && t.ends >= 1)
    && (sampled.Err? ==>
          t.failures == 1 && t.ends == 0 && t.aborts == t.starts && log != [] && log[|log| - 1].RequestFailed?)
  }

  /** Nothing of a message was shown. */
  predicate Silent(log: seq<AgentEvent>) {
    var t := TallyOf(log);
    t.chunks == 0 && t.starts == 0 && t.updates == 0
  }

  lemma FailureIsReported(o: Observed, code: FailureCode, outcomeUnknown: bool, error: SamplingError)
    requires ReadingOn(o) && TallyOf(o.emitted).ends == 0
    ensures WellReported(Failed(o, code, outcomeUnknown).emitted, Err(error))
    ensures Silent(Failed(o, code, outcomeUnknown).emitted) <==> !o.started
  {
    TallyOne(o.emitted, MessageAbort);
    TallyOne(if o.started then o.emitted + [MessageAbort] else o.emitted, RequestFailed(code, outcomeUnknown));
  }

  lemma {:induction false} DrainKeepsReading(o: Observed, items: seq<Item>)
    requires ReadingOn(o) && TallyOf(o.emitted).ends == 0
    ensures var (after, completed, error) := Drained(o, items);
      ReadingOn(after) && (completed.None? <==> TallyOf(after.emitted).ends == 0)
  {
    if items != [] {
      DrainKeepsReading(o, items[..|items| - 1]);
      if items[|items| - 1].Event? {
        RecordKeepsReading(Drained(o, items[..|items| - 1]).0, items[|items| - 1].event);
      }
    }
  }

  /** A definite failure tells the kernel that nothing was generated. */
  predicate Definite(sampled: Sampled) {
    sampled.Err? && (sampled.error.Cancelled? || (sampled.error.Model? && sampled.error.error.outcome.KnownNotStarted?))
  }

  predicate Honest(ended: (Observed, Sampled)) {
    WellReported(ended.0.emitted, ended.1) && (Definite(ended.1) ==> Silent(ended.0.emitted))
  }

  lemma AfterDrainIsHonest(o: Observed, completed: Option<Response>, error: Option<ModelError>)
    requires ReadingOn(o) && (completed.None? <==> TallyOf(o.emitted).ends == 0)
    ensures Honest(AfterDrain(o, completed, error))
  {
    if completed.None? {
      if o.traffic || o.started {
        if error.Some? {
          FailureIsReported(o, OfKind(error.value.kind), Weakened(o, error.value).outcome.Unknown?, Model(Weakened(o, error.value)));
        } else {
          FailureIsReported(o, OfKind(CancelledKind), true, Model(ModelError(CancelledKind, Unknown)));
        }
      } else {
        FailureIsReported(o, OfKind(CancelledKind), false, Cancelled);
      }
    }
  }

  lemma ErrorIsHonest(o: Observed, items: seq<Item>, k: nat, moment: Moment)
    requires k < |items| && items[k].Error? && ReadingOn(o) && TallyOf(o.emitted).ends == 0
    requires !CancelledBy(moment, 2 * k + 1)
    ensures Honest(SampledFrom(o, items, k, moment))
  {
    var error := items[k].error;
    FailureIsReported(o, OfKind(CancelledKind), false, Cancelled);
    FailureIsReported(o, OfKind(error.kind), Weakened(o, error).outcome.Unknown?, Model(Weakened(o, error)));
  }

  lemma {:induction false} SamplingIsHonest(o: Observed, items: seq<Item>, k: nat, moment: Moment)
    requires k <= |items| && ReadingOn(o) && TallyOf(o.emitted).ends == 0
    ensures Honest(SampledFrom(o, items, k, moment))
    decreases |items| - k
  {
    if CancelledBy(moment, 2 * k + 1) {
      DrainKeepsReading(o, items[k..]);
      var (after, completed, error) := Drained(o, items[k..]);
      AfterDrainIsHonest(after, completed, error);
    } else if k == |items| {
      FailureIsReported(o, Incomplete, true, IncompleteStream);
    } else if items[k].Event? {
      RecordKeepsReading(o, items[k].event);
      if !items[k].event.Completed? {
        SamplingIsHonest(Recorded(o, items[k].event), items, k + 1, moment);
      }
    } else {
      ErrorIsHonest(o, items, k, moment);
    }
  }

  lemma BeginReading()
    ensures ReadingOn(BEGUN) && TallyOf(BEGUN.emitted).ends == 0
  {
    TallyOne([], RequestStart);
    assert [] + [RequestStart] == BEGUN.emitted;
  }

  /** For every stream and every moment of cancellation: the message starts at most
      once and before every update; a success reports its end and no failure; an
      error reports exactly one failure, last, no end, and exactly one abort if a
      message had started. */
  lemma EveryInvocationIsWellReported(items: seq<Item>, moment: Moment)
    requires !CancelledBy(moment, 0)
    ensures WellReported(SampleAll(items, moment).0.emitted, SampleAll(items, moment).1)
    ensures var log := SampleAll(items, moment).0.emitted;
      && (forall i, j | 0 <= i < j < |log| :: !(log[i].MessageStart? && log[j].MessageStart?))
      && (forall j | 0 <= j < |log| && log[j].MessageUpdate? :: exists i :: 0 <= i < j && log[i].MessageStart?)
  {
    BeginReading();
    SamplingIsHonest(BEGUN, items, 0, moment);
    TallyMeaning(SampleAll(items, moment).0.emitted);
  }

  // The effect adapter ------------------------------------------------------

  datatype Completion =
    | CompletedEffect(response: Response)
    | OverflowEffect
    | FailureEffect
    | OutcomeUnknown

  function ReportOf(sampled: Sampled): Completion {
    match sampled
    case Ok(response) => CompletedEffect(response)
    case Err(Model(error)) =>
      if error.outcome.Unknown? then OutcomeUnknown
      else if error.kind.ContextWindowExceeded? then OverflowEffect
      else FailureEffect
    case Err(Cancelled) => FailureEffect
    case Err(IncompleteStream) => OutcomeUnknown
  }

  /** Once any content was streamed, the adapter never reports a definite failure:
      the effect completes or its outcome is unknown. */
  lemma NoDefiniteFailureAfterContent(items: seq<Item>, moment: Moment)
    ensures var (o, sampled) := SampleAll(items, moment);
      ReportOf(sampled).FailureEffect? || ReportOf(sampled).OverflowEffect? ==> Silent(o.emitted)
  {
    if !CancelledBy(moment, 0) {
      BeginReading();
      SamplingIsHonest(BEGUN, items, 0, moment);
    }
  }

  // Summaries ---------------------------------------------------------------

  /** What an observer of a summary request sees of one event. */
  function Forwarded(event: AgentEvent): seq<AgentEvent> {
    match event
    case MessageStart => []
    case MessageUpdate(_, _) => []
    case MessageAbort => []
    case RequestEnd(response) => [RequestEnd(response.(content := []))]
    case _ => [event]
  }

  function ForwardedAll(log: seq<AgentEvent>): seq<AgentEvent> {
    if log == [] then [] else ForwardedAll(log[..|log| - 1]) + Forwarded(log[|log| - 1])
  }

  lemma ForwardOne(log: seq<AgentEvent>, event: AgentEvent)
    ensures TallyOf(log + Forwarded(event)) ==
      if Forwarded(event) == [] then TallyOf(log) else Bump(TallyOf(log), Forwarded(event)[0])
  {
    if Forwarded(event) == [] {
      assert log + Forwarded(event) == log;
    } else {
      TallyOne(log, Forwarded(event)[0]);
    }
  }

  /** A tally without its assistant messages. */
  function Muted(t: Tally): Tally {
    t.(starts := 0, updates := 0, aborts := 0, early := false)
  }

  lemma MutedBump(t: Tally, event: AgentEvent)
    ensures Muted(Bump(t, event)) == if Forwarded(event) == [] then Muted(t) else Bump(Muted(t), Forwarded(event)[0])
  {
  }

  /** A summary's observer sees no assistant message, and every other report exactly
      as often as it was made. */
  lemma {:induction false} SummariesShowNoMessage(log: seq<AgentEvent>)
    ensures TallyOf(ForwardedAll(log)) == Muted(TallyOf(log))
  {
    if log != [] {
      var before, last := log[..|log| - 1], log[|log| - 1];
      SummariesShowNoMessage(before);
      ForwardOne(ForwardedAll(before), last);
      MutedBump(TallyOf(before), last);
    }
  }

  /** The chunks among some reports, in order. */
  function Chunks(log: seq<AgentEvent>): seq<AgentEvent> {
    if log == [] then []
    else if log[|log| - 1].RequestChunk? then Chunks(log[..|log| - 1]) + [log[|log| - 1]]
    else Chunks(log[..|log| - 1])
  }

  /** The responses of the ends among some reports, in order. */
  function EndedWith(log: seq<AgentEvent>): seq<Response> {
    if log == [] then []
    else if log[|log| - 1].RequestEnd? then EndedWith(log[..|log| - 1]) + [log[|log| - 1].response]
    else EndedWith(log[..|log| - 1])
  }

  function Cleared(responses: seq<Response>): (cleared: seq<Response>)
    ensures |cleared| == |responses|
    ensures forall i | 0 <= i < |cleared| :: cleared[i] == responses[i].(content := [])
  {
    seq(|responses|, i requires 0 <= i < |responses| => responses[i].(content := []))
  }

  lemma AppendReport(log: seq<AgentEvent>, event: AgentEvent)
    ensures Chunks(log + [event]) == if event.RequestChunk? then Chunks(log) + [event] else Chunks(log)
    ensures EndedWith(log + [event]) == if event.RequestEnd? then EndedWith(log) + [event.response] else EndedWith(log)
  {
    assert (log + [event])[..|log|] == log;
  }

  lemma ForwardedReport(log: seq<AgentEvent>, event: AgentEvent)
    ensures Chunks(log + Forwarded(event)) == if event.RequestChunk? then Chunks(log) + [event] else Chunks(log)
    ensures EndedWith(log + Forwarded(event)) ==
      if event.RequestEnd? then EndedWith(log) + [event.response.(content := [])] else EndedWith(log)
  {
    if Forwarded(event) == [] {
      assert log + Forwarded(event) == log;
    } else {
      AppendReport(log, Forwarded(event)[0]);
    }
  }

  /** A summary's observer sees every chunk unchanged and every end with its content
      cleared and nothing else changed. */
  lemma {:induction false} SummariesClearOnlyEnds(log: seq<AgentEvent>)
    ensures Chunks(ForwardedAll(log)) == Chunks(log)
    ensures EndedWith(ForwardedAll(log)) == Cleared(EndedWith(log))
  {
    if log != [] {
      var before, last := log[..|log| - 1], log[|log| - 1];
      SummariesClearOnlyEnds(before);
      ForwardedReport(ForwardedAll(before), last);
    }
  }
}
