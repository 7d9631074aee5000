/** The provider retry loop: classification of failures, delays, and the loop that
    spends a wait budget. */
module RetryLoop {
  import opened Base

  const MAX_ATTEMPTS: nat := 3
  const MAX_RATE_LIMIT_ATTEMPTS: nat := 5
  const MAX_RETRY_WAIT_MS: real := 120000.0
  const BASE_DELAY_MS: real := 250.0
  const RATE_LIMIT_DELAY_MS: real := 5000.0

  // Classification ----------------------------------------------------------

  datatype Category =
    | CancelledCategory | Authentication | RateLimited | InvalidRequest | ContextWindowExceeded | TimedOut
    | ProviderUnavailable | Protocol | StreamInterrupted | Network | UnknownCategory

  datatype Inference = KnownNotStarted | UnknownInference

  /** A Retry-After value read as a number and as a date, each if it is one. */
  datatype RetryAfter = RetryAfter(number: Option<real>, date: Option<real>)

  /** What was extracted from a failure; the flags say which patterns its message matches. */
  datatype Extracted = Extracted(
    status: Option<int>, hint: Option<Category>, retryAfter: Option<RetryAfter>,
    overflow: bool, unconfigured: bool, timeout: bool, malformed: bool, network: bool,
    unauthorized: bool, tooMany: bool, tokenExpired: bool)

  datatype Options = Options(outputExposed: bool, cancelled: bool, dispatched: bool)

  datatype Facts = Facts(
    category: Category, inference: Inference, retryable: bool, expiredOauth: bool, retryAfter: Option<RetryAfter>)

  function ClassifyCategory(e: Extracted): Category {
    if e.hint == Some(InvalidRequest) || e.hint == Some(ContextWindowExceeded) then e.hint.value
    else if e.overflow then ContextWindowExceeded
    else if e.unconfigured then Authentication
    else if e.status == Some(401) || e.status == Some(403) then Authentication
    else if e.status == Some(429) then RateLimited
    else if e.status == Some(408) then TimedOut
    else if e.status.Some? && e.status.value in {400, 404, 409, 422} then InvalidRequest
    else if e.status.Some? && e.status.value in {500, 502, 503, 504, 529} then ProviderUnavailable
    else if e.timeout then TimedOut
    else if e.malformed then Protocol
    else if e.network then Network
    else if e.unauthorized then Authentication
    else if e.tooMany then RateLimited
    else UnknownCategory
  }

  predicate ClientStatus(status: Option<int>) {
    status.Some? && 400 <= status.value < 500
  }

  predicate IsRetryable(category: Category, status: Option<int>) {
    !(ClientStatus(status) && status.value != 408 && status.value != 429) &&
    (category.Network? || category.TimedOut? || category.RateLimited? || category.ProviderUnavailable?
     || status == Some(408) || status == Some(429)
     || (status.Some? && status.value >= 500 && status.value != 501))
  }

  function InferenceFor(category: Category, status: Option<int>, options: Options): Inference {
    if options.outputExposed then UnknownInference
    else if options.dispatched then (if ClientStatus(status) then KnownNotStarted else UnknownInference)
    else if category.Authentication? || category.InvalidRequest? || category.ContextWindowExceeded? || category.RateLimited?
      || ClientStatus(status) || category.Network? then KnownNotStarted
    else UnknownInference
  }

  function Classify(e: Extracted, options: Options): Facts {
    if options.cancelled then
      Facts(CancelledCategory, if options.outputExposed || options.dispatched then UnknownInference else KnownNotStarted,
            false, false, None)
    else
      var classified := ClassifyCategory(e);
      var category :=
        if options.outputExposed && (classified.Network? || classified.TimedOut? || classified.ProviderUnavailable?)
        then StreamInterrupted else classified;
      var expired := e.status == Some(401) && e.tokenExpired;
      Facts(category, InferenceFor(category, e.status, options),
            !options.outputExposed && !category.StreamInterrupted? && !expired && IsRetryable(category, e.status),
            expired, e.retryAfter)
  }

  // Delays ------------------------------------------------------------------

  function Power(n: nat): (p: real)
    ensures p >= 1.0
  {
    if n == 0 then 1.0 else 2.0 * Power(n - 1)
  }

  function Round(x: real): (rounded: real)
    ensures x - 0.5 <= rounded <= x + 0.5
  {
    (x + 0.5).Floor as real
  }

  /** The instant a Retry-After value names, if it names one. */
  function Due(header: Option<RetryAfter>, now: real): Option<real> {
    match header
    case None => None
    case Some(after) =>
      if after.number.Some? && after.number.value >= 0.0 then Some(now + 1000.0 * after.number.value) else after.date
  }

  /** Delay-seconds or an HTTP-date; never negative. Waiting the delay from `now` on
      ends no earlier than the server asked, and exactly then unless that is past. */
  function ParseRetryAfter(header: Option<RetryAfter>, now: real): (delay: Option<real>)
    ensures delay.Some? <==> Due(header, now).Some?
    ensures delay.Some? ==> delay.value >= 0.0 && now + delay.value >= Due(header, now).value
    ensures delay.Some? && delay.value > 0.0 ==> now + delay.value == Due(header, now).value
  {
    match header
    case None => None
    case Some(RetryAfter(number, date)) =>
      if number.Some? && number.value >= 0.0 then Some(number.value * 1000.0)
      else if date.None? then None
      else Some(if date.value > now then date.value - now else 0.0)
  }

  type Jitter = j: real | 0.0 <= j < 1.0 witness 0.0

  function RateLimitDelay(doublings: nat, jitter: Jitter): real {
    Round(RATE_LIMIT_DELAY_MS * Power(doublings) * (1.0 + jitter * 0.25))
  }

  function BaseDelay(doublings: nat, jitter: Jitter): real {
    Round(BASE_DELAY_MS * Power(doublings) * (0.5 + jitter * 0.5))
  }

  /** A server's cooldown is a minimum; without one the delay doubles per attempt. */
  function DelayForAttempt(attempt: nat, facts: Facts, jitter: Jitter, now: real): (delay: real)
  {
    var after := ParseRetryAfter(facts.retryAfter, now);
    var doublings := if attempt > 0 then attempt - 1 else 0;
    if after.Some? then after.value
    else if facts.category.RateLimited? then RateLimitDelay(doublings, jitter)
    else BaseDelay(doublings, jitter)
  }

  predicate ShouldRetry(facts: Facts, attempt: nat, outputExposed: bool) {
    var limit := if facts.category.RateLimited? then MAX_RATE_LIMIT_ATTEMPTS else MAX_ATTEMPTS;
    !outputExposed && attempt < limit && facts.retryable
  }

  // The loop ----------------------------------------------------------------

  datatype Refresh = Refreshed | RefreshFails

  /** Everything outside the loop that one attempt meets: how many content deltas it
      streams, how it ends, and what clock, chance and the caller do after it. */
  datatype Attempt = Attempt(
    deltas: nat, failure: Option<Extracted>, dispatched: bool, cancelled: bool, now: real, jitter: Jitter,
    storedOauth: bool, refresh: Refresh, announced: bool, waited: bool)

  datatype Entry =
    | Content(attempt: nat)
    | Announced(attempt: nat, facts: Facts, now: real, delay: real)
    | TokenRefreshed(attempt: nat)
    | Finished(attempt: nat)

  datatype Ending = Completed | Raised(facts: Facts) | CallerFailed | FellThrough

  datatype State = State(attempt: nat, waited: real, refreshed: bool, log: seq<Entry>)

  function Deltas(attempt: nat, count: nat): (entries: seq<Entry>)
    ensures |entries| == count && forall i | 0 <= i < count :: entries[i] == Content(attempt)
  {
    seq(count, _ => Content(attempt))
  }

  /** One pass of the loop: the next state, or how the invocation ends. */
  datatype Pass = Again(state: State) | Done(state: State, ending: Ending)

  const REFRESH_FAILED := Facts(Authentication, KnownNotStarted, false, true, None)

  /** The caller aborted while the loop waited. */
  function InterruptedWait(facts: Facts, dispatched: bool): Facts {
    Facts(CancelledCategory, if dispatched && facts.inference.UnknownInference? then UnknownInference else KnownNotStarted,
          false, false, None)
  }

  function OnFailure(s: State, a: Attempt, e: Extracted): Pass {
    var facts := Classify(e, Options(a.deltas > 0, a.cancelled, a.dispatched));
    if facts.expiredOauth && !s.refreshed && a.deltas == 0 && !a.cancelled && s.attempt < MAX_ATTEMPTS && a.storedOauth then
      var tried := s.(refreshed := true, log := s.log + [TokenRefreshed(s.attempt)]);
      if a.refresh.Refreshed? then Again(tried)
      else Done(tried, Raised(REFRESH_FAILED))
    else
      var delay := DelayForAttempt(s.attempt, facts, a.jitter, a.now);
      if !ShouldRetry(facts, s.attempt, a.deltas > 0) || a.cancelled || delay > MAX_RETRY_WAIT_MS - s.waited then
        Done(s, Raised(facts))
      else
        var told := s.(waited := s.waited + delay, log := s.log + [Announced(s.attempt, facts, a.now, delay)]);
        if !a.announced then Done(told, CallerFailed)
        else if !a.waited then Done(told, Raised(InterruptedWait(facts, a.dispatched)))
        else Again(told)
  }

  function RunPass(s: State, a: Attempt): Pass {
    var begun := s.(attempt := s.attempt + 1, log := s.log + Deltas(s.attempt + 1, a.deltas));
    match a.failure
    case None => Done(begun.(log := begun.log + [Finished(begun.attempt)]), Completed)
    case Some(e) => OnFailure(begun, a, e)
  }

  const START := State(0, 0.0, false, [])

  /** `attempts(k)` is what attempt `k + 1` meets. */
  function StreamFrom(attempts: nat -> Attempt, s: State): (State, Ending)
    decreases MAX_RATE_LIMIT_ATTEMPTS - s.attempt
  {
    if s.attempt >= MAX_RATE_LIMIT_ATTEMPTS then (s, FellThrough)
    else match RunPass(s, attempts(s.attempt))
      case Done(after, ending) => (after, ending)
      case Again(after) => StreamFrom(attempts, after)
  }

  /** The retry loop. */
  method StreamModel(attempts: nat -> Attempt) returns (ending: Ending, log: seq<Entry>)
    ensures var (s, end) := StreamFrom(attempts, START); ending == end && log == s.log
  {
    var s := START;
    while s.attempt < MAX_RATE_LIMIT_ATTEMPTS
      invariant StreamFrom(attempts, START) == StreamFrom(attempts, s)
      decreases MAX_RATE_LIMIT_ATTEMPTS - s.attempt
    {
      var a := attempts(s.attempt);
      var begun := s.(attempt := s.attempt + 1, log := s.log + Deltas(s.attempt + 1, a.deltas));
      if a.failure.None? {
        return Completed, begun.log + [Finished(begun.attempt)];
      }
      match OnFailure(begun, a, a.failure.value) {
        case Done(after, end) => return end, after.log;
        case Again(after) => s := after;
      }
    }
    return FellThrough, s.log;
  }

  // What every run keeps ----------------------------------------------------

  function Waits(log: seq<Entry>): real {
    if log == [] then 0.0
    else Waits(log[..|log| - 1]) + (if log[|log| - 1].Announced? then log[|log| - 1].delay else 0.0)
  }

  function Refreshes(log: seq<Entry>): nat {
    if log == [] then 0
    else Refreshes(log[..|log| - 1]) + (if log[|log| - 1].TokenRefreshed? then 1 else 0)
  }

  /** An announced delay honours the server's cooldown, and only a rate limit leads
      past the third attempt. */
  predicate EntryOk(entry: Entry) {
    match entry
    case Announced(attempt, facts, now, delay) =>
      && 0.0 <= delay
      && (ParseRetryAfter(facts.retryAfter, now).Some? ==> delay >= ParseRetryAfter(facts.retryAfter, now).value)
      && (attempt >= MAX_ATTEMPTS ==> facts.category.RateLimited?)
    case TokenRefreshed(attempt) => attempt < MAX_ATTEMPTS
    case _ => true
  }

  ghost predicate Sound(s: State) {
    && Waits(s.log) == s.waited && 0.0 <= s.waited <= MAX_RETRY_WAIT_MS
    && Refreshes(s.log) == (if s.refreshed then 1 else 0)
    && (forall i | 0 <= i < |s.log| :: EntryOk(s.log[i]))
    && (forall i | 0 <= i < |s.log| && s.log[i].Content? :: s.log[i].attempt == s.attempt)
    && s.attempt <= MAX_RATE_LIMIT_ATTEMPTS
  }

  lemma OneMore(log: seq<Entry>, entry: Entry)
    ensures Waits(log + [entry]) == Waits(log) + (if entry.Announced? then entry.delay else 0.0)
    ensures Refreshes(log + [entry]) == Refreshes(log) + (if entry.TokenRefreshed? then 1 else 0)
  {
    assert (log + [entry])[..|log|] == log;
  }

  lemma {:induction false} ContentCostsNothing(log: seq<Entry>, attempt: nat, count: nat)
    ensures Waits(log + Deltas(attempt, count)) == Waits(log)
    ensures Refreshes(log + Deltas(attempt, count)) == Refreshes(log)
  {
    if count == 0 {
      assert log + Deltas(attempt, count) == log;
    } else {
      ContentCostsNothing(log, attempt, count - 1);
      assert Deltas(attempt, count) == Deltas(attempt, count - 1) + [Content(attempt)];
      assert log + Deltas(attempt, count) == (log + Deltas(attempt, count - 1)) + [Content(attempt)];
      OneMore(log + Deltas(attempt, count - 1), Content(attempt));
    }
  }

  /** Between 5000 ms and a quarter more, doubled each time, to the nearest millisecond. */
  lemma RateLimitDelayRange(doublings: nat, jitter: Jitter)
    ensures var power := Power(doublings);
      5000.0 * power - 0.5 <= RateLimitDelay(doublings, jitter) <= 6250.0 * power + 0.5
  {
    ScaleRange(RATE_LIMIT_DELAY_MS * Power(doublings), 1.0 + jitter * 0.25, 1.0, 1.25);
  }

  /** Between half and all of 250 ms, doubled each time, to the nearest millisecond. */
  lemma BaseDelayRange(doublings: nat, jitter: Jitter)
    ensures var power := Power(doublings);
      125.0 * power - 0.5 <= BaseDelay(doublings, jitter) <= 250.0 * power + 0.5
  {
    ScaleRange(BASE_DELAY_MS * Power(doublings), 0.5 + jitter * 0.5, 0.5, 1.0);
  }

  lemma ScaleRange(x: real, y: real, low: real, high: real)
    requires x >= 0.0 && low <= y <= high
    ensures x * low <= x * y <= x * high
  {
    assert x * (y - low) >= 0.0;
    assert x * (high - y) >= 0.0;
  }

  lemma DelayIsNotNegative(attempt: nat, facts: Facts, jitter: Jitter, now: real)
    ensures DelayForAttempt(attempt, facts, jitter, now) >= 0.0
  {
    var doublings := if attempt > 0 then attempt - 1 else 0;
    RateLimitDelayRange(doublings, jitter);
    BaseDelayRange(doublings, jitter);
  }

  /** No content, so another attempt may follow. */
  predicate Quiet(log: seq<Entry>) {
    forall i | 0 <= i < |log| :: !log[i].Content?
  }

  lemma RefreshIsSound(s: State)
    requires Sound(s) && !s.refreshed && s.attempt < MAX_ATTEMPTS
    ensures Sound(s.(refreshed := true, log := s.log + [TokenRefreshed(s.attempt)]))
  {
    OneMore(s.log, TokenRefreshed(s.attempt));
  }

  lemma WaitIsSound(s: State, entry: Entry)
    requires Sound(s) && entry.Announced? && EntryOk(entry) && entry.delay <= MAX_RETRY_WAIT_MS - s.waited
    ensures Sound(s.(waited := s.waited + entry.delay, log := s.log + [entry]))
  {
    OneMore(s.log, entry);
  }

  lemma FailurePass(s: State, a: Attempt, e: Extracted)
    requires Sound(s) && 1 <= s.attempt && (a.deltas == 0 ==> Quiet(s.log))
    ensures match OnFailure(s, a, e)
      case Again(after) => Sound(after) && Quiet(after.log) && after.attempt == s.attempt < MAX_RATE_LIMIT_ATTEMPTS
      case Done(after, ending) => Sound(after) && !ending.FellThrough?
  {
    var facts := Classify(e, Options(a.deltas > 0, a.cancelled, a.dispatched));
    if facts.expiredOauth && !s.refreshed && a.deltas == 0 && !a.cancelled && s.attempt < MAX_ATTEMPTS && a.storedOauth {
      RefreshIsSound(s);
    } else {
      var delay := DelayForAttempt(s.attempt, facts, a.jitter, a.now);
      DelayIsNotNegative(s.attempt, facts, a.jitter, a.now);
      if ShouldRetry(facts, s.attempt, a.deltas > 0) && !a.cancelled && delay <= MAX_RETRY_WAIT_MS - s.waited {
        WaitIsSound(s, Announced(s.attempt, facts, a.now, delay));
      }
    }
  }

  lemma BeginPass(s: State, count: nat)
    requires Sound(s) && Quiet(s.log) && s.attempt < MAX_RATE_LIMIT_ATTEMPTS
    ensures var begun := s.(attempt := s.attempt + 1, log := s.log + Deltas(s.attempt + 1, count));
      Sound(begun) && (count == 0 ==> Quiet(begun.log))
  {
    ContentCostsNothing(s.log, s.attempt + 1, count);
  }

  lemma FinishPass(s: State)
    requires Sound(s)
    ensures Sound(s.(log := s.log + [Finished(s.attempt)]))
  {
    OneMore(s.log, Finished(s.attempt));
  }

  lemma PassIsSound(s: State, a: Attempt)
    requires Sound(s) && Quiet(s.log) && s.attempt < MAX_RATE_LIMIT_ATTEMPTS
    ensures match RunPass(s, a)
      case Again(after) =>
        Sound(after) && Quiet(after.log) && after.attempt == s.attempt + 1 && after.attempt < MAX_RATE_LIMIT_ATTEMPTS
      case Done(after, ending) => Sound(after) && !ending.FellThrough?
  {
    BeginPass(s, a.deltas);
    var begun := s.(attempt := s.attempt + 1, log := s.log + Deltas(s.attempt + 1, a.deltas));
    match a.failure
    case None => FinishPass(begun);
    case Some(e) => FailurePass(begun, a, e);
  }

  lemma {:induction false} StreamIsSound(attempts: nat -> Attempt, s: State)
    requires Sound(s) && Quiet(s.log) && s.attempt < MAX_RATE_LIMIT_ATTEMPTS
    ensures Sound(StreamFrom(attempts, s).0) && !StreamFrom(attempts, s).1.FellThrough?
    decreases MAX_RATE_LIMIT_ATTEMPTS - s.attempt
  {
    PassIsSound(s, attempts(s.attempt));
    match RunPass(s, attempts(s.attempt))
    case Again(after) => StreamIsSound(attempts, after);
    case Done(_, _) =>
  }

  /** For every sequence of attempts: announced delays total at most the wait budget
      and each is at least the server's cooldown; content comes from the last
      attempt only; past the third attempt only a rate limit leads on; the token is
      refreshed at most once; and the loop never ends without a completion or a
      raised failure. */
  lemma EveryInvocationIsBounded(attempts: nat -> Attempt)
    ensures var (s, ending) := StreamFrom(attempts, START);
      && !ending.FellThrough?
      && Waits(s.log) <= MAX_RETRY_WAIT_MS && Refreshes(s.log) <= 1 && s.attempt <= MAX_RATE_LIMIT_ATTEMPTS
      && (forall i | 0 <= i < |s.log| :: EntryOk(s.log[i]))
      && (forall i | 0 <= i < |s.log| && s.log[i].Content? :: s.log[i].attempt == s.attempt)
  {
    StreamIsSound(attempts, START);
  }
}
