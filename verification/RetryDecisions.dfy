/** Exactly when the retry loop makes another attempt, how it ends otherwise, and how
    long it waits, all in terms of what each attempt met. */
module RetryDecisions {
  import opened Base
  import opened RetryLoop

  // What a failure says -----------------------------------------------------

  /** Known before its status is looked at: a refused request, an overflow, or a missing
      configuration. */
  predicate Decided(e: Extracted) {
    e.hint == Some(InvalidRequest) || e.hint == Some(ContextWindowExceeded) || e.overflow || e.unconfigured
  }

  predicate TransientStatus(status: Option<int>) {
    status.Some? && (status.value == 408 || status.value == 429 || (status.value >= 500 && status.value != 501))
  }

  predicate RefusedStatus(status: Option<int>) {
    status.Some? && 400 <= status.value < 500 && status.value != 408 && status.value != 429
  }

  /** A failure that may pass: its status says so, or it has no telling status and its
      message speaks of a timeout, of the network, or of too many requests. */
  predicate Transient(e: Extracted) {
    || TransientStatus(e.status)
    || (!RefusedStatus(e.status) && !Decided(e)
        && (e.timeout || (!e.malformed && (e.network || (!e.unauthorized && e.tooMany)))))
  }

  const TELLING_STATUSES: set<int> := {400, 401, 403, 404, 408, 409, 422, 429, 500, 502, 503, 504, 529}

  /** A rate limit: status 429, or only the message to go by and that says so. */
  predicate RateLimit(e: Extracted) {
    && !Decided(e)
    && (e.status == Some(429)
        || ((e.status.None? || e.status.value !in TELLING_STATUSES)
            && !e.timeout && !e.malformed && !e.network && !e.unauthorized && e.tooMany))
  }

  predicate ExpiredToken(e: Extracted) {
    e.status == Some(401) && e.tokenExpired
  }

  /** Before any content and without cancellation, these are the loop's own judgements. */
  lemma ClassifiesBySigns(e: Extracted, dispatched: bool)
    ensures var facts := Classify(e, Options(false, false, dispatched));
      && (facts.retryable <==> Transient(e))
      && (facts.category.RateLimited? <==> RateLimit(e))
      && (facts.expiredOauth <==> ExpiredToken(e))
      && facts.retryAfter == e.retryAfter
  {
  }

  // Delays ------------------------------------------------------------------

  /** The wait after attempt `n`: until the instant the server names, or by doubling. */
  function Delay(n: nat, e: Extracted, a: Attempt): real
    requires n >= 1
  {
    match Due(e.retryAfter, a.now)
    case Some(due) => if due > a.now then due - a.now else 0.0
    case None => if RateLimit(e) then RateLimitDelay(n - 1, a.jitter) else BaseDelay(n - 1, a.jitter)
  }

  lemma DelayBySigns(n: nat, e: Extracted, a: Attempt)
    requires n >= 1
    ensures DelayForAttempt(n, Classify(e, Options(false, false, a.dispatched)), a.jitter, a.now) == Delay(n, e, a)
  {
    ClassifiesBySigns(e, a.dispatched);
  }

  /** Without a server's instant the delay doubles with every attempt: between half and
      all of 250 ms at first, and for a rate limit between 5000 ms and a quarter more,
      to the nearest millisecond. */
  lemma DelaysDouble(n: nat, e: Extracted, a: Attempt)
    requires n >= 1 && Due(e.retryAfter, a.now).None?
    ensures Power(n) == 2.0 * Power(n - 1) && Power(0) == 1.0
    ensures RateLimit(e) ==> 5000.0 * Power(n - 1) - 0.5 <= Delay(n, e, a) <= 6250.0 * Power(n - 1) + 0.5
    ensures !RateLimit(e) ==> 125.0 * Power(n - 1) - 0.5 <= Delay(n, e, a) <= 250.0 * Power(n - 1) + 0.5
  {
    RateLimitDelayRange(n - 1, a.jitter);
    BaseDelayRange(n - 1, a.jitter);
  }

  // Exactly when another attempt follows ------------------------------------

  /** The state in which attempt `k + 1` starts, if the loop gets there. */
  function Reached(attempts: nat -> Attempt, k: nat): Option<State> {
    if k == 0 then Some(START)
    else
      match Reached(attempts, k - 1)
      case None => None
      case Some(s) =>
        if s.attempt >= MAX_RATE_LIMIT_ATTEMPTS then None
        else match RunPass(s, attempts(k - 1))
          case Again(after) => Some(after)
          case Done(_, _) => None
  }

  /** The caller saw nothing of the attempt and still wants an answer. */
  predicate Unseen(a: Attempt) {
    a.failure.Some? && a.deltas == 0 && !a.cancelled
  }

  /** The first expired token of a stored credential, met before attempt three. */
  predicate WantsRefresh(log: seq<Entry>, n: nat, a: Attempt) {
    Unseen(a) && ExpiredToken(a.failure.value) && Refreshes(log) == 0 && n < 3 && a.storedOauth
  }

  /** A failure that may pass, with attempts and time left for it. */
  predicate WantsWait(log: seq<Entry>, n: nat, a: Attempt)
    requires n >= 1
  {
    && Unseen(a) && Transient(a.failure.value)
    && n < (if RateLimit(a.failure.value) then 5 else 3)
    && Delay(n, a.failure.value, a) <= 120000.0 - Waits(log)
  }

  predicate GoesOn(log: seq<Entry>, n: nat, a: Attempt)
    requires n >= 1
  {
    (WantsRefresh(log, n, a) && a.refresh.Refreshed?) || (WantsWait(log, n, a) && a.announced && a.waited)
  }

  /** What is logged when another attempt follows. */
  predicate Continues(log: seq<Entry>, n: nat, a: Attempt, log': seq<Entry>)
    requires n >= 1 && Unseen(a)
  {
    if WantsRefresh(log, n, a) then log' == log + [TokenRefreshed(n)]
    else
      && |log'| == |log| + 1 && log' == log + [log'[|log|]] && log'[|log|].Announced?
      && log'[|log|].attempt == n && log'[|log|].delay == Delay(n, a.failure.value, a)
  }

  /** How the loop ends when none follows. */
  predicate EndsAs(log: seq<Entry>, n: nat, a: Attempt, ending: Ending)
    requires n >= 1
  {
    if a.failure.None? then ending == Completed
    else if WantsRefresh(log, n, a) then ending == Raised(REFRESH_FAILED)
    else if WantsWait(log, n, a) then
      if a.announced then ending.Raised? && ending.facts.category.CancelledCategory? else ending == CallerFailed
    else ending.Raised? && (ending.facts.category.CancelledCategory? <==> a.cancelled)
  }

  lemma NothingStreamed(s: State, a: Attempt)
    requires a.deltas == 0
    ensures s.(attempt := s.attempt + 1, log := s.log + Deltas(s.attempt + 1, a.deltas)) == s.(attempt := s.attempt + 1)
  {
    assert s.log + Deltas(s.attempt + 1, a.deltas) == s.log;
  }

  lemma UnseenPass(s: State, a: Attempt)
    requires Sound(s) && s.attempt < 5 && Unseen(a)
    ensures var n := s.attempt + 1;
      match RunPass(s, a)
      case Again(after) => GoesOn(s.log, n, a) && Continues(s.log, n, a, after.log)
      case Done(after, ending) => !GoesOn(s.log, n, a) && EndsAs(s.log, n, a, ending) && after.attempt == n
  {
    NothingStreamed(s, a);
    ClassifiesBySigns(a.failure.value, a.dispatched);
    DelayBySigns(s.attempt + 1, a.failure.value, a);
  }

  lemma SeenPass(s: State, a: Attempt)
    requires s.attempt < 5 && !Unseen(a)
    ensures var n := s.attempt + 1;
      RunPass(s, a).Done? && EndsAs(s.log, n, a, RunPass(s, a).ending) && RunPass(s, a).state.attempt == n
  {
  }

  ghost predicate Decides(s: State, a: Attempt, pass: Pass) {
    var n := s.attempt + 1;
    match pass
    case Again(after) => GoesOn(s.log, n, a) && Continues(s.log, n, a, after.log)
    case Done(after, ending) => !GoesOn(s.log, n, a) && EndsAs(s.log, n, a, ending) && after.attempt == n
  }

  lemma EveryPass(s: State, a: Attempt)
    requires Sound(s) && s.attempt < 5
    ensures Decides(s, a, RunPass(s, a))
  {
    if Unseen(a) {
      UnseenPass(s, a);
    } else {
      SeenPass(s, a);
    }
  }

  lemma {:induction false} ReachedIsSound(attempts: nat -> Attempt, k: nat)
    requires Reached(attempts, k).Some?
    ensures var s := Reached(attempts, k).value; Sound(s) && Quiet(s.log) && s.attempt == k < 5
    ensures StreamFrom(attempts, START) == StreamFrom(attempts, Reached(attempts, k).value)
  {
    if k > 0 {
      ReachedIsSound(attempts, k - 1);
      PassIsSound(Reached(attempts, k - 1).value, attempts(k - 1));
    }
  }

  /** For every sequence of attempts: after attempt `n` another one follows exactly when
      nothing of it was streamed, the caller did not cancel, and either it was the first
      expired token of a stored credential, in the first two attempts, and was refreshed,
      or the failure may pass, it was not the fifth attempt for a rate limit or the third
      otherwise, the delay fits what is left of two minutes, and the caller took the
      announcement and the wait. In every other case the loop ends with attempt `n`, and
      with the ending that belongs to it. */
  lemma RetriesExactly(attempts: nat -> Attempt, n: nat)
    requires n >= 1 && Reached(attempts, n - 1).Some?
    ensures var log, a := Reached(attempts, n - 1).value.log, attempts(n - 1);
      && (Reached(attempts, n).Some? <==> GoesOn(log, n, a))
      && (GoesOn(log, n, a) ==> Continues(log, n, a, Reached(attempts, n).value.log))
      && (!GoesOn(log, n, a) ==>
            StreamFrom(attempts, START).0.attempt == n && EndsAs(log, n, a, StreamFrom(attempts, START).1))
  {
    var s, a := Reached(attempts, n - 1).value, attempts(n - 1);
    ReachedIsSound(attempts, n - 1);
    EveryPass(s, a);
    assert Reached(attempts, n).Some? <==> RunPass(s, a).Again?;
    assert RunPass(s, a).Done? ==> StreamFrom(attempts, s) == (RunPass(s, a).state, RunPass(s, a).ending);
  }

  /** And every invocation ends at some attempt in one of those ways. */
  lemma EveryInvocationEnds(attempts: nat -> Attempt) returns (n: nat)
    ensures 1 <= n <= 5 && Reached(attempts, n - 1).Some?
    ensures !GoesOn(Reached(attempts, n - 1).value.log, n, attempts(n - 1))
  {
    n := 1;
    while GoesOn(Reached(attempts, n - 1).value.log, n, attempts(n - 1))
      invariant 1 <= n <= 5 && Reached(attempts, n - 1).Some?
      decreases 5 - n
    {
      RetriesExactly(attempts, n);
      ReachedIsSound(attempts, n);
      n := n + 1;
    }
  }
}
