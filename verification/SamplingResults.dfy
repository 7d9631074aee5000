/** What one model invocation returns, for every provider stream and every moment of
    cancellation, in terms of the stream alone. */
module SamplingResults {
  import opened Base
  import opened Sampling

  // What a stream holds -----------------------------------------------------

  predicate IsContent(item: Item) {
    item.Event? && item.event.ContentDelta?
  }

  predicate IsTraffic(item: Item) {
    item.Event? && (item.event.ProviderRequest? || item.event.ProviderResponse? || item.event.RetryAttempt?)
  }

  predicate IsCompletion(item: Item) {
    item.Event? && item.event.Completed?
  }

  predicate Streamed(items: seq<Item>) {
    exists i :: 0 <= i < |items| && IsContent(items[i])
  }

  /** The provider was reached. */
  predicate Reached(items: seq<Item>) {
    exists i :: 0 <= i < |items| && (IsContent(items[i]) || IsTraffic(items[i]))
  }

  predicate CompletesAt(items: seq<Item>, i: nat, response: Response) {
    && i < |items| && items[i] == Event(Completed(response))
    && (forall j | i < j < |items| :: !IsCompletion(items[j]))
  }

  predicate FailsAt(items: seq<Item>, i: nat, error: ModelError) {
    i < |items| && items[i] == Error(error) && (forall j | i < j < |items| :: !items[j].Error?)
  }

  /** The last completion, if any, and the last error. */
  ghost predicate LastOnes(items: seq<Item>, completed: Option<Response>, error: Option<ModelError>) {
    && (completed.Some? ==> exists i :: CompletesAt(items, i, completed.value))
    && (completed.None? ==> forall i | 0 <= i < |items| :: !IsCompletion(items[i]))
    && (error.Some? ==> exists i :: FailsAt(items, i, error.value))
    && (error.None? ==> forall i | 0 <= i < |items| :: !items[i].Error?)
  }

  // Reading it --------------------------------------------------------------

  /** The observer's flags say what was read of the stream. */
  ghost predicate Marks(o: Observed, items: seq<Item>) {
    (o.started <==> Streamed(items)) && (o.traffic || o.started <==> Reached(items))
  }

  lemma OneMoreItem(items: seq<Item>, item: Item)
    ensures Streamed(items + [item]) <==> Streamed(items) || IsContent(item)
    ensures Reached(items + [item]) <==> Reached(items) || IsContent(item) || IsTraffic(item)
  {
    var all := items + [item];
    assert all[|items|] == item;
    assert forall i | 0 <= i < |items| :: all[i] == items[i];
  }

  lemma RecordMarks(o: Observed, items: seq<Item>, event: ModelEvent)
    requires Marks(o, items)
    ensures Marks(Sampling.Recorded(o, event), items + [Event(event)])
  {
    OneMoreItem(items, Event(event));
  }

  lemma LastOnesGrow(items: seq<Item>, completed: Option<Response>, error: Option<ModelError>, item: Item)
    requires LastOnes(items, completed, error)
    ensures LastOnes(items + [item],
      if IsCompletion(item) then Some(item.event.response) else completed, if item.Error? then Some(item.error) else error)
  {
    var all := items + [item];
    assert all[|items|] == item;
    if IsCompletion(item) {
      assert CompletesAt(all, |items|, item.event.response);
    } else if completed.Some? {
      var i :| CompletesAt(items, i, completed.value);
      assert CompletesAt(all, i, completed.value);
    }
    if item.Error? {
      assert FailsAt(all, |items|, item.error);
    } else if error.Some? {
      var i :| FailsAt(items, i, error.value);
      assert FailsAt(all, i, error.value);
    }
  }

  lemma {:induction false} DrainReads(o: Observed, seen: seq<Item>, rest: seq<Item>)
    requires Marks(o, seen)
    ensures var (after, completed, error) := Drained(o, rest);
      Marks(after, seen + rest) && LastOnes(rest, completed, error)
  {
    if rest == [] {
      assert seen + rest == seen;
    } else {
      var before, last := rest[..|rest| - 1], rest[|rest| - 1];
      DrainReads(o, seen, before);
      assert before + [last] == rest && (seen + before) + [last] == seen + rest;
      var (after, completed, error) := Drained(o, before);
      LastOnesGrow(before, completed, error, last);
      OneMoreItem(seen + before, last);
      if last.Event? {
        RecordMarks(after, seen + before, last.event);
      }
    }
  }

  // What an invocation returns ----------------------------------------------

  /** The error as it is reported: its outcome is unknown once anything was streamed. */
  function Reported(error: ModelError, streamed: bool): ModelError {
    if streamed then ModelError(error.kind, Unknown) else error
  }

  /** The stream is read up to item `k`: there it completes, fails, ends or is cancelled. */
  predicate StopsAt(items: seq<Item>, moment: Moment, k: nat) {
    && k <= |items|
    && (forall i | 0 <= i < k :: items[i].Event? && !IsCompletion(items[i]) && !CancelledBy(moment, 2 * i + 1))
    && (k == |items| || CancelledBy(moment, 2 * k + 1) || items[k].Error? || IsCompletion(items[k]))
  }

  /** What a cancelled stream comes to: its last completion if it still has one, its last
      error if the provider was reached, and else a cancellation. */
  ghost predicate CancelYields(items: seq<Item>, rest: seq<Item>, sampled: Sampled) {
    exists completed, error ::
      && LastOnes(rest, completed, error)
      && sampled ==
         if completed.Some? then Ok(completed.value)
         else if !Reached(items) then Err(Cancelled)
         else if error.Some? then Err(Model(Reported(error.value, Streamed(items))))
         else Err(Model(ModelError(CancelledKind, Unknown)))
  }

  /** What an invocation that stops at item `k` returns. */
  ghost predicate Yields(items: seq<Item>, moment: Moment, k: nat, sampled: Sampled)
    requires k <= |items|
  {
    if CancelledBy(moment, 2 * k + 1) then CancelYields(items, items[k..], sampled)
    else if k == |items| then sampled == Err(IncompleteStream)
    else match items[k]
      case Event(Completed(response)) => sampled == Ok(response)
      case Event(_) => false
      case Error(error) =>
        sampled ==
          if CancelledBy(moment, 2 * k + 2) && !Reached(items[..k]) then Err(Cancelled)
          else Err(Model(Reported(error, Streamed(items[..k]))))
  }

  lemma CancelYieldsThat(o: Observed, items: seq<Item>, k: nat)
    requires k <= |items| && Marks(o, items[..k])
    ensures CancelYields(items, items[k..], DrainAndEnd(o, items[k..]).1)
  {
    DrainReads(o, items[..k], items[k..]);
    assert items[..k] + items[k..] == items;
    var (after, completed, error) := Drained(o, items[k..]);
    assert LastOnes(items[k..], completed, error);
  }

  lemma {:induction false} YieldsFrom(o: Observed, items: seq<Item>, from: nat, moment: Moment) returns (k: nat)
    requires from <= |items| && Marks(o, items[..from])
    requires forall i | 0 <= i < from :: items[i].Event? && !IsCompletion(items[i]) && !CancelledBy(moment, 2 * i + 1)
    ensures StopsAt(items, moment, k) && Yields(items, moment, k, SampledFrom(o, items, from, moment).1)
    decreases |items| - from
  {
    k := from;
    if CancelledBy(moment, 2 * from + 1) {
      CancelYieldsThat(o, items, from);
    } else if from < |items| && items[from].Event? && !IsCompletion(items[from]) {
      RecordMarks(o, items[..from], items[from].event);
      assert items[..from] + [items[from]] == items[..from + 1];
      k := YieldsFrom(Sampling.Recorded(o, items[from].event), items, from + 1, moment);
    }
  }

  /** For every stream and every moment of cancellation, the result is that of the item
      the stream stops at: the response it completes with, the error it fails with, or
      what is left of it once it is cancelled. */
  lemma SamplesWhatTheStreamSays(items: seq<Item>, moment: Moment) returns (k: nat)
    requires !CancelledBy(moment, 0)
    ensures StopsAt(items, moment, k) && Yields(items, moment, k, SampleAll(items, moment).1)
  {
    k := YieldsFrom(BEGUN, items, 0, moment);
  }

  /** Without cancellation, a context overflow is reported as such exactly when the stream
      fails with one that is known not to have started, before any content. */
  lemma OverflowIsReported(items: seq<Item>) returns (k: nat)
    ensures StopsAt(items, None, k)
    ensures ReportOf(SampleAll(items, None).1).OverflowEffect? <==>
      k < |items| && items[k] == Error(ModelError(ContextWindowExceeded, KnownNotStarted)) && !Streamed(items[..k])
    ensures forall response :: ReportOf(SampleAll(items, None).1) == CompletedEffect(response) <==>
      k < |items| && items[k] == Event(Completed(response))
  {
    k := SamplesWhatTheStreamSays(items, None);
  }
}
