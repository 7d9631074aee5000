/** Tool calls, their results, and the queue of calls one response still owes. */
module PendingTools {
  import opened Base

  /** Why the loop refuses an input. A refusal commits nothing. */
  datatype LoopError =
    | EmptyQueue
    | AmbiguousIds
    | InvalidWave
    | RepeatedCall
    | BudgetExceeded
    | InvalidJournal
    | InvalidCheckpoint
    | InvalidPlan
    | UnexpectedEffect
    | MissingEffect
    | WrongIdentity
    | MalformedAnswer
    | UnsupportedVersion
    | NotConfigured
    | EmptyClosing
    | NoCaller
    | TurnOverflow
    | ChangedRequest
    | StrategyRefused(reason: string)

  /** The fixed explanations the loop puts in a result it writes itself. */
  datatype Notice =
    | TokenLimitReached
    | ToolMissing
    | ToolFailed
    | NotRunAfterFailure
    | NotRunCancelled
    | LostToCancellation
    | FailedBeforeCancellation
    | OutcomeNotRecovered
    | NotRunAfterUnknown
    | CodeSourceInvalid
    | CodeResultTooLarge
    | CodeWaveTooLarge
    | CodeStepCancelled
    | CodeCallsCancelled
    | CodeStepLost
    | CodeCallsLost
    | NotRunWithoutCode

  datatype Block = Plain(text: string) | Explained(notice: Notice)

  type Loop<+T> = Result<T, LoopError>

  datatype ToolCall = ToolCall(id: string, name: string, arguments: string)

  /** How a tool ends the turn it runs in. */
  datatype Closing = Closing(message: string, notRun: string)

  datatype ToolResult = ToolResult(
    callId: string, name: string, content: seq<Block>, details: Option<string>, isError: bool,
    closing: Option<Closing>)

  datatype IdError = EmptyId | DuplicateId(id: string)

  /** What makes a batch of call identifiers unambiguous. */
  ghost predicate ValidIds(ids: seq<string>) {
    && (forall i | 0 <= i < |ids| :: ids[i] != "")
    && (forall i, j | 0 <= i < j < |ids| :: ids[i] != ids[j])
  }

  /** The first identifier that is empty or repeats an earlier one. */
  function FirstIdError(ids: seq<string>): Option<IdError> {
    if ids == [] then None
    else
      var last := |ids| - 1;
      match FirstIdError(ids[..last])
      case Some(error) => Some(error)
      case None =>
        if ids[last] == "" then Some(EmptyId)
        else if ids[last] in ids[..last] then Some(DuplicateId(ids[last]))
        else None
  }

  lemma {:induction false} NoIdErrorMeansValid(ids: seq<string>)
    ensures FirstIdError(ids).None? <==> ValidIds(ids)
  {
    if ids != [] {
      var last := |ids| - 1;
      var init := ids[..last];
      NoIdErrorMeansValid(init);
      assert forall i | 0 <= i < last :: init[i] == ids[i];
      if ids[last] in init {
        var i :| 0 <= i < last && init[i] == ids[last];
        assert ids[i] == ids[last];
      }
    }
  }

  /** Validates identifiers with one pass over a growing set of those observed. */
  method ValidateToolCallIds(ids: seq<string>) returns (error: Option<IdError>)
    ensures error == FirstIdError(ids)
    ensures error.None? <==> ValidIds(ids)
  {
    NoIdErrorMeansValid(ids);
    var observed: set<string> := {};
    for i := 0 to |ids|
      invariant FirstIdError(ids[..i]) == None
      invariant forall id :: id in observed <==> id in ids[..i]
    {
      assert ids[..i + 1][..i] == ids[..i];
      if ids[i] == "" {
        ErrorStays(ids, i + 1);
        return Some(EmptyId);
      }
      if ids[i] in observed {
        ErrorStays(ids, i + 1);
        return Some(DuplicateId(ids[i]));
      }
      observed := observed + {ids[i]};
    }
    assert ids[..|ids|] == ids;
    return None;
  }

  lemma {:induction false} ErrorStays(ids: seq<string>, n: nat)
    requires n <= |ids| && FirstIdError(ids[..n]).Some?
    ensures FirstIdError(ids) == FirstIdError(ids[..n])
    decreases |ids| - n
  {
    if n == |ids| {
      assert ids[..n] == ids;
    } else {
      assert ids[..n + 1][..n] == ids[..n];
      ErrorStays(ids, n + 1);
    }
  }

  function Ids(calls: seq<ToolCall>): (ids: seq<string>)
    ensures |ids| == |calls|
    ensures forall i | 0 <= i < |ids| :: ids[i] == calls[i].id
  {
    seq(|calls|, i requires 0 <= i < |calls| => calls[i].id)
  }

  /** The current top-level call and the calls that still follow it. */
  datatype PendingToolCalls = PendingToolCalls(current: ToolCall, remaining: seq<ToolCall>) {

    static function New(calls: seq<ToolCall>): (pending: Loop<PendingToolCalls>)
      ensures pending.Ok? ==> pending.value.All() == calls && pending.value.Validate().Ok?
    {
      if calls == [] then Err(EmptyQueue)
      else
        var pending := PendingToolCalls(calls[0], calls[1..]);
        assert pending.All() == calls;
        match pending.Validate()
        case Ok(_) => Ok(pending)
        case Err(error) => Err(error)
    }

    function All(): seq<ToolCall> {
      [current] + remaining
    }

    function Validate(): Loop<()> {
      match FirstIdError(Ids(All()))
      case None => Ok(())
      case Some(_) => Err(AmbiguousIds)
    }

    /** Drops the current call; `None` once no call is left. */
    function Advance(): (next: Option<PendingToolCalls>)
      ensures next.None? <==> |All()| == 1
      ensures next.Some? ==> All() == [current] + next.value.All()
    {
      if remaining == [] then None else Some(PendingToolCalls(remaining[0], remaining[1..]))
    }
  }
}
