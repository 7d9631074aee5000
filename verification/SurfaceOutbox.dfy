/** The command outbox over every run: no submitted command is lost or reordered. */
module SurfaceOutbox {
  import opened Base
  import opened SurfaceState
  import opened SurfaceClient

  /** The commands that are not in `removed`, in order. */
  function Remaining(submitted: seq<TextCommand>, removed: set<string>): seq<TextCommand> {
    if submitted == [] then []
    else
      var last := submitted[|submitted| - 1];
      Remaining(submitted[..|submitted| - 1], removed) + (if last.id in removed then [] else [last])
  }

  lemma {:induction false} WithoutConcat(a: seq<TextCommand>, b: seq<TextCommand>, id: string)
    ensures Without(a + b, id) == Without(a, id) + Without(b, id)
  {
    if a == [] {
      assert a + b == b;
    } else {
      assert (a + b)[1..] == a[1..] + b;
      WithoutConcat(a[1..], b, id);
    }
  }

  lemma {:induction false} RemoveOne(submitted: seq<TextCommand>, removed: set<string>, id: string)
    ensures Without(Remaining(submitted, removed), id) == Remaining(submitted, removed + {id})
  {
    if submitted != [] {
      var before, last := submitted[..|submitted| - 1], submitted[|submitted| - 1];
      RemoveOne(before, removed, id);
      WithoutConcat(Remaining(before, removed), if last.id in removed then [] else [last], id);
      assert Without([last], id) == (if last.id == id then [] else [last]) + Without([last][1..], id);
    }
  }

  lemma {:induction false} RemainingIn(submitted: seq<TextCommand>, removed: set<string>, command: TextCommand)
    ensures command in Remaining(submitted, removed) <==> command in submitted && command.id !in removed
  {
    if submitted != [] {
      RemainingIn(submitted[..|submitted| - 1], removed, command);
    }
  }

  /** The outbox is what was submitted, in submission order, less accepted commands. */
  ghost predicate OutboxInv(c: Client, removed: set<string>) {
    && c.outbox == Remaining(c.submitted, removed)
    && removed <= c.accepted
    && (forall id | id in c.leaving :: id in c.accepted)
    && (forall id | id in c.accepted :: exists i :: 0 <= i < |c.submitted| && c.submitted[i].id == id)
    && (forall r | r in c.pending :: c.pending[r].SubmitRequest? ==> c.pending[r].command in c.submitted)
  }

  predicate NoNewRequests(c: Client, c': Client) {
    forall r | r in c'.pending :: r in c.pending && c'.pending[r] == c.pending[r]
  }

  predicate SameOutbox(c: Client, c': Client) {
    c'.outbox == c.outbox && c'.submitted == c.submitted && c'.accepted == c.accepted && c'.leaving == c.leaving
  }

  lemma WaitKeepsOutbox(c: Client, handle: Handle, through: Option<nat>, owned: bool)
    requires handle < |c.objects|
    ensures SameOutbox(c, WaitForReplay(c, handle, through, owned)) && NoNewRequests(c, WaitForReplay(c, handle, through, owned))
  {
  }

  lemma FailKeepsOutbox(c: Client, socket: SocketId, handle: Handle, owned: bool)
    ensures SameOutbox(c, FailAttach(c, socket, handle, owned)) && NoNewRequests(c, FailAttach(c, socket, handle, owned))
  {
  }

  lemma DisconnectChangesNoRequest(c: Client, socket: SocketId)
    ensures SameOutbox(c, Disconnect(c, socket)) && NoNewRequests(c, Disconnect(c, socket))
  {
  }

  lemma AttachAnswerKeepsOutbox(c: Client, socket: SocketId, frame: Frame)
    requires frame.Attached? && frame.request in c.pending
    ensures NoNewRequests(c, Complete(c, socket, frame)) && SameOutbox(c, Complete(c, socket, frame))
  {
    var c' := c.(pending := c.pending - {frame.request});
    match c.pending[frame.request]
    case SubmitRequest(_) => DisconnectChangesNoRequest(c', socket);
    case AttachRequest(handle, owned) =>
      FailKeepsOutbox(c', socket, handle, owned);
      if handle < |c.objects| {
        WaitKeepsOutbox(c', handle, frame.through, owned);
      }
  }

  lemma OtherFramesKeepOutbox(c: Client, socket: SocketId, frame: Frame)
    requires !frame.CommandAccepted?
    ensures NoNewRequests(c, Complete(c, socket, frame)) && SameOutbox(c, Complete(c, socket, frame))
  {
    DisconnectChangesNoRequest(c, socket);
    if frame.Attached? && frame.request in c.pending {
      AttachAnswerKeepsOutbox(c, socket, frame);
    }
  }

  lemma AcceptedFrame(c: Client, socket: SocketId, request: RequestId, id: string)
    ensures var c' := Complete(c, socket, CommandAccepted(request, id));
      && NoNewRequests(c, c')
      && (SameOutbox(c, c') ||
          (&& request in c.pending && c.pending[request].SubmitRequest? && c.pending[request].command.id == id
           && c'.outbox == c.outbox && c'.submitted == c.submitted
           && c'.accepted == c.accepted + {id} && c'.leaving == c.leaving + multiset{id}))
  {
  }

  lemma FramesKeepOutbox(c: Client, socket: SocketId, frame: Frame, removed: set<string>)
    requires OutboxInv(c, removed)
    ensures OutboxInv(Complete(c, socket, frame), removed)
  {
    if frame.CommandAccepted? {
      AcceptedFrame(c, socket, frame.request, frame.id);
      if frame.request in c.pending && c.pending[frame.request].SubmitRequest? {
        var i :| 0 <= i < |c.submitted| && c.submitted[i] == c.pending[frame.request].command;
        assert c.submitted[i].id == c.pending[frame.request].command.id;
      }
    } else {
      OtherFramesKeepOutbox(c, socket, frame);
    }
  }

  predicate NoNewSubmits(c: Client, c': Client) {
    forall r | r in c'.pending && c'.pending[r].SubmitRequest? :: r in c.pending && c'.pending[r] == c.pending[r]
  }

  lemma TakeKeepsOutbox(c: Client, reading: Reading, cursor: Option<nat>)
    requires reading.handle < |c.objects|
    ensures SameOutbox(c, TakeCursor(c, reading, cursor)) && NoNewSubmits(c, TakeCursor(c, reading, cursor))
  {
  }

  lemma OtherStepsKeepOutbox(c: Client, input: Input)
    requires Step(c, input).Some?
    requires !input.NextReceive? && !input.SubmitText? && !input.RetryCommand? && !input.RemoveAccepted? && !input.Crash?
    ensures SameOutbox(c, Step(c, input).value) && NoNewSubmits(c, Step(c, input).value)
  {
    match input
    case CursorTaken(reading, cursor) => TakeKeepsOutbox(c, reading, cursor);
    case Close(socket) => DisconnectKeepsOutbox(c, socket);
    case ApplyThrows => DisconnectKeepsOutbox(c.(receiving := Quiet), c.receiving.socket);
    case ApplyReturns => assert Step(c, input).value == StoreCursor(c);
    case CursorFollows => FinishKeepsOutbox(c);
    case _ =>
  }

  lemma DisconnectKeepsOutbox(c: Client, socket: SocketId)
    ensures SameOutbox(c, Disconnect(c, socket)) && NoNewSubmits(c, Disconnect(c, socket))
  {
  }

  lemma FinishKeepsOutbox(c: Client)
    requires c.receiving.Stored? && c.receiving.handle < |c.objects|
    ensures SameOutbox(c, FinishReceive(c)) && NoNewSubmits(c, FinishReceive(c))
  {
  }

  lemma SameOutboxKeeps(c: Client, c': Client, removed: set<string>)
    requires OutboxInv(c, removed) && SameOutbox(c, c') && NoNewSubmits(c, c')
    ensures OutboxInv(c', removed)
  {
  }

  lemma RetryKeepsOutbox(c: Client, index: nat, removed: set<string>)
    requires OutboxInv(c, removed) && index < |c.outbox|
    ensures OutboxInv(Send(c, c.outbox[index]), removed)
  {
    RemainingIn(c.submitted, removed, c.outbox[index]);
  }

  lemma StepKeepsOutbox(c: Client, input: Input, removed: set<string>) returns (removed': set<string>)
    requires OutboxInv(c, removed) && Step(c, input).Some?
    ensures OutboxInv(Step(c, input).value, removed')
  {
    removed' := removed;
    match input
    case NextReceive => FramesKeepOutbox(c.(queue := c.queue[1..]), c.queue[0].0, c.queue[0].1, removed);
    case SubmitText(command) => SubmitKeepsOutbox(c, command, removed);
    case RetryCommand(index) => RetryKeepsOutbox(c, index, removed);
    case RemoveAccepted(id) =>
      RemoveOne(c.submitted, removed, id);
      removed' := removed + {id};
    case Crash =>
    case _ =>
      OtherStepsKeepOutbox(c, input);
      SameOutboxKeeps(c, Step(c, input).value, removed);
  }

  lemma SubmitKeepsOutbox(c: Client, command: TextCommand, removed: set<string>)
    requires OutboxInv(c, removed) && Step(c, SubmitText(command)).Some?
    ensures OutboxInv(Step(c, SubmitText(command)).value, removed)
  {
    var submitted := c.submitted + [command];
    assert submitted[..|c.submitted|] == c.submitted;
    forall id | id in c.accepted ensures exists i :: 0 <= i < |submitted| && submitted[i].id == id {
      var i :| 0 <= i < |c.submitted| && c.submitted[i].id == id;
      assert submitted[i].id == id;
    }
  }

  lemma {:induction false} RunKeepsOutbox(inputs: seq<Input>) returns (removed: set<string>)
    requires Run(inputs).Some?
    ensures OutboxInv(Run(inputs).value, removed)
  {
    if inputs == [] {
      removed := {};
    } else {
      removed := RunKeepsOutbox(inputs[..|inputs| - 1]);
      removed := StepKeepsOutbox(Run(inputs[..|inputs| - 1]).value, inputs[|inputs| - 1], removed);
    }
  }

  /** No submitted command is lost over disconnects, retries and crashes: it is in
      the outbox until the coordinator has accepted exactly that command, and the
      outbox keeps submission order. */
  lemma CommandsSurvive(inputs: seq<Input>, i: nat)
    requires Run(inputs).Some? && i < |Run(inputs).value.submitted|
    ensures var c := Run(inputs).value; c.submitted[i] in c.outbox || c.submitted[i].id in c.accepted
    ensures var c := Run(inputs).value;
      exists removed :: removed <= c.accepted && c.outbox == Remaining(c.submitted, removed)
  {
    var removed := RunKeepsOutbox(inputs);
    RemainingIn(Run(inputs).value.submitted, removed, Run(inputs).value.submitted[i]);
  }
}
