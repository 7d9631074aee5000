/** What every run of the continuity client keeps, over disconnects, reconnects,
    crashes, any server and any store. */
module SurfaceRuns {
  import opened Base
  import opened SurfaceState
  import opened SurfaceClient

  // Invariant ---------------------------------------------------------------

  predicate AttachmentsOk(attachments: map<Task, Handle>, objects: seq<Attachment>) {
    forall task | task in attachments :: attachments[task] < |objects| && objects[attachments[task]].task == task
  }

  predicate PendingOk(pending: map<RequestId, Pending>, length: nat) {
    forall r | r in pending :: pending[r].AttachRequest? ==> pending[r].handle < length
  }

  predicate ReadsOk(waiting: multiset<Reading>, answers: multiset<Answer>, length: nat) {
    && (forall reading | reading in waiting :: reading.handle < length)
    && (forall answer | answer in answers :: answer.ReadAnswer? ==> answer.reading.handle < length)
  }

  /** Handles in use denote attachment objects of this process. */
  predicate Shape(c: Client) {
    && AttachmentsOk(c.attachments, c.objects)
    && (!c.receiving.Quiet? ==> c.receiving.handle < |c.objects|)
    && PendingOk(c.pending, |c.objects|)
    && ReadsOk(c.waiting, c.answers, |c.objects|)
  }

  /** An answer of the store is not ahead of what is stored. */
  predicate AnswerBehind(cursors: map<Task, nat>, objects: seq<Attachment>, answer: Answer) {
    match answer
    case NewAnswer(task, cursor) => AtMost(cursor, CursorIn(cursors, task))
    case ReadAnswer(reading, cursor) =>
      reading.handle < |objects| ==> AtMost(cursor, CursorIn(cursors, objects[reading.handle].task))
  }

  /** No cursor and no answer is ahead of what is stored. */
  predicate Behind(cursors: map<Task, nat>, objects: seq<Attachment>, answers: multiset<Answer>) {
    && (forall o | 0 <= o < |objects| :: AtMost(objects[o].cursor, CursorIn(cursors, objects[o].task)))
    && (forall answer | answer in answers :: AnswerBehind(cursors, objects, answer))
  }

  /** A receive in flight is at most one ahead of the stored cursor. */
  predicate ReceivingBehind(cursors: map<Task, nat>, objects: seq<Attachment>, receiving: Receiving) {
    match receiving
    case Quiet => true
    case Applying(_, handle, sequence) =>
      handle < |objects| ==> sequence <= Successor(CursorIn(cursors, objects[handle].task))
    case Stored(_, handle, sequence) =>
      handle < |objects| ==> AtMost(Some(sequence), CursorIn(cursors, objects[handle].task))
  }

  predicate Reached(resolutions: seq<Resolution>) {
    forall i | 0 <= i < |resolutions| :: AtMost(resolutions[i].through, resolutions[i].stored)
  }

  predicate Inv(c: Client) {
    && Shape(c)
    && Behind(c.cursors, c.objects, c.answers)
    && ReceivingBehind(c.cursors, c.objects, c.receiving)
    && Reached(c.resolutions)
  }

  /** The same attachment objects, up to the replays someone waits for. */
  predicate SameCursors(a: seq<Attachment>, b: seq<Attachment>) {
    |a| == |b| && forall o | 0 <= o < |a| :: a[o].task == b[o].task && a[o].cursor == b[o].cursor
  }

  lemma BehindStays(
    cursors: map<Task, nat>, objects: seq<Attachment>, answers: multiset<Answer>, objects': seq<Attachment>,
    answers': multiset<Answer>)
    requires Behind(cursors, objects, answers) && SameCursors(objects, objects')
    requires forall answer | answer in answers' :: answer in answers
    ensures Behind(cursors, objects', answers')
  {
    forall answer | answer in answers' ensures AnswerBehind(cursors, objects', answer) {
      assert AnswerBehind(cursors, objects, answer);
    }
  }

  /** Steps that leave cursors and answers alone. */
  lemma Bookkeeping(c: Client, c': Client)
    requires Inv(c) && Shape(c') && SameCursors(c.objects, c'.objects)
    requires c'.cursors == c.cursors && c'.resolutions == c.resolutions && c'.answers == c.answers
    requires c'.receiving == c.receiving || c'.receiving.Quiet?
    ensures Inv(c')
  {
    BehindStays(c.cursors, c.objects, c.answers, c'.objects, c'.answers);
  }

  lemma DisconnectKeeps(c: Client, socket: SocketId)
    requires Inv(c)
    ensures Inv(Disconnect(c, socket))
  {
    if c.socket == Some(socket) {
      Bookkeeping(c, Disconnect(c, socket));
    }
  }

  lemma NewAttachmentKeeps(c: Client, task: Task, cursor: Option<nat>)
    requires Inv(c) && NewAnswer(task, cursor) in c.answers
    ensures Inv(NewAttachment(c, task, cursor))
  {
    var c' := NewAttachment(c, task, cursor);
    assert AnswerBehind(c.cursors, c.objects, NewAnswer(task, cursor));
    forall answer | answer in c'.answers ensures AnswerBehind(c'.cursors, c'.objects, answer) {
      assert answer in c.answers && AnswerBehind(c.cursors, c.objects, answer);
    }
  }

  lemma AnswerAdded(c: Client, answer: Answer)
    requires Inv(c) && AnswerBehind(c.cursors, c.objects, answer)
    ensures Behind(c.cursors, c.objects, c.answers + multiset{answer})
  {
    forall other | other in c.answers + multiset{answer} ensures AnswerBehind(c.cursors, c.objects, other) {
      assert other in c.answers ==> AnswerBehind(c.cursors, c.objects, other);
    }
  }

  lemma AnswerReadKeeps(c: Client, reading: Reading)
    requires Inv(c) && reading in c.waiting
    ensures Inv(AnswerRead(c, reading))
  {
    AnswerAdded(c, ReadAnswer(reading, c.Stored(c.objects[reading.handle].task)));
  }

  lemma BehindTaken(
    cursors: map<Task, nat>, objects: seq<Attachment>, answers: multiset<Answer>, reading: Reading, cursor: Option<nat>)
    requires Behind(cursors, objects, answers) && ReadAnswer(reading, cursor) in answers && reading.handle < |objects|
    ensures Behind(cursors, objects[reading.handle := objects[reading.handle].(cursor := cursor)],
                   answers - multiset{ReadAnswer(reading, cursor)})
  {
    var objects' := objects[reading.handle := objects[reading.handle].(cursor := cursor)];
    assert AnswerBehind(cursors, objects, ReadAnswer(reading, cursor));
    forall answer | answer in answers - multiset{ReadAnswer(reading, cursor)} ensures AnswerBehind(cursors, objects', answer) {
      assert answer in answers && AnswerBehind(cursors, objects, answer);
    }
  }

  lemma UseAnswerKeeps(c: Client, reading: Reading, cursor: Option<nat>)
    requires Inv(c) && ReadAnswer(reading, cursor) in c.answers
    ensures Inv(UseAnswer(c, reading, cursor))
  {
    BehindTaken(c.cursors, c.objects, c.answers, reading, cursor);
  }

  lemma TakeCursorKeeps(c: Client, reading: Reading, cursor: Option<nat>)
    requires Inv(c) && ReadAnswer(reading, cursor) in c.answers
    ensures Inv(TakeCursor(c, reading, cursor))
  {
    UseAnswerKeeps(c, reading, cursor);
    AskKeeps(UseAnswer(c, reading, cursor), reading);
  }

  lemma AskKeeps(c: Client, reading: Reading)
    requires Inv(c) && reading.handle < |c.objects|
    ensures Inv(AskFollowing(c, reading))
  {
  }

  lemma WaitForReplayKeeps(c: Client, handle: Handle, through: Option<nat>, owned: bool)
    requires Inv(c) && handle < |c.objects|
    ensures Inv(WaitForReplay(c, handle, through, owned))
  {
    if !AtMost(through, c.objects[handle].cursor) {
      Bookkeeping(c, WaitForReplay(c, handle, through, owned));
    }
  }

  lemma ApplyTaskEventKeeps(c: Client, socket: SocketId, task: Task, sequence: nat)
    requires Inv(c) && c.receiving.Quiet?
    ensures Inv(ApplyTaskEvent(c, socket, task, sequence))
  {
    DisconnectKeeps(c, socket);
  }

  lemma CompleteKeeps(c: Client, socket: SocketId, frame: Frame)
    requires Inv(c) && c.receiving.Quiet?
    ensures Inv(Complete(c, socket, frame))
  {
    DisconnectKeeps(c, socket);
    match frame
    case TaskEvent(task, sequence) => ApplyTaskEventKeeps(c, socket, task, sequence);
    case Malformed =>
    case RequestError(request) => RefusalKeeps(c, socket, request);
    case CommandAccepted(_, _) => AnswerKeeps(c, socket, frame);
    case Attached(_, _, _) => AnswerKeeps(c, socket, frame);
  }

  lemma AnswerKeeps(c: Client, socket: SocketId, frame: Frame)
    requires Inv(c) && (frame.CommandAccepted? || frame.Attached?)
    ensures Inv(Complete(c, socket, frame))
  {
    DisconnectKeeps(c, socket);
    if frame.request in c.pending {
      if c.pending[frame.request].SubmitRequest? {
        SubmitAnswerKeeps(c, socket, frame);
      } else {
        AttachAnswerKeeps(c, socket, frame);
      }
    }
  }

  lemma PendingLess(pending: map<RequestId, Pending>, request: RequestId, length: nat)
    requires PendingOk(pending, length)
    ensures PendingOk(pending - {request}, length)
  {
  }

  lemma AnsweredKeeps(c: Client, request: RequestId)
    requires Inv(c)
    ensures Inv(c.(pending := c.pending - {request}))
  {
    PendingLess(c.pending, request, |c.objects|);
  }

  lemma DoomedKeeps(c: Client, doomed: set<Task>)
    requires Inv(c)
    ensures Inv(c.(doomed := doomed))
  {
  }

  lemma RefusalKeeps(c: Client, socket: SocketId, request: RequestId)
    requires Inv(c)
    ensures Inv(Complete(c, socket, RequestError(request)))
  {
    DisconnectKeeps(c, socket);
    AnsweredKeeps(c, request);
    if request in c.pending && c.pending[request].AttachRequest? {
      DoomedKeeps(c.(pending := c.pending - {request}), c.doomed + {c.objects[c.pending[request].handle].task});
    }
  }

  lemma SubmitAnswerKeeps(c: Client, socket: SocketId, frame: Frame)
    requires Inv(c) && (frame.CommandAccepted? || frame.Attached?) && frame.request in c.pending
    requires c.pending[frame.request].SubmitRequest?
    ensures Inv(Complete(c, socket, frame))
  {
    AnsweredKeeps(c, frame.request);
    DisconnectKeeps(c.(pending := c.pending - {frame.request}), socket);
  }

  lemma AttachAnswerKeeps(c: Client, socket: SocketId, frame: Frame)
    requires Inv(c) && (frame.CommandAccepted? || frame.Attached?) && frame.request in c.pending
    requires c.pending[frame.request].AttachRequest?
    ensures Inv(Complete(c, socket, frame))
  {
    var AttachRequest(handle, owned) := c.pending[frame.request];
    var c1 := c.(pending := c.pending - {frame.request});
    AnsweredKeeps(c, frame.request);
    FailAttachKeeps(c1, socket, handle, owned);
    if frame.Attached? {
      WaitForReplayKeeps(c1, handle, frame.through, owned);
    }
  }

  lemma FailAttachKeeps(c: Client, socket: SocketId, handle: Handle, owned: bool)
    requires Inv(c)
    ensures Inv(FailAttach(c, socket, handle, owned))
  {
    DisconnectKeeps(c, socket);
    if handle < |c.objects| {
      DoomedKeeps(c, c.doomed + {c.objects[handle].task});
      DisconnectKeeps(c.(doomed := c.doomed + {c.objects[handle].task}), socket);
    }
  }

  /** Storing a cursor leaves everything behind it that was. */
  lemma StoreCursorKeeps(c: Client)
    requires Inv(c) && c.receiving.Applying?
    ensures Inv(StoreCursor(c))
  {
    var c' := StoreCursor(c);
    assert forall task :: AtMost(CursorIn(c.cursors, task), CursorIn(c'.cursors, task));
    forall answer | answer in c'.answers ensures AnswerBehind(c'.cursors, c'.objects, answer) {
      assert AnswerBehind(c.cursors, c.objects, answer);
    }
  }

  lemma FinishReceiveKeeps(c: Client)
    requires Inv(c) && c.receiving.Stored?
    ensures Inv(FinishReceive(c))
  {
    var c' := FinishReceive(c);
    forall answer | answer in c'.answers ensures AnswerBehind(c'.cursors, c'.objects, answer) {
      assert AnswerBehind(c.cursors, c.objects, answer);
    }
  }

  /** Steps that only keep the books. */
  predicate Quietly(input: Input) {
    || input.Connect? || input.Arrive? || input.CallAttach? || input.Reattach? || input.AttachFails?
    || input.SubmitText? || input.RetryCommand? || input.RemoveAccepted?
  }

  /** Nothing that cursors depend on has changed; attachments may have gone. */
  ghost predicate Unmoved(c: Client, c': Client) {
    && Shape(c') && c'.cursors == c.cursors && c'.deliveries == c.deliveries && c'.resolutions == c.resolutions
    && c'.objects == c.objects && c'.answers == c.answers && c'.receiving == c.receiving
    && (forall task | task in c'.attachments :: task in c.attachments && c'.attachments[task] == c.attachments[task])
  }

  lemma CommandStepIsBookkeeping(c: Client, input: Input)
    requires Shape(c) && Step(c, input).Some? && (input.SubmitText? || input.RetryCommand? || input.RemoveAccepted?)
    ensures Unmoved(c, Step(c, input).value)
  {
  }

  lemma ReattachIsBookkeeping(c: Client, task: Task)
    requires Shape(c) && Step(c, Reattach(task)).Some?
    ensures Unmoved(c, Step(c, Reattach(task)).value)
  {
  }

  lemma FailureIsBookkeeping(c: Client, task: Task)
    requires Shape(c) && Step(c, AttachFails(task)).Some?
    ensures Unmoved(c, Step(c, AttachFails(task)).value)
  {
  }

  lemma QuietStepIsBookkeeping(c: Client, input: Input)
    requires Shape(c) && Quietly(input) && Step(c, input).Some?
    ensures Unmoved(c, Step(c, input).value)
  {
    match input
    case Reattach(task) => ReattachIsBookkeeping(c, task);
    case AttachFails(task) => FailureIsBookkeeping(c, task);
    case SubmitText(_) => CommandStepIsBookkeeping(c, input);
    case RetryCommand(_) => CommandStepIsBookkeeping(c, input);
    case RemoveAccepted(_) => CommandStepIsBookkeeping(c, input);
    case _ =>
  }

  lemma AttachReadKeeps(c: Client, task: Task)
    requires Inv(c) && task in c.starting
    ensures Inv(Step(c, AttachRead(task)).value)
  {
    AnswerAdded(c, NewAnswer(task, c.Stored(task)));
  }

  lemma StepKeepsInv(c: Client, input: Input)
    requires Inv(c) && Step(c, input).Some?
    ensures Inv(Step(c, input).value)
  {
    match input
    case Close(socket) => DisconnectKeeps(c, socket);
    case NextReceive =>
      var c' := c.(queue := c.queue[1..]);
      Bookkeeping(c, c');
      CompleteKeeps(c', c.queue[0].0, c.queue[0].1);
    case ApplyReturns => StoreCursorKeeps(c);
    case ApplyThrows =>
      Bookkeeping(c, c.(receiving := Quiet));
      DisconnectKeeps(c.(receiving := Quiet), c.receiving.socket);
    case CursorFollows => FinishReceiveKeeps(c);
    case AttachRead(task) => AttachReadKeeps(c, task);
    case AttachContinues(task, cursor) => NewAttachmentKeeps(c, task, cursor);
    case CursorRead(reading) => AnswerReadKeeps(c, reading);
    case CursorTaken(reading, cursor) => TakeCursorKeeps(c, reading, cursor);
    case Crash =>
    case _ =>
      QuietStepIsBookkeeping(c, input);
      Bookkeeping(c, Step(c, input).value);
  }

  /** Over every run: no cursor and no answer of the store is ahead of what is stored. */
  lemma {:induction false} RunKeepsInv(inputs: seq<Input>)
    requires Run(inputs).Some?
    ensures Inv(Run(inputs).value)
  {
    if inputs != [] {
      RunKeepsInv(inputs[..|inputs| - 1]);
      StepKeepsInv(Run(inputs[..|inputs| - 1]).value, inputs[|inputs| - 1]);
    }
  }

  /** An attach resolves only once the stored cursor has reached what it waited for. */
  lemma AttachResolvesWhenStored(inputs: seq<Input>, i: nat)
    requires Run(inputs).Some? && i < |Run(inputs).value.resolutions|
    ensures var resolution := Run(inputs).value.resolutions[i]; AtMost(resolution.through, resolution.stored)
  {
    RunKeepsInv(inputs);
  }

  // Continuing a run --------------------------------------------------------

  function RunFrom(c: Client, inputs: seq<Input>): Option<Client> {
    if inputs == [] then Some(c)
    else
      match RunFrom(c, inputs[..|inputs| - 1])
      case None => None
      case Some(last) => Step(last, inputs[|inputs| - 1])
  }

  lemma RunSnoc(inputs: seq<Input>, input: Input)
    requires Run(inputs).Some?
    ensures Run(inputs + [input]) == Step(Run(inputs).value, input)
  {
    assert (inputs + [input])[..|inputs|] == inputs;
  }

  lemma {:induction false} PrefixRuns(inputs: seq<Input>, n: nat)
    requires Run(inputs).Some? && n <= |inputs|
    ensures Run(inputs[..n]).Some?
    decreases |inputs| - n
  {
    if n == |inputs| {
      assert inputs[..n] == inputs;
    } else {
      PrefixRuns(inputs, n + 1);
      assert inputs[..n + 1][..n] == inputs[..n];
    }
  }

  lemma {:induction false} RunConcat(before: seq<Input>, after: seq<Input>)
    requires Run(before).Some?
    ensures Run(before + after) == RunFrom(Run(before).value, after)
    decreases |after|
  {
    if after == [] {
      assert before + after == before;
    } else {
      assert (before + after)[..|before + after| - 1] == before + after[..|after| - 1];
      RunConcat(before, after[..|after| - 1]);
    }
  }

  lemma {:induction false} RunFromConcat(c: Client, a: seq<Input>, b: seq<Input>)
    requires RunFrom(c, a).Some?
    ensures RunFrom(c, a + b) == RunFrom(RunFrom(c, a).value, b)
    decreases |b|
  {
    if b == [] {
      assert a + b == a;
    } else {
      assert (a + b)[..|a + b| - 1] == a + b[..|b| - 1];
      RunFromConcat(c, a, b[..|b| - 1]);
    }
  }

  lemma RunFromOne(c: Client, input: Input)
    ensures RunFrom(c, [input]) == Step(c, input)
  {
    assert [input][..0] == [];
  }

  /** An answer of the store is put to use. */
  predicate Takes(input: Input) {
    input.AttachContinues? || input.CursorTaken?
  }

  predicate TakesNone(inputs: seq<Input>) {
    forall i | 0 <= i < |inputs| :: !Takes(inputs[i])
  }

  lemma TakesNoneConcat(a: seq<Input>, b: seq<Input>)
    requires TakesNone(a) && TakesNone(b)
    ensures TakesNone(a + b)
  {
  }

  /** Without a connection, queued frames are dropped one by one. */
  lemma {:induction false} Drain(c: Client) returns (inputs: seq<Input>)
    requires c.receiving.Quiet? && c.socket.None?
    ensures TakesNone(inputs) && RunFrom(c, inputs) == Some(c.(queue := []))
    decreases |c.queue|
  {
    if c.queue == [] {
      inputs := [];
      assert c == c.(queue := []);
    } else {
      var rest := Drain(c.(queue := c.queue[1..]));
      RunFromOne(c, NextReceive);
      RunFromConcat(c, [NextReceive], rest);
      inputs := [NextReceive] + rest;
    }
  }

  /** The task is attached, and its cursor is `cursor`. */
  predicate StandsAt(c: Client, task: Task, cursor: Option<nat>) {
    task in c.attachments && c.attachments[task] < |c.objects| && c.objects[c.attachments[task]].cursor == cursor
  }

  lemma Reconnects(c: Client, task: Task, cursor: Option<nat>) returns (inputs: seq<Input>)
    requires c.receiving.Quiet? && StandsAt(c, task, cursor)
    ensures TakesNone(inputs) && RunFrom(c, inputs).Some?
    ensures var c' := RunFrom(c, inputs).value;
      && c'.socket == Some(c.nextSocket) && c'.nextSocket == c.nextSocket + 1 && c'.queue == [] && c'.receiving.Quiet?
      && StandsAt(c', task, cursor) && c'.cursors == c.cursors && c'.deliveries == c.deliveries
  {
    var closed, c1 := [], c;
    if c.socket.Some? {
      closed := [Close(c.socket.value)];
      RunFromOne(c, Close(c.socket.value));
      c1 := Disconnect(c, c.socket.value);
    }
    assert RunFrom(c, closed) == Some(c1);
    var drained := Drain(c1);
    RunFromConcat(c, closed, drained);
    RunFromConcat(c, closed + drained, [Connect]);
    RunFromOne(c1.(queue := []), Connect);
    inputs := closed + drained + [Connect];
  }

  /** From a quiet state the server can make the client apply what follows the cursor
      of any attached task. */
  lemma HandsOver(c: Client, task: Task, cursor: Option<nat>) returns (inputs: seq<Input>)
    requires c.receiving.Quiet? && StandsAt(c, task, cursor)
    ensures TakesNone(inputs) && RunFrom(c, inputs).Some?
    ensures RunFrom(c, inputs).value.deliveries == c.deliveries + [Delivery(task, Successor(cursor), c.Stored(task))]
  {
    var connected := Reconnects(c, task, cursor);
    var c1 := RunFrom(c, connected).value;
    var event := TaskEvent(task, Successor(cursor));
    var c2 := c1.(queue := [(c.nextSocket, event)]);
    assert c1.queue + [(c.nextSocket, event)] == c2.queue;
    RunFromOne(c1, Arrive(c.nextSocket, event));
    assert Step(c1, Arrive(c.nextSocket, event)) == Some(c2);
    RunFromConcat(c, connected, [Arrive(c.nextSocket, event)]);
    RunFromOne(c2, NextReceive);
    assert c2.queue[1..] == [];
    RunFromConcat(c, connected + [Arrive(c.nextSocket, event)], [NextReceive]);
    inputs := connected + [Arrive(c.nextSocket, event)] + [NextReceive];
  }
}
