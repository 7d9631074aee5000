/** The order in which events are handed to `apply`, over every run. */
module SurfaceOrder {
  import opened Base
  import opened SurfaceState
  import opened SurfaceClient
  import opened SurfaceRuns

  // The sequences handed to `apply` -----------------------------------------

  /** The sequences handed to `apply` for one task, in order. */
  function Handed(deliveries: seq<Delivery>, task: Task): seq<nat> {
    if deliveries == [] then []
    else
      var last := deliveries[|deliveries| - 1];
      Handed(deliveries[..|deliveries| - 1], task) + (if last.task == task then [last.sequence] else [])
  }

  /** Starts at 0, and each is the previous one or its successor. */
  predicate InOrder(sequences: seq<nat>) {
    && (sequences != [] ==> sequences[0] == 0)
    && (forall i | 0 < i < |sequences| :: sequences[i] == sequences[i - 1] || sequences[i] == sequences[i - 1] + 1)
  }

  function Last(deliveries: seq<Delivery>, task: Task): Option<nat> {
    var handed := Handed(deliveries, task);
    if handed == [] then None else Some(handed[|handed| - 1])
  }

  /** One more delivery keeps the order exactly when it repeats the last one or is the next. */
  lemma HandOne(deliveries: seq<Delivery>, delivery: Delivery, task: Task)
    requires InOrder(Handed(deliveries, task))
    ensures InOrder(Handed(deliveries + [delivery], task)) <==>
      (delivery.task == task ==>
         delivery.sequence == Successor(Last(deliveries, task)) || Last(deliveries, task) == Some(delivery.sequence))
    ensures Last(deliveries + [delivery], task) == if delivery.task == task then Some(delivery.sequence) else Last(deliveries, task)
  {
    assert (deliveries + [delivery])[..|deliveries|] == deliveries;
    var handed := Handed(deliveries, task);
    if delivery.task == task {
      var more := handed + [delivery.sequence];
      assert forall i | 0 <= i < |handed| :: more[i] == handed[i];
      assert InOrder(more) && handed != [] ==> more[|handed|] == more[|handed| - 1] || more[|handed|] == more[|handed| - 1] + 1;
    }
  }

  // What keeps the order ----------------------------------------------------

  /** The receive in flight has stored its cursor and is about to set it on the object. */
  predicate AboutToSet(c: Client, handle: Handle) {
    c.receiving.Stored? && c.receiving.handle == handle
  }

  /** The cursor is the stored one, or one behind it when the stored event was the last
      that was handed over. */
  ghost predicate Near(c: Client, task: Task, cursor: Option<nat>) {
    || cursor == c.Stored(task)
    || (Some(Successor(cursor)) == c.Stored(task) && Last(c.deliveries, task) == c.Stored(task))
  }

  ghost predicate ReceivesLast(c: Client, task: Task) {
    var stored, last := c.Stored(task), Last(c.deliveries, task);
    && (c.receiving.Applying? && c.receiving.handle < |c.objects| && c.objects[c.receiving.handle].task == task ==>
          last == Some(c.receiving.sequence) && (c.receiving.sequence == Successor(stored) || stored == last))
    && (c.receiving.Stored? && c.receiving.handle < |c.objects| && c.objects[c.receiving.handle].task == task ==>
          last == Some(c.receiving.sequence) && stored == last)
  }

  ghost predicate TaskInv(c: Client, task: Task) {
    && InOrder(Handed(c.deliveries, task))
    && AtMost(c.Stored(task), Last(c.deliveries, task))
    && AtMost(Last(c.deliveries, task), Some(Successor(c.Stored(task))))
    && (task in c.attachments && c.attachments[task] < |c.objects| && !AboutToSet(c, c.attachments[task]) ==>
          Near(c, task, c.objects[c.attachments[task]].cursor))
    && ReceivesLast(c, task)
  }

  ghost predicate Ordered(c: Client) {
    forall task :: TaskInv(c, task)
  }

  /** An answer is used only while it is near what is stored, if its attachment counts. */
  ghost predicate TakesNear(c: Client, input: Input) {
    match input
    case AttachContinues(task, cursor) => Near(c, task, cursor)
    case CursorTaken(reading, cursor) =>
      c.Attached(reading.handle) && !AboutToSet(c, reading.handle) ==> Near(c, c.objects[reading.handle].task, cursor)
    case _ => true
  }

  lemma OrderedStays(c: Client, c': Client)
    requires Ordered(c) && SameCursors(c.objects, c'.objects)
    requires c'.cursors == c.cursors && c'.deliveries == c.deliveries
    requires c'.receiving == c.receiving || (c.receiving.Applying? && c'.receiving.Quiet?)
    requires forall task | task in c'.attachments :: task in c.attachments && c'.attachments[task] == c.attachments[task]
    ensures Ordered(c')
  {
    forall task ensures TaskInv(c', task) {
      assert TaskInv(c, task);
    }
  }

  lemma OrderedDisconnect(c: Client, socket: SocketId)
    requires Ordered(c)
    ensures Ordered(Disconnect(c, socket))
  {
    OrderedStays(c, Disconnect(c, socket));
  }

  lemma OrderedNew(c: Client, task: Task, cursor: Option<nat>)
    requires Shape(c) && Ordered(c) && Near(c, task, cursor)
    ensures Ordered(NewAttachment(c, task, cursor))
  {
    forall other ensures TaskInv(NewAttachment(c, task, cursor), other) {
      assert TaskInv(c, other);
    }
  }

  lemma OrderedTake(c: Client, reading: Reading, cursor: Option<nat>)
    requires Shape(c) && Ordered(c) && reading.handle < |c.objects| && TakesNear(c, CursorTaken(reading, cursor))
    ensures Ordered(TakeCursor(c, reading, cursor))
  {
    var c1 := UseAnswer(c, reading, cursor);
    forall task ensures TaskInv(c1, task) {
      assert TaskInv(c, task);
    }
    OrderedStays(c1, TakeCursor(c, reading, cursor));
  }

  lemma HandKeeps(c: Client, socket: SocketId, task: Task, other: Task)
    requires Shape(c) && TaskInv(c, task) && TaskInv(c, other) && c.receiving.Quiet? && task in c.attachments
    ensures var handle := c.attachments[task];
      var sequence := Successor(c.objects[handle].cursor);
      TaskInv(c.(receiving := Applying(socket, handle, sequence),
                 deliveries := c.deliveries + [Delivery(task, sequence, c.Stored(task))]), other)
  {
    var sequence := Successor(c.objects[c.attachments[task]].cursor);
    HandOne(c.deliveries, Delivery(task, sequence, c.Stored(task)), other);
  }

  lemma OrderedApply(c: Client, socket: SocketId, task: Task, sequence: nat)
    requires Shape(c) && Ordered(c) && c.receiving.Quiet?
    ensures Ordered(ApplyTaskEvent(c, socket, task, sequence))
  {
    var c' := ApplyTaskEvent(c, socket, task, sequence);
    OrderedDisconnect(c, socket);
    if c'.receiving.Applying? {
      forall other ensures TaskInv(c', other) {
        HandKeeps(c, socket, task, other);
      }
    }
  }

  /** Cursors, deliveries, the receive in flight and the attachments are as before. */
  predicate Steady(c: Client, c': Client) {
    && SameCursors(c.objects, c'.objects) && c'.cursors == c.cursors && c'.deliveries == c.deliveries
    && c'.receiving == c.receiving && c'.attachments == c.attachments
  }

  lemma DisconnectIsSteady(c: Client, socket: SocketId)
    ensures Steady(c, Disconnect(c, socket))
  {
  }

  lemma FailIsSteady(c: Client, socket: SocketId, handle: Handle, owned: bool)
    ensures Steady(c, FailAttach(c, socket, handle, owned))
  {
    DisconnectIsSteady(c, socket);
    if handle < |c.objects| {
      DisconnectIsSteady(c.(doomed := c.doomed + {c.objects[handle].task}), socket);
    }
  }

  lemma WaitIsSteady(c: Client, handle: Handle, through: Option<nat>, owned: bool)
    requires handle < |c.objects|
    ensures Steady(c, WaitForReplay(c, handle, through, owned))
  {
  }

  lemma AttachAnswerIsSteady(c: Client, socket: SocketId, frame: Frame)
    requires Shape(c) && (frame.Attached? || frame.CommandAccepted?) && frame.request in c.pending
    requires c.pending[frame.request].AttachRequest?
    ensures Steady(c, Complete(c, socket, frame))
  {
    var AttachRequest(handle, owned) := c.pending[frame.request];
    var c1 := c.(pending := c.pending - {frame.request});
    FailIsSteady(c1, socket, handle, owned);
    if frame.Attached? {
      WaitIsSteady(c1, handle, frame.through, owned);
    }
  }

  lemma AnswersAreSteady(c: Client, socket: SocketId, frame: Frame)
    requires Shape(c) && !frame.TaskEvent?
    ensures Steady(c, Complete(c, socket, frame))
  {
    DisconnectIsSteady(c, socket);
    if (frame.Attached? || frame.CommandAccepted?) && frame.request in c.pending {
      if c.pending[frame.request].AttachRequest? {
        AttachAnswerIsSteady(c, socket, frame);
      } else {
        DisconnectIsSteady(c.(pending := c.pending - {frame.request}), socket);
      }
    }
  }

  lemma OrderedReceive(c: Client)
    requires Shape(c) && Ordered(c) && c.receiving.Quiet? && c.queue != []
    ensures Ordered(Receive(c))
  {
    var (socket, frame) := c.queue[0];
    var c1 := c.(queue := c.queue[1..]);
    OrderedStays(c, c1);
    if frame.TaskEvent? {
      OrderedApply(c1, socket, frame.task, frame.sequence);
    } else {
      AnswersAreSteady(c1, socket, frame);
      OrderedStays(c1, Complete(c1, socket, frame));
    }
  }

  lemma OrderedStore(c: Client)
    requires Shape(c) && Ordered(c) && c.receiving.Applying?
    ensures Ordered(StoreCursor(c))
  {
    forall task ensures TaskInv(StoreCursor(c), task) {
      assert TaskInv(c, task);
    }
  }

  lemma OrderedFinish(c: Client)
    requires Shape(c) && Ordered(c) && c.receiving.Stored?
    ensures Ordered(FinishReceive(c))
  {
    forall task ensures TaskInv(FinishReceive(c), task) {
      assert TaskInv(c, task);
    }
  }

  lemma OrderedCrash(c: Client)
    requires Ordered(c)
    ensures Ordered(Step(c, Crash).value)
  {
    forall task ensures TaskInv(Step(c, Crash).value, task) {
      assert TaskInv(c, task);
    }
  }

  lemma StepKeepsOrder(c: Client, input: Input)
    requires Shape(c) && Ordered(c) && Step(c, input).Some? && TakesNear(c, input)
    ensures Ordered(Step(c, input).value)
  {
    match input
    case Close(socket) => OrderedDisconnect(c, socket);
    case NextReceive => OrderedReceive(c);
    case ApplyReturns => OrderedStore(c);
    case ApplyThrows =>
      OrderedStays(c, c.(receiving := Quiet));
      OrderedDisconnect(c.(receiving := Quiet), c.receiving.socket);
    case CursorFollows => OrderedFinish(c);
    case AttachRead(_) => OrderedStays(c, Step(c, input).value);
    case AttachContinues(task, cursor) => OrderedNew(c, task, cursor);
    case CursorRead(reading) => OrderedStays(c, AnswerRead(c, reading));
    case CursorTaken(reading, cursor) => OrderedTake(c, reading, cursor);
    case Crash => OrderedCrash(c);
    case _ =>
      QuietStepIsBookkeeping(c, input);
      OrderedStays(c, Step(c, input).value);
  }

  ghost predicate NearRun(inputs: seq<Input>) {
    inputs == [] ||
    (var before := inputs[..|inputs| - 1];
     NearRun(before) && (Run(before).Some? ==> TakesNear(Run(before).value, inputs[|inputs| - 1])))
  }

  lemma {:induction false} NearRunIsOrdered(inputs: seq<Input>)
    requires Run(inputs).Some? && NearRun(inputs)
    ensures Ordered(Run(inputs).value)
  {
    if inputs == [] {
      forall task ensures TaskInv(FRESH, task) {
      }
    } else {
      var before := inputs[..|inputs| - 1];
      NearRunIsOrdered(before);
      RunKeepsInv(before);
      StepKeepsOrder(Run(before).value, inputs[|inputs| - 1]);
    }
  }

  // And nothing else does ---------------------------------------------------

  /** The receive in flight, if any, is ended without storing anything or handing
      anything over; an object that is about to be set is not the one of the task. */
  lemma ThrowIsQuiet(c: Client, task: Task, cursor: Option<nat>)
    requires c.receiving.Applying? && StandsAt(c, task, cursor)
    ensures Step(c, ApplyThrows).Some?
    ensures var c' := Step(c, ApplyThrows).value;
      c'.receiving.Quiet? && StandsAt(c', task, cursor) && c'.cursors == c.cursors && c'.deliveries == c.deliveries
  {
    DisconnectIsSteady(c.(receiving := Quiet), c.receiving.socket);
  }

  lemma FollowIsQuiet(c: Client, task: Task, cursor: Option<nat>)
    requires Shape(c) && c.receiving.Stored? && StandsAt(c, task, cursor) && c.attachments[task] != c.receiving.handle
    ensures Step(c, CursorFollows).Some?
    ensures var c' := Step(c, CursorFollows).value;
      c'.receiving.Quiet? && StandsAt(c', task, cursor) && c'.cursors == c.cursors && c'.deliveries == c.deliveries
  {
  }

  lemma Quiesces(c: Client, task: Task, cursor: Option<nat>) returns (inputs: seq<Input>)
    requires Shape(c) && StandsAt(c, task, cursor) && !AboutToSet(c, c.attachments[task])
    ensures TakesNone(inputs) && RunFrom(c, inputs).Some?
    ensures var c' := RunFrom(c, inputs).value;
      c'.receiving.Quiet? && StandsAt(c', task, cursor) && c'.cursors == c.cursors && c'.deliveries == c.deliveries
  {
    match c.receiving
    case Quiet => inputs := [];
    case Applying(_, _, _) =>
      inputs := [ApplyThrows];
      RunFromOne(c, ApplyThrows);
      ThrowIsQuiet(c, task, cursor);
    case Stored(_, _, _) =>
      inputs := [CursorFollows];
      RunFromOne(c, CursorFollows);
      FollowIsQuiet(c, task, cursor);
  }

  /** From any state the server can make the client apply what follows the cursor of an
      attached task, unless that cursor is about to be set. */
  lemma HandsOverAnyway(c: Client, task: Task, cursor: Option<nat>) returns (inputs: seq<Input>)
    requires Shape(c) && StandsAt(c, task, cursor) && !AboutToSet(c, c.attachments[task])
    ensures TakesNone(inputs) && RunFrom(c, inputs).Some?
    ensures RunFrom(c, inputs).value.deliveries == c.deliveries + [Delivery(task, Successor(cursor), c.Stored(task))]
  {
    var quiet := Quiesces(c, task, cursor);
    var c1 := RunFrom(c, quiet).value;
    var handed := HandsOver(c1, task, cursor);
    RunFromConcat(c, quiet, handed);
    TakesNoneConcat(quiet, handed);
    inputs := quiet + handed;
  }

  /** Using an answer leaves the task standing at it, with all else in place. */
  ghost predicate Taken(c: Client, c': Client, task: Task, cursor: Option<nat>) {
    && Inv(c') && StandsAt(c', task, cursor) && !AboutToSet(c', c'.attachments[task])
    && c'.cursors == c.cursors && c'.deliveries == c.deliveries && c'.receiving == c.receiving
    && AtMost(cursor, c.Stored(task))
  }

  lemma NewStands(c: Client, task: Task, cursor: Option<nat>)
    requires Inv(c) && NewAnswer(task, cursor) in c.answers
    ensures Taken(c, NewAttachment(c, task, cursor), task, cursor)
  {
    NewAttachmentKeeps(c, task, cursor);
    assert AnswerBehind(c.cursors, c.objects, NewAnswer(task, cursor));
  }

  lemma ReadStands(c: Client, reading: Reading, cursor: Option<nat>)
    requires Inv(c) && ReadAnswer(reading, cursor) in c.answers && c.Attached(reading.handle) && !AboutToSet(c, reading.handle)
    ensures Taken(c, TakeCursor(c, reading, cursor), c.objects[reading.handle].task, cursor)
  {
    TakeCursorKeeps(c, reading, cursor);
    assert AnswerBehind(c.cursors, c.objects, ReadAnswer(reading, cursor));
  }

  /** The task an answer is for. */
  function TaskOf(c: Client, input: Input): Task
    requires Takes(input) && (input.CursorTaken? ==> input.reading.handle < |c.objects|)
  {
    if input.AttachContinues? then input.task else c.objects[input.reading.handle].task
  }

  /** The answer becomes the cursor that counts for its task. */
  predicate Counts(c: Client, input: Input) {
    || input.AttachContinues?
    || (input.CursorTaken? && c.Attached(input.reading.handle) && !AboutToSet(c, input.reading.handle))
  }

  lemma TakenStands(c: Client, input: Input)
    requires Inv(c) && Step(c, input).Some? && Counts(c, input)
    ensures Taken(c, Step(c, input).value, TaskOf(c, input), input.cursor)
  {
    if input.AttachContinues? {
      NewStands(c, input.task, input.cursor);
    } else {
      ReadStands(c, input.reading, input.cursor);
    }
  }

  lemma FarIsOutOfOrder(c: Client, task: Task, cursor: Option<nat>)
    requires TaskInv(c, task) && !Near(c, task, cursor) && AtMost(cursor, c.Stored(task))
    ensures !InOrder(Handed(c.deliveries + [Delivery(task, Successor(cursor), c.Stored(task))], task))
  {
    HandOne(c.deliveries, Delivery(task, Successor(cursor), c.Stored(task)), task);
  }

  lemma FarLeadsAstray(c: Client, input: Input) returns (task: Task, rest: seq<Input>)
    requires Inv(c) && Ordered(c) && Step(c, input).Some? && !TakesNear(c, input)
    ensures TakesNone(rest) && RunFrom(Step(c, input).value, rest).Some?
    ensures !InOrder(Handed(RunFrom(Step(c, input).value, rest).value.deliveries, task))
  {
    task := TaskOf(c, input);
    TakenStands(c, input);
    rest := HandsOverAnyway(Step(c, input).value, task, input.cursor);
    assert TaskInv(c, task);
    FarIsOutOfOrder(c, task, input.cursor);
  }

  /** Some continuation of a prefix, without using another answer, hands out of order. */
  ghost predicate Astray(inputs: seq<Input>, n: nat, rest: seq<Input>, task: Task) {
    && n <= |inputs| && TakesNone(rest) && Run(inputs[..n] + rest).Some?
    && !InOrder(Handed(Run(inputs[..n] + rest).value.deliveries, task))
  }

  lemma {:induction false} NearContinues(inputs: seq<Input>, rest: seq<Input>)
    requires NearRun(inputs) && TakesNone(rest)
    ensures NearRun(inputs + rest)
    decreases |rest|
  {
    if rest == [] {
      assert inputs + rest == inputs;
    } else {
      assert (inputs + rest)[..|inputs + rest| - 1] == inputs + rest[..|rest| - 1];
      NearContinues(inputs, rest[..|rest| - 1]);
      assert !Takes(rest[|rest| - 1]);
    }
  }

  lemma {:induction false} NearPrefix(inputs: seq<Input>, n: nat)
    requires NearRun(inputs) && n <= |inputs|
    ensures NearRun(inputs[..n])
    decreases |inputs| - n
  {
    if n == |inputs| {
      assert inputs[..n] == inputs;
    } else {
      NearPrefix(inputs, n + 1);
      assert inputs[..n + 1][..n] == inputs[..n];
    }
  }

  lemma NearNeverAstray(inputs: seq<Input>, n: nat, rest: seq<Input>, task: Task)
    requires NearRun(inputs)
    ensures !Astray(inputs, n, rest, task)
  {
    if n <= |inputs| && TakesNone(rest) && Run(inputs[..n] + rest).Some? {
      NearPrefix(inputs, n);
      NearContinues(inputs[..n], rest);
      NearRunIsOrdered(inputs[..n] + rest);
      assert TaskInv(Run(inputs[..n] + rest).value, task);
    }
  }

  lemma {:induction false} FarGoesAstray(inputs: seq<Input>) returns (n: nat, rest: seq<Input>, task: Task)
    requires Run(inputs).Some? && !NearRun(inputs)
    ensures Astray(inputs, n, rest, task)
  {
    var before, last := inputs[..|inputs| - 1], inputs[|inputs| - 1];
    if NearRun(before) {
      NearRunIsOrdered(before);
      RunKeepsInv(before);
      task, rest := FarLeadsAstray(Run(before).value, last);
      RunConcat(inputs, rest);
      n := |inputs|;
      assert inputs[..n] == inputs;
    } else {
      n, rest, task := FarGoesAstray(before);
      assert before[..n] == inputs[..n];
    }
  }

  /** For any server and any store: no prefix of a run can go on, without using another
      answer of the store, to hand events to `apply` out of order, if and only if every
      answer was used while it was near what is stored. */
  lemma AppliesInOrder(inputs: seq<Input>)
    requires Run(inputs).Some?
    ensures NearRun(inputs) <==> !exists n, rest, task :: Astray(inputs, n, rest, task)
  {
    if NearRun(inputs) {
      forall n, rest, task ensures !Astray(inputs, n, rest, task) {
        NearNeverAstray(inputs, n, rest, task);
      }
    } else {
      var n, rest, task := FarGoesAstray(inputs);
    }
  }

  /** A store whose answers are used in the state they were read in. */
  predicate Synchronous(inputs: seq<Input>) {
    inputs == [] ||
    (var before := inputs[..|inputs| - 1];
     Synchronous(before) && (Run(before).Some? ==> TakesStored(Run(before).value, inputs[|inputs| - 1])))
  }

  predicate TakesStored(c: Client, input: Input) {
    match input
    case AttachContinues(task, cursor) => cursor == c.Stored(task)
    case CursorTaken(reading, cursor) => reading.handle < |c.objects| ==> cursor == c.Stored(c.objects[reading.handle].task)
    case _ => true
  }

  lemma {:induction false} SynchronousIsNear(inputs: seq<Input>)
    requires Synchronous(inputs)
    ensures NearRun(inputs)
  {
    if inputs != [] {
      SynchronousIsNear(inputs[..|inputs| - 1]);
    }
  }

  /** Over a synchronous store, and any server, nothing is ever skipped or applied out
      of order. */
  lemma SynchronousStoresApplyInOrder(inputs: seq<Input>, task: Task)
    requires Run(inputs).Some? && Synchronous(inputs)
    ensures InOrder(Handed(Run(inputs).value.deliveries, task))
  {
    SynchronousIsNear(inputs);
    NearRunIsOrdered(inputs);
    assert TaskInv(Run(inputs).value, task);
  }
}
