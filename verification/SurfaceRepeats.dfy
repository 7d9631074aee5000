/** When an event is applied again although its cursor was stored, over every run. */
module SurfaceRepeats {
  import opened Base
  import opened SurfaceState
  import opened SurfaceClient
  import opened SurfaceRuns
  import opened SurfaceOrder

  /** A delivery whose sequence was stored already when it was made. */
  predicate Late(delivery: Delivery) {
    AtMost(Some(delivery.sequence), delivery.stored)
  }

  predicate NoneLate(deliveries: seq<Delivery>) {
    forall i | 0 <= i < |deliveries| :: !Late(deliveries[i])
  }

  // What keeps repeats early ------------------------------------------------

  /** `apply` runs for an event of the task. */
  predicate AppliesFor(c: Client, task: Task) {
    c.receiving.Applying? && c.receiving.handle < |c.objects| && c.objects[c.receiving.handle].task == task
  }

  /** An answer that will count is what is stored, and a new attachment is not set up
      while `apply` runs for its task. */
  predicate TakesCurrent(c: Client, input: Input) {
    match input
    case AttachContinues(task, cursor) => cursor == c.Stored(task) && !AppliesFor(c, task)
    case CursorTaken(reading, cursor) => Counts(c, input) ==> cursor == c.Stored(c.objects[reading.handle].task)
    case _ => true
  }

  predicate Current(c: Client, task: Task) {
    task in c.attachments && c.attachments[task] < |c.objects| ==>
      c.objects[c.attachments[task]].cursor == c.Stored(task) || AboutToSet(c, c.attachments[task])
  }

  /** The receive in flight applies what follows the stored cursor; its object is the
      attached one of its task, or the task is not attached at all. */
  predicate ReceivesNext(c: Client) {
    c.receiving.Applying? && c.receiving.handle < |c.objects| ==>
      var task := c.objects[c.receiving.handle].task;
      && c.receiving.sequence == Successor(c.Stored(task))
      && (task in c.attachments ==> c.attachments[task] == c.receiving.handle)
  }

  /** And what it has stored is what is stored. */
  predicate SetsStored(c: Client) {
    c.receiving.Stored? && c.receiving.handle < |c.objects| ==>
      c.Stored(c.objects[c.receiving.handle].task) == Some(c.receiving.sequence)
  }

  ghost predicate Clean(c: Client) {
    NoneLate(c.deliveries) && (forall task :: Current(c, task)) && ReceivesNext(c) && SetsStored(c)
  }

  lemma CleanStays(c: Client, c': Client)
    requires Clean(c) && SameCursors(c.objects, c'.objects)
    requires c'.cursors == c.cursors && c'.deliveries == c.deliveries
    requires c'.receiving == c.receiving || (c.receiving.Applying? && c'.receiving.Quiet?)
    requires forall task | task in c'.attachments :: task in c.attachments && c'.attachments[task] == c.attachments[task]
    ensures Clean(c')
  {
    forall task ensures Current(c', task) {
      assert Current(c, task);
    }
  }

  lemma CleanDisconnect(c: Client, socket: SocketId)
    requires Clean(c)
    ensures Clean(Disconnect(c, socket))
  {
    DisconnectIsSteady(c, socket);
    CleanStays(c, Disconnect(c, socket));
  }

  lemma CleanNew(c: Client, task: Task, cursor: Option<nat>)
    requires Shape(c) && Clean(c) && TakesCurrent(c, AttachContinues(task, cursor))
    ensures Clean(NewAttachment(c, task, cursor))
  {
    forall other ensures Current(NewAttachment(c, task, cursor), other) {
      assert Current(c, other);
    }
  }

  lemma CleanUse(c: Client, reading: Reading, cursor: Option<nat>)
    requires Shape(c) && Clean(c) && reading.handle < |c.objects| && TakesCurrent(c, CursorTaken(reading, cursor))
    ensures Clean(UseAnswer(c, reading, cursor))
  {
    forall task ensures Current(UseAnswer(c, reading, cursor), task) {
      assert Current(c, task);
    }
  }

  lemma CleanTake(c: Client, reading: Reading, cursor: Option<nat>)
    requires Shape(c) && Clean(c) && reading.handle < |c.objects| && TakesCurrent(c, CursorTaken(reading, cursor))
    ensures Clean(TakeCursor(c, reading, cursor))
  {
    CleanUse(c, reading, cursor);
    CleanStays(UseAnswer(c, reading, cursor), TakeCursor(c, reading, cursor));
  }

  lemma CleanHand(c: Client, socket: SocketId, task: Task)
    requires Shape(c) && Clean(c) && c.receiving.Quiet? && task in c.attachments
    ensures var handle := c.attachments[task];
      var sequence := Successor(c.objects[handle].cursor);
      Clean(c.(receiving := Applying(socket, handle, sequence),
               deliveries := c.deliveries + [Delivery(task, sequence, c.Stored(task))]))
  {
    assert Current(c, task);
    var handle := c.attachments[task];
    var sequence := Successor(c.objects[handle].cursor);
    var c' := c.(receiving := Applying(socket, handle, sequence),
                 deliveries := c.deliveries + [Delivery(task, sequence, c.Stored(task))]);
    forall other ensures Current(c', other) {
      assert Current(c, other);
    }
  }

  lemma CleanApply(c: Client, socket: SocketId, task: Task, sequence: nat)
    requires Shape(c) && Clean(c) && c.receiving.Quiet?
    ensures Clean(ApplyTaskEvent(c, socket, task, sequence))
  {
    CleanDisconnect(c, socket);
    if task in c.attachments {
      CleanHand(c, socket, task);
    }
  }

  lemma CleanReceive(c: Client)
    requires Shape(c) && Clean(c) && c.receiving.Quiet? && c.queue != []
    ensures Clean(Receive(c))
  {
    var (socket, frame) := c.queue[0];
    var c1 := c.(queue := c.queue[1..]);
    CleanStays(c, c1);
    if frame.TaskEvent? {
      CleanApply(c1, socket, frame.task, frame.sequence);
    } else {
      AnswersAreSteady(c1, socket, frame);
      CleanStays(c1, Complete(c1, socket, frame));
    }
  }

  lemma CleanStore(c: Client)
    requires Shape(c) && Clean(c) && c.receiving.Applying?
    ensures Clean(StoreCursor(c))
  {
    forall task ensures Current(StoreCursor(c), task) {
      assert Current(c, task);
    }
  }

  lemma CleanFinish(c: Client)
    requires Shape(c) && Clean(c) && c.receiving.Stored?
    ensures Clean(FinishReceive(c))
  {
    forall task ensures Current(FinishReceive(c), task) {
      assert Current(c, task);
    }
  }

  lemma StepKeepsClean(c: Client, input: Input)
    requires Shape(c) && Clean(c) && Step(c, input).Some? && TakesCurrent(c, input)
    ensures Clean(Step(c, input).value)
  {
    match input
    case Close(socket) => CleanDisconnect(c, socket);
    case NextReceive => CleanReceive(c);
    case ApplyReturns => CleanStore(c);
    case ApplyThrows =>
      CleanStays(c, c.(receiving := Quiet));
      CleanDisconnect(c.(receiving := Quiet), c.receiving.socket);
    case CursorFollows => CleanFinish(c);
    case AttachRead(_) => CleanStays(c, Step(c, input).value);
    case AttachContinues(task, cursor) => CleanNew(c, task, cursor);
    case CursorRead(reading) => CleanStays(c, AnswerRead(c, reading));
    case CursorTaken(reading, cursor) => CleanTake(c, reading, cursor);
    case Crash =>
    case _ =>
      QuietStepIsBookkeeping(c, input);
      CleanStays(c, Step(c, input).value);
  }

  predicate CurrentRun(inputs: seq<Input>) {
    inputs == [] ||
    (var before := inputs[..|inputs| - 1];
     CurrentRun(before) && (Run(before).Some? ==> TakesCurrent(Run(before).value, inputs[|inputs| - 1])))
  }

  lemma {:induction false} CurrentRunIsClean(inputs: seq<Input>)
    requires Run(inputs).Some? && CurrentRun(inputs)
    ensures Clean(Run(inputs).value)
  {
    if inputs != [] {
      var before := inputs[..|inputs| - 1];
      CurrentRunIsClean(before);
      RunKeepsInv(before);
      StepKeepsClean(Run(before).value, inputs[|inputs| - 1]);
    }
  }

  // And nothing else does ---------------------------------------------------

  lemma OneLate(deliveries: seq<Delivery>, delivery: Delivery)
    requires Late(delivery)
    ensures !NoneLate(deliveries + [delivery])
  {
    assert (deliveries + [delivery])[|deliveries|] == delivery;
  }

  /** What follows a cursor that is behind can be handed over at once. */
  lemma StaleIsFollowed(c: Client, task: Task, cursor: Option<nat>) returns (rest: seq<Input>)
    requires Shape(c) && StandsAt(c, task, cursor) && !AboutToSet(c, c.attachments[task])
    requires AtMost(cursor, c.Stored(task)) && cursor != c.Stored(task)
    ensures TakesNone(rest) && RunFrom(c, rest).Some? && !NoneLate(RunFrom(c, rest).value.deliveries)
  {
    rest := HandsOverAnyway(c, task, cursor);
    OneLate(c.deliveries, Delivery(task, Successor(cursor), c.Stored(task)));
  }

  lemma StaleIsRepeated(c: Client, input: Input) returns (rest: seq<Input>)
    requires Inv(c) && Step(c, input).Some? && Counts(c, input) && input.cursor != c.Stored(TaskOf(c, input))
    ensures TakesNone(rest) && RunFrom(Step(c, input).value, rest).Some?
    ensures !NoneLate(RunFrom(Step(c, input).value, rest).value.deliveries)
  {
    TakenStands(c, input);
    rest := StaleIsFollowed(Step(c, input).value, TaskOf(c, input), input.cursor);
  }

  /** A second object of the task stays behind while the first one's event is stored. */
  lemma StoresPast(c: Client, task: Task, cursor: Option<nat>)
    requires Inv(c) && AppliesFor(c, task) && StandsAt(c, task, cursor) && c.attachments[task] != c.receiving.handle
    requires cursor == c.Stored(task) && c.receiving.sequence == Successor(cursor)
    ensures Step(c, ApplyReturns).Some? && Step(Step(c, ApplyReturns).value, CursorFollows).Some?
    ensures var c' := Step(Step(c, ApplyReturns).value, CursorFollows).value;
      && c'.receiving.Quiet? && StandsAt(c', task, cursor) && c'.Stored(task) == Some(Successor(cursor))
      && c'.deliveries == c.deliveries
  {
  }

  lemma LoudIsRepeated(c: Client, task: Task) returns (rest: seq<Input>)
    requires Inv(c) && Clean(c) && NewAnswer(task, c.Stored(task)) in c.answers && AppliesFor(c, task)
    ensures TakesNone(rest) && RunFrom(NewAttachment(c, task, c.Stored(task)), rest).Some?
    ensures !NoneLate(RunFrom(NewAttachment(c, task, c.Stored(task)), rest).value.deliveries)
  {
    var cursor := c.Stored(task);
    var c1 := NewAttachment(c, task, cursor);
    NewStands(c, task, cursor);
    StoresPast(c1, task, cursor);
    var c2 := Step(c1, ApplyReturns).value;
    var c3 := Step(c2, CursorFollows).value;
    RunFromOne(c1, ApplyReturns);
    RunFromOne(c2, CursorFollows);
    RunFromConcat(c1, [ApplyReturns], [CursorFollows]);
    var handed := HandsOver(c3, task, cursor);
    RunFromConcat(c1, [ApplyReturns] + [CursorFollows], handed);
    OneLate(c3.deliveries, Delivery(task, Successor(cursor), c3.Stored(task)));
    rest := [ApplyReturns] + [CursorFollows] + handed;
  }

  lemma StepLeadsToRepeat(c: Client, input: Input) returns (rest: seq<Input>)
    requires Inv(c) && Clean(c) && Step(c, input).Some? && !TakesCurrent(c, input)
    ensures TakesNone(rest) && RunFrom(Step(c, input).value, rest).Some?
    ensures !NoneLate(RunFrom(Step(c, input).value, rest).value.deliveries)
  {
    if input.cursor != c.Stored(TaskOf(c, input)) {
      rest := StaleIsRepeated(c, input);
    } else {
      rest := LoudIsRepeated(c, input.task);
    }
  }

  /** Some continuation of a prefix, without using another answer, repeats late. */
  ghost predicate Repeats(inputs: seq<Input>, n: nat, rest: seq<Input>) {
    && n <= |inputs| && TakesNone(rest) && Run(inputs[..n] + rest).Some?
    && !NoneLate(Run(inputs[..n] + rest).value.deliveries)
  }

  lemma {:induction false} CurrentContinues(inputs: seq<Input>, rest: seq<Input>)
    requires CurrentRun(inputs) && TakesNone(rest)
    ensures CurrentRun(inputs + rest)
    decreases |rest|
  {
    if rest == [] {
      assert inputs + rest == inputs;
    } else {
      assert (inputs + rest)[..|inputs + rest| - 1] == inputs + rest[..|rest| - 1];
      CurrentContinues(inputs, rest[..|rest| - 1]);
      assert !Takes(rest[|rest| - 1]);
    }
  }

  lemma {:induction false} CurrentPrefix(inputs: seq<Input>, n: nat)
    requires CurrentRun(inputs) && n <= |inputs|
    ensures CurrentRun(inputs[..n])
    decreases |inputs| - n
  {
    if n == |inputs| {
      assert inputs[..n] == inputs;
    } else {
      CurrentPrefix(inputs, n + 1);
      assert inputs[..n + 1][..n] == inputs[..n];
    }
  }

  lemma CurrentNeverRepeats(inputs: seq<Input>, n: nat, rest: seq<Input>)
    requires CurrentRun(inputs)
    ensures !Repeats(inputs, n, rest)
  {
    if n <= |inputs| && TakesNone(rest) && Run(inputs[..n] + rest).Some? {
      CurrentPrefix(inputs, n);
      CurrentContinues(inputs[..n], rest);
      CurrentRunIsClean(inputs[..n] + rest);
    }
  }

  lemma {:induction false} OtherwiseRepeats(inputs: seq<Input>) returns (n: nat, rest: seq<Input>)
    requires Run(inputs).Some? && !CurrentRun(inputs)
    ensures Repeats(inputs, n, rest)
  {
    var before, last := inputs[..|inputs| - 1], inputs[|inputs| - 1];
    if CurrentRun(before) {
      CurrentRunIsClean(before);
      RunKeepsInv(before);
      rest := StepLeadsToRepeat(Run(before).value, last);
      RunConcat(inputs, rest);
      n := |inputs|;
      assert inputs[..n] == inputs;
    } else {
      n, rest := OtherwiseRepeats(before);
      assert before[..n] == inputs[..n];
    }
  }

  /** For any server and any store: no prefix of a run can go on, without using another
      answer of the store, to apply an event whose cursor was stored, if and only if
      every answer that counts was still what is stored when it was used, and no
      attachment was set up while `apply` ran for its task. */
  lemma RepeatsOnlyBeforeStored(inputs: seq<Input>)
    requires Run(inputs).Some?
    ensures CurrentRun(inputs) <==> !exists n, rest :: Repeats(inputs, n, rest)
  {
    if CurrentRun(inputs) {
      forall n, rest ensures !Repeats(inputs, n, rest) {
        CurrentNeverRepeats(inputs, n, rest);
      }
    } else {
      var n, rest := OtherwiseRepeats(inputs);
    }
  }

  // Over a synchronous store ------------------------------------------------

  /** No attachment is set up while `apply` runs for its task; the caller of `attach`
      supplies `apply`, so it can tell. */
  predicate QuietAttaches(inputs: seq<Input>) {
    inputs == [] ||
    (var before, last := inputs[..|inputs| - 1], inputs[|inputs| - 1];
     && QuietAttaches(before)
     && (Run(before).Some? && last.AttachContinues? ==> !AppliesFor(Run(before).value, last.task)))
  }

  lemma {:induction false} QuietIsCurrent(inputs: seq<Input>)
    requires Synchronous(inputs)
    ensures CurrentRun(inputs) <==> QuietAttaches(inputs)
  {
    if inputs != [] {
      QuietIsCurrent(inputs[..|inputs| - 1]);
    }
  }

  /** Over a synchronous store only the second half of the condition is left. */
  lemma SynchronousStoresRepeatExactly(inputs: seq<Input>)
    requires Run(inputs).Some? && Synchronous(inputs)
    ensures QuietAttaches(inputs) <==> !exists n, rest :: Repeats(inputs, n, rest)
  {
    QuietIsCurrent(inputs);
    RepeatsOnlyBeforeStored(inputs);
  }
}
