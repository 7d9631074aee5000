/** Runs from the start in which events are applied late, or out of order. */
module SurfaceMisses {
  import opened Base
  import opened SurfaceState
  import opened SurfaceClient
  import opened SurfaceRuns
  import opened SurfaceOrder
  import opened SurfaceRepeats

  lemma Extend(inputs: seq<Input>, input: Input)
    requires Run(inputs).Some?
    ensures Run(inputs + [input]) == Step(Run(inputs).value, input)
    ensures Synchronous(inputs) && TakesStored(Run(inputs).value, input) ==> Synchronous(inputs + [input])
  {
    assert (inputs + [input])[..|inputs|] == inputs;
  }

  // A first event -----------------------------------------------------------

  /** Everything that matters of a process with one task, nothing stored, at rest. */
  ghost predicate Begun(c: Client, task: Task) {
    && c.socket == Some(0) && c.nextSocket == 1 && c.queue == [] && c.receiving.Quiet? && c.cursors == map[]
    && c.pending == map[] && c.nextRequest == 0 && c.doomed == {} && c.deliveries == []
    && c.attachments == map[task := 0] && c.objects == [Attachment(task, None, None)]
  }

  /** `attach` was called and its first read is answered. */
  lemma Calling(task: Task) returns (inputs: seq<Input>)
    ensures Run(inputs).Some? && Synchronous(inputs)
    ensures Run(inputs).value == FRESH.(socket := Some(0), nextSocket := 1, answers := multiset{NewAnswer(task, None)})
  {
    inputs := [];
    Extend(inputs, Connect);
    inputs := inputs + [Connect];
    Extend(inputs, CallAttach(task));
    inputs := inputs + [CallAttach(task)];
    assert Run(inputs).value.starting == multiset{task};
    Extend(inputs, AttachRead(task));
    inputs := inputs + [AttachRead(task)];
  }

  lemma AttachmentIsMade(c: Client, task: Task)
    requires c == FRESH.(socket := Some(0), nextSocket := 1, answers := multiset{NewAnswer(task, None)})
    ensures var c' := NewAttachment(c, task, None);
      Begun(c', task) && c'.starting == multiset{} && c'.waiting == multiset{Reading(0, true)} && c'.answers == multiset{}
  {
    assert NewAttachment(c, task, None).objects == [Attachment(task, None, None)];
  }

  /** The second read of `attach` is answered, and the answer is not used yet. */
  ghost predicate ReadOnce(c: Client, task: Task) {
    && Begun(c, task) && c.starting == multiset{} && c.waiting == multiset{}
    && c.answers == multiset{ReadAnswer(Reading(0, true), None)}
  }

  lemma CursorIsRead(c: Client, task: Task)
    requires Begun(c, task) && c.starting == multiset{} && c.waiting == multiset{Reading(0, true)} && c.answers == multiset{}
    ensures Step(c, CursorRead(Reading(0, true))).Some? && ReadOnce(Step(c, CursorRead(Reading(0, true))).value, task)
  {
    assert Reading(0, true) in c.waiting;
    var c' := AnswerRead(c, Reading(0, true));
    assert c'.waiting == multiset{} && c'.answers == multiset{ReadAnswer(Reading(0, true), None)};
  }

  /** It has made its attachment object. */
  lemma Making(task: Task) returns (inputs: seq<Input>)
    ensures Run(inputs).Some? && Synchronous(inputs)
    ensures var c := Run(inputs).value;
      Begun(c, task) && c.starting == multiset{} && c.waiting == multiset{Reading(0, true)} && c.answers == multiset{}
  {
    var called := Calling(task);
    AttachmentIsMade(Run(called).value, task);
    Extend(called, AttachContinues(task, None));
    inputs := called + [AttachContinues(task, None)];
  }

  lemma Attaching(task: Task) returns (inputs: seq<Input>)
    ensures Run(inputs).Some? && Synchronous(inputs) && ReadOnce(Run(inputs).value, task)
  {
    var made := Making(task);
    CursorIsRead(Run(made).value, task);
    Extend(made, CursorRead(Reading(0, true)));
    inputs := made + [CursorRead(Reading(0, true))];
  }

  // A late repeat, over a synchronous store ---------------------------------

  /** The first event is being applied, while `attach` waits for its answer. */
  lemma FirstApply(task: Task) returns (inputs: seq<Input>)
    ensures Run(inputs).Some? && Synchronous(inputs)
    ensures var c := Run(inputs).value;
      && c.socket == Some(0) && c.nextSocket == 1 && c.queue == [] && c.receiving == Applying(0, 0, 0) && c.cursors == map[]
      && c.attachments == map[task := 0] && c.objects == [Attachment(task, None, None)]
      && c.pending == map[0 := AttachRequest(0, true)] && c.starting == multiset{} && c.answers == multiset{}
  {
    inputs := Attaching(task);
    Extend(inputs, CursorTaken(Reading(0, true), None));
    inputs := inputs + [CursorTaken(Reading(0, true), None)];
    Extend(inputs, Arrive(0, TaskEvent(task, 0)));
    inputs := inputs + [Arrive(0, TaskEvent(task, 0))];
    assert Run(inputs).value.queue == [(0, TaskEvent(task, 0))];
    Extend(inputs, NextReceive);
    inputs := inputs + [NextReceive];
  }

  /** Losing the connection fails an `attach` that waits for its answer. */
  lemma AttachIsDoomed(c: Client, task: Task)
    requires c.socket == Some(0) && c.attachments == map[task := 0] && AppliesFor(c, task) && c.receiving.handle == 0
    requires c.pending == map[0 := AttachRequest(0, true)]
    ensures var c' := Disconnect(c, 0);
      && task in c'.doomed && c'.socket.None? && c'.attachments == c.attachments && c'.cursors == c.cursors && AppliesFor(c', task)
  {
    DisconnectIsSteady(c, 0);
    assert 0 in c.pending && task in AskingTasks(c.pending, c.objects);
  }

  lemma AttachIsForgotten(c: Client, task: Task)
    requires task in c.doomed && c.attachments == map[task := 0]
    ensures var c' := Step(c, AttachFails(task));
      && c'.Some? && c'.value.attachments == map[] && c'.value.socket == c.socket && c'.value.cursors == c.cursors
      && c'.value.receiving == c.receiving && c'.value.objects == c.objects
  {
  }

  /** The connection drops and that `attach` fails while the event is still applied. */
  lemma Drops(task: Task) returns (inputs: seq<Input>)
    ensures Run(inputs).Some? && Synchronous(inputs)
    ensures var c := Run(inputs).value;
      c.socket.None? && c.attachments == map[] && c.cursors == map[] && AppliesFor(c, task)
  {
    inputs := FirstApply(task);
    AttachIsDoomed(Run(inputs).value, task);
    Extend(inputs, Close(0));
    inputs := inputs + [Close(0)];
    AttachIsForgotten(Run(inputs).value, task);
    Extend(inputs, AttachFails(task));
    inputs := inputs + [AttachFails(task)];
  }

  /** A process without a connection that attaches a task and gets its first answer. */
  lemma AttachesAnew(c: Client, task: Task)
    requires c.socket.None? && c.attachments == map[]
    ensures var c1 := Step(c, Connect);
      && c1.Some?
      && var c2 := Step(c1.value, CallAttach(task));
      && c2.Some?
      && var c3 := Step(c2.value, AttachRead(task));
      && c3.Some? && NewAnswer(task, c.Stored(task)) in c3.value.answers
      && c3.value.cursors == c.cursors && c3.value.receiving == c.receiving && c3.value.objects == c.objects
  {
  }

  /** The surface attaches again while the event is still being applied. */
  lemma AttachesLoudly(task: Task) returns (inputs: seq<Input>)
    ensures Run(inputs).Some? && Synchronous(inputs)
    ensures var c := Run(inputs).value; NewAnswer(task, None) in c.answers && c.cursors == map[] && AppliesFor(c, task)
  {
    inputs := Drops(task);
    AttachesAnew(Run(inputs).value, task);
    Extend(inputs, Connect);
    inputs := inputs + [Connect];
    Extend(inputs, CallAttach(task));
    inputs := inputs + [CallAttach(task)];
    Extend(inputs, AttachRead(task));
    inputs := inputs + [AttachRead(task)];
  }

  lemma {:induction false} SynchronousContinues(inputs: seq<Input>, rest: seq<Input>)
    requires Synchronous(inputs) && TakesNone(rest)
    ensures Synchronous(inputs + rest)
    decreases |rest|
  {
    if rest == [] {
      assert inputs + rest == inputs;
    } else {
      assert (inputs + rest)[..|inputs + rest| - 1] == inputs + rest[..|rest| - 1];
      SynchronousContinues(inputs, rest[..|rest| - 1]);
      assert !Takes(rest[|rest| - 1]);
    }
  }

  lemma {:induction false} SynchronousPrefix(inputs: seq<Input>, n: nat)
    requires Synchronous(inputs) && n <= |inputs|
    ensures Synchronous(inputs[..n])
    decreases |inputs| - n
  {
    if n == |inputs| {
      assert inputs[..n] == inputs;
    } else {
      SynchronousPrefix(inputs, n + 1);
      assert inputs[..n + 1][..n] == inputs[..n];
    }
  }

  /** Even over a synchronous store there is a run that applies an event after its
      cursor was stored. */
  lemma LateRepeatIsReached(task: Task) returns (inputs: seq<Input>)
    ensures Run(inputs).Some? && Synchronous(inputs) && !NoneLate(Run(inputs).value.deliveries)
  {
    var loud := AttachesLoudly(task);
    Extend(loud, AttachContinues(task, None));
    var all := loud + [AttachContinues(task, None)];
    assert all[..|all| - 1] == loud;
    assert !CurrentRun(all);
    var n, rest := OtherwiseRepeats(all);
    SynchronousPrefix(all, n);
    SynchronousContinues(all[..n], rest);
    inputs := all[..n] + rest;
  }

  // Out of order, over a store that takes its time --------------------------

  /** One task, at rest; its cursor is the stored one, and an old answer is left. */
  ghost predicate Resting(c: Client, task: Task, stored: Option<nat>) {
    && c.socket == Some(0) && c.nextSocket == 1 && c.queue == [] && c.receiving.Quiet?
    && c.attachments == map[task := 0] && |c.objects| == 1 && c.objects[0].task == task
    && c.objects[0].cursor == stored && c.Stored(task) == stored
    && c.answers == multiset{ReadAnswer(Reading(0, true), None)}
  }

  /** What the process does with the next event. */
  ghost predicate IsApplying(c: Client, before: Client, task: Task, sequence: nat) {
    && c == before.(receiving := Applying(0, 0, sequence),
                    deliveries := before.deliveries + [Delivery(task, sequence, before.Stored(task))])
  }

  lemma EventArrives(c: Client, task: Task, stored: Option<nat>)
    requires Resting(c, task, stored)
    ensures var sequence := Successor(stored);
      var c1 := Step(c, Arrive(0, TaskEvent(task, sequence)));
      && c1.Some?
      && var c2 := Step(c1.value, NextReceive);
      && c2.Some? && IsApplying(c2.value, c, task, sequence)
  {
    var sequence := Successor(stored);
    var c1 := Step(c, Arrive(0, TaskEvent(task, sequence))).value;
    assert c1.queue == [(0, TaskEvent(task, sequence))];
    assert c1.(queue := c1.queue[1..]) == c;
  }

  lemma EventIsStored(c: Client, before: Client, task: Task, stored: Option<nat>)
    requires Resting(before, task, stored) && IsApplying(c, before, task, Successor(stored))
    ensures var c1 := Step(c, ApplyReturns);
      && c1.Some?
      && var c2 := Step(c1.value, CursorFollows);
      && c2.Some? && Resting(c2.value, task, Some(Successor(stored)))
      && Last(c2.value.deliveries, task) == Some(Successor(stored))
  {
    assert c.deliveries[..|before.deliveries|] == before.deliveries;
  }

  /** The server sends the next event, and it is applied and stored. */
  lemma AppliesNext(inputs: seq<Input>, task: Task, stored: Option<nat>) returns (more: seq<Input>)
    requires Run(inputs).Some? && Resting(Run(inputs).value, task, stored)
    ensures Run(more).Some? && Resting(Run(more).value, task, Some(Successor(stored)))
    ensures Last(Run(more).value.deliveries, task) == Some(Successor(stored))
  {
    var event := TaskEvent(task, Successor(stored));
    EventArrives(Run(inputs).value, task, stored);
    Extend(inputs, Arrive(0, event));
    Extend(inputs + [Arrive(0, event)], NextReceive);
    var applying := inputs + [Arrive(0, event)] + [NextReceive];
    EventIsStored(Run(applying).value, Run(inputs).value, task, stored);
    Extend(applying, ApplyReturns);
    Extend(applying + [ApplyReturns], CursorFollows);
    more := applying + [ApplyReturns] + [CursorFollows];
  }

  /** The first read of the cursor is answered, two events are applied and stored, and
      only then is the answer used: the first event is next again. */
  lemma StaleAnswerIsReached(task: Task) returns (inputs: seq<Input>, n: nat, rest: seq<Input>, strayed: Task)
    ensures Run(inputs).Some? && Astray(inputs, n, rest, strayed)
  {
    var begun := Attaching(task);
    var first := AppliesNext(begun, task, None);
    var second := AppliesNext(first, task, Some(0));
    Extend(second, CursorTaken(Reading(0, true), None));
    inputs := second + [CursorTaken(Reading(0, true), None)];
    assert inputs[..|inputs| - 1] == second;
    assert !TakesNear(Run(second).value, CursorTaken(Reading(0, true), None));
    assert !NearRun(inputs);
    n, rest, strayed := FarGoesAstray(inputs);
  }

  /** Over a store that takes its time there is a run that applies events out of order. */
  lemma DisorderIsReached(task: Task) returns (inputs: seq<Input>, strayed: Task)
    ensures Run(inputs).Some? && !InOrder(Handed(Run(inputs).value.deliveries, strayed))
  {
    var all, n, rest;
    all, n, rest, strayed := StaleAnswerIsReached(task);
    inputs := all[..n] + rest;
  }
}
