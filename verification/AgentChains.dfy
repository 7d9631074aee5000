/** Chains of agent messages over every run of the coordinator. */
module AgentChains {
  import opened Base
  import opened ControlStore
  import opened ExecutionEvents
  import opened AgentMessages
  import opened AgentReplies
  import opened ControlRuns

  // Edges -------------------------------------------------------------------

  /** A command continues the one it came from: one deeper, same owner, equally quiet. */
  predicate Continues(later: Command, earlier: Command) {
    DepthOf(later) == DepthOf(earlier) + 1 && later.principal == earlier.principal && later.quiet == earlier.quiet
  }

  predicate DepthWithin(command: Command) {
    command.origin.Some? ==>
      1 <= command.origin.value.depth <= (if command.origin.value.kind.Request? then 100 else 101)
  }

  predicate EdgeOk(t: Tables, id: Id)
    requires id in t.commands
  {
    var command := t.commands[id].command;
    && DepthWithin(command)
    && (command.origin.Some? && command.origin.value.fromCommand in t.commands ==>
          Continues(command, t.commands[command.origin.value.fromCommand].command))
  }

  ghost predicate Edges(t: Tables) {
    forall id | id in t.commands :: EdgeOk(t, id)
  }

  /** Every stored command that names `id` as its cause would continue `command`. */
  ghost predicate Fits(t: Tables, id: Id, command: Command) {
    forall other | other in t.commands && Names(t.commands[other].command, id) :: Continues(t.commands[other].command, command)
  }

  predicate Names(command: Command, id: Id) {
    command.origin.Some? && command.origin.value.fromCommand == id
  }

  /** Under a new identity, a command keeps the edges exactly when it fits those
      that name the identity already. */
  lemma InsertKeepsEdges(t: Tables, t': Tables, id: Id)
    requires Edges(t) && Inserts(t, t', id)
    requires !Names(t'.commands[id].command, id) && EdgeOk(t', id)
    ensures Edges(t') <==> Fits(t, id, t'.commands[id].command)
  {
    if Edges(t') {
      forall other | other in t.commands && Names(t.commands[other].command, id)
        ensures Continues(t.commands[other].command, t'.commands[id].command)
      {
        assert EdgeOk(t', other);
      }
    }
    if Fits(t, id, t'.commands[id].command) {
      forall other | other in t'.commands ensures EdgeOk(t', other) {
        if other != id {
          assert EdgeOk(t, other);
        }
      }
    }
  }

  lemma SendEdge(naming: Naming, t: Tables, node: Node, names: map<Target, string>, destination: Option<set<Target>>, m: Message)
    requires Rows(t) && Edges(t) && AdmitMessage(naming, t, node, names, destination, m).Ok? && m.id !in t.commands
    ensures var t' := AdmitMessage(naming, t, node, names, destination, m).value.0;
      Inserts(t, t', m.id) && !Names(t'.commands[m.id].command, m.id) && EdgeOk(t', m.id)
  {
    var c := CheckMessage(naming, t, node, m).value;
    assert EdgeOk(t, m.fromCommand);
  }

  lemma PublishEdge(naming: Naming, t: Tables, task: Id, command: Id, events: seq<ExecutionEvent>, replier: string)
    requires Rows(t) && Edges(t) && Publish(naming, t, task, command, events, replier).Ok?
    ensures var t' := Publish(naming, t, task, command, events, replier).value;
      || t'.commands == t.commands
      || (&& Inserts(t, t', naming.replyTo(command)) && EdgeOk(t', naming.replyTo(command))
          && !Names(t'.commands[naming.replyTo(command)].command, naming.replyTo(command)))
  {
    assert command in t.commands && EdgeOk(t, command);
    var t1 := AdmitBatch(t, task, command, events).value.0;
    assert t1.commands == t.commands && t1.tasks == t.tasks;
  }

  /** Whatever a step inserts has a good edge of its own, so the edges of a run hold
      exactly as long as new commands fit the ones that name their identity. */
  lemma StepKeepsEdges(naming: Naming, t: Tables, input: Input) returns (id: Id)
    requires Rows(t) && Edges(t) && Step(naming, t, input).Ok?
    ensures var t' := Step(naming, t, input).value;
      || (t'.commands.Keys <= t.commands.Keys && Edges(t'))
      || (Inserts(t, t', id) && (Edges(t') <==> Fits(t, id, t'.commands[id].command)))
  {
    var t' := Step(naming, t, input).value;
    id := 0;
    match input
    case Submit(_, _, _, submitted, _, _, _) =>
      id := submitted;
      if t' != t {
        InsertKeepsEdges(t, t', id);
      }
    case Send(node, names, destination, m) =>
      id := m.id;
      if id !in t.commands {
        SendEdge(naming, t, node, names, destination, m);
        InsertKeepsEdges(t, t', id);
      }
    case PublishBatch(task, command, events, replier) =>
      id := naming.replyTo(command);
      PublishEdge(naming, t, task, command, events, replier);
      if t'.commands == t.commands {
        SameCommands(t, t');
      } else {
        InsertKeepsEdges(t, t', id);
      }
    case Delete(principal, task) => DeleteKeepsEdges(t, principal, task);
    case _ => SameCommands(t, t');
  }

  lemma SameCommands(t: Tables, t': Tables)
    requires Edges(t) && t'.commands == t.commands
    ensures Edges(t')
  {
    forall id | id in t'.commands ensures EdgeOk(t', id) {
      assert EdgeOk(t, id);
    }
  }

  lemma DeleteKeepsEdges(t: Tables, principal: Principal, task: Id)
    requires Edges(t) && DeleteTask(t, principal, task).Ok?
    ensures Edges(DeleteTask(t, principal, task).value)
    ensures DeleteTask(t, principal, task).value.commands.Keys <= t.commands.Keys
  {
    var t' := DeleteTask(t, principal, task).value;
    forall id | id in t'.commands ensures EdgeOk(t', id) {
      assert EdgeOk(t, id);
    }
  }

  // Following a chain -------------------------------------------------------

  /** The command `k` steps up the chain from `id`, as far as rows exist. */
  function Ancestor(t: Tables, id: Id, k: nat): Option<Id>
    decreases k
  {
    if k == 0 then Some(id)
    else if id in t.commands && t.commands[id].command.origin.Some? then
      Ancestor(t, t.commands[id].command.origin.value.fromCommand, k - 1)
    else None
  }

  /** Owner and quiet flag are constant along a chain, and depth counts its steps. */
  lemma {:induction false} ChainIsConstant(t: Tables, id: Id, k: nat)
    requires Edges(t) && id in t.commands
    requires Ancestor(t, id, k).Some? && Ancestor(t, id, k).value in t.commands
    ensures var later, earlier := t.commands[id].command, t.commands[Ancestor(t, id, k).value].command;
      DepthOf(later) == DepthOf(earlier) + k && later.principal == earlier.principal && later.quiet == earlier.quiet
    decreases k
  {
    if k > 0 {
      assert EdgeOk(t, id);
      ChainIsConstant(t, t.commands[id].command.origin.value.fromCommand, k - 1);
    }
  }

  ghost predicate Rooted(t: Tables) {
    forall id | id in t.commands && t.commands[id].command.origin.Some? ::
      t.commands[id].command.origin.value.fromCommand in t.commands
  }

  /** The chain above `id` has exactly `DepthOf` steps and ends at a command no agent caused. */
  ghost predicate ReachesOrigin(t: Tables, id: Id)
    requires id in t.commands
  {
    var depth := DepthOf(t.commands[id].command);
    && Ancestor(t, id, depth).Some?
    && Ancestor(t, id, depth).value in t.commands
    && t.commands[Ancestor(t, id, depth).value].command.origin.None?
    && (forall k | 0 <= k < depth :: HasCause(t, Ancestor(t, id, k)))
  }

  predicate HasCause(t: Tables, id: Option<Id>) {
    id.Some? && id.value in t.commands && t.commands[id.value].command.origin.Some?
  }

  lemma CauseReachesOrigin(t: Tables, id: Id)
    requires id in t.commands && EdgeOk(t, id) && t.commands[id].command.origin.Some?
    requires var from := t.commands[id].command.origin.value.fromCommand; from in t.commands && ReachesOrigin(t, from)
    ensures ReachesOrigin(t, id)
  {
    var from, depth := t.commands[id].command.origin.value.fromCommand, DepthOf(t.commands[id].command);
    assert forall k | 1 <= k <= depth :: Ancestor(t, id, k) == Ancestor(t, from, k - 1);
    forall k | 0 <= k < depth ensures HasCause(t, Ancestor(t, id, k)) {
      if k > 0 {
        assert HasCause(t, Ancestor(t, from, k - 1));
      }
    }
  }

  lemma {:induction false} ChainReachesOrigin(t: Tables, id: Id)
    requires Edges(t) && Rooted(t) && id in t.commands
    ensures ReachesOrigin(t, id)
    decreases DepthOf(t.commands[id].command)
  {
    assert EdgeOk(t, id);
    if t.commands[id].command.origin.Some? {
      ChainReachesOrigin(t, t.commands[id].command.origin.value.fromCommand);
      CauseReachesOrigin(t, id);
    }
  }

  /** A new identity that no stored command names always fits. */
  lemma RootedFits(t: Tables, id: Id, command: Command)
    requires Rooted(t) && id !in t.commands
    ensures Fits(t, id, command)
  {
    assert forall other | other in t.commands :: !Names(t.commands[other].command, id);
  }

  lemma InsertKeepsRooted(t: Tables, t': Tables, id: Id)
    requires Rooted(t) && Inserts(t, t', id)
    requires t'.commands[id].command.origin.Some? ==> t'.commands[id].command.origin.value.fromCommand in t.commands
    ensures Rooted(t')
  {
  }

  lemma StepKeepsRooted(naming: Naming, t: Tables, input: Input)
    requires Rows(t) && Edges(t) && Rooted(t) && !input.Delete? && Step(naming, t, input).Ok?
    ensures Edges(Step(naming, t, input).value) && Rooted(Step(naming, t, input).value)
  {
    var t' := Step(naming, t, input).value;
    var id := StepKeepsEdges(naming, t, input);
    if Inserts(t, t', id) {
      RootedFits(t, id, t'.commands[id].command);
      NewCauseExists(naming, t, input, id);
      InsertKeepsRooted(t, t', id);
    } else {
      var _ := StepInserts(naming, t, input);
      assert t'.commands == t.commands;
    }
  }

  lemma NewCauseExists(naming: Naming, t: Tables, input: Input, id: Id)
    requires !input.Delete? && Step(naming, t, input).Ok? && Inserts(t, Step(naming, t, input).value, id)
    ensures var command := Step(naming, t, input).value.commands[id].command;
      command.origin.Some? ==> command.origin.value.fromCommand in t.commands
  {
  }

  /** Every command of the chain above `id` has its owner and quiet flag. */
  ghost predicate SameThroughout(t: Tables, id: Id)
    requires id in t.commands
  {
    forall k | 0 <= k <= DepthOf(t.commands[id].command) :: Alike(t, id, Ancestor(t, id, k))
  }

  predicate Alike(t: Tables, id: Id, other: Option<Id>)
    requires id in t.commands
  {
    && other.Some? && other.value in t.commands
    && t.commands[other.value].command.principal == t.commands[id].command.principal
    && t.commands[other.value].command.quiet == t.commands[id].command.quiet
  }

  lemma ChainIsAlike(t: Tables, id: Id)
    requires Edges(t) && Rooted(t) && id in t.commands
    ensures SameThroughout(t, id)
  {
    ChainReachesOrigin(t, id);
    forall k | 0 <= k <= DepthOf(t.commands[id].command) ensures Alike(t, id, Ancestor(t, id, k)) {
      if k < DepthOf(t.commands[id].command) {
        assert HasCause(t, Ancestor(t, id, k));
      }
      ChainIsConstant(t, id, k);
    }
  }

  // Sound chains ------------------------------------------------------------

  /** Following `from_command` from any command reaches a command no agent caused in
      exactly `depth` steps; requests are at most 100 deep and answers at most 101;
      owner and quiet flag are the same along the whole chain. */
  ghost predicate SoundChains(t: Tables) {
    forall id | id in t.commands :: ReachesOrigin(t, id) && DepthWithin(t.commands[id].command) && SameThroughout(t, id)
  }

  lemma RootedIsSound(t: Tables)
    requires Edges(t) && Rooted(t)
    ensures SoundChains(t)
  {
    forall id | id in t.commands ensures ReachesOrigin(t, id) && DepthWithin(t.commands[id].command) && SameThroughout(t, id) {
      ChainReachesOrigin(t, id);
      ChainIsAlike(t, id);
      assert EdgeOk(t, id);
    }
  }

  lemma SoundIsRooted(t: Tables, id: Id)
    requires SoundChains(t) && id in t.commands && t.commands[id].command.origin.Some?
    ensures t.commands[id].command.origin.value.fromCommand in t.commands
  {
    assert ReachesOrigin(t, id) && SameThroughout(t, id);
    assert Alike(t, id, Ancestor(t, id, 1));
    assert Ancestor(t, id, 1) == Ancestor(t, t.commands[id].command.origin.value.fromCommand, 0);
  }

  /** No command outside the task names one inside it. */
  ghost predicate Detached(t: Tables, task: Id) {
    forall id | id in t.commands && t.commands[id].task != task :: !NamesInto(t, id, task)
  }

  /** The command that `id` names is in the task. */
  predicate NamesInto(t: Tables, id: Id, task: Id)
    requires id in t.commands
  {
    var command := t.commands[id].command;
    && command.origin.Some? && command.origin.value.fromCommand in t.commands
    && t.commands[command.origin.value.fromCommand].task == task
  }

  /** The deletion of an existing task that is accepted is of a detached one. */
  ghost predicate DeletesDetached(t: Tables, input: Input) {
    input.Delete? && input.task in t.tasks && DeleteTask(t, input.principal, input.task).Ok? ==> Detached(t, input.task)
  }

  /** All deletions of a run are. */
  ghost predicate CleanRun(naming: Naming, inputs: seq<Input>) {
    forall i | 0 <= i < |inputs| :: DeletesDetached(Run(naming, inputs[..i]), inputs[i])
  }

  lemma DetachedKeepsRooted(t: Tables, principal: Principal, task: Id)
    requires Rooted(t) && Detached(t, task) && DeleteTask(t, principal, task).Ok?
    ensures Rooted(DeleteTask(t, principal, task).value)
  {
    var t' := DeleteTask(t, principal, task).value;
    forall id | id in t'.commands && t'.commands[id].command.origin.Some?
      ensures t'.commands[id].command.origin.value.fromCommand in t'.commands
    {
      assert t'.commands[id] == t.commands[id];
      assert t.commands[id].task != task ==> !NamesInto(t, id, task);
    }
  }

  /** A deletion that leaves the chains sound was of a detached task. */
  lemma SoundDeletionIsDetached(t: Tables, principal: Principal, task: Id)
    requires task in t.tasks && DeleteTask(t, principal, task).Ok? && SoundChains(DeleteTask(t, principal, task).value)
    ensures Detached(t, task)
  {
    var t' := DeleteTask(t, principal, task).value;
    forall id | id in t.commands && t.commands[id].task != task ensures !NamesInto(t, id, task) {
      assert id in t'.commands && t'.commands[id] == t.commands[id];
      if t.commands[id].command.origin.Some? {
        SoundIsRooted(t', id);
      }
    }
  }

  lemma NextKeepsRooted(naming: Naming, t: Tables, input: Input)
    requires Rows(t) && Edges(t) && Rooted(t) && DeletesDetached(t, input)
    ensures Edges(Next(naming, t, input)) && Rooted(Next(naming, t, input))
  {
    if Step(naming, t, input).Ok? {
      if !input.Delete? {
        StepKeepsRooted(naming, t, input);
      } else if input.task in t.tasks {
        DeleteKeepsEdges(t, input.principal, input.task);
        DetachedKeepsRooted(t, input.principal, input.task);
      }
    }
  }

  lemma CleanBefore(naming: Naming, inputs: seq<Input>)
    requires CleanRun(naming, inputs) && inputs != []
    ensures CleanRun(naming, inputs[..|inputs| - 1])
    ensures DeletesDetached(Run(naming, inputs[..|inputs| - 1]), inputs[|inputs| - 1])
  {
    var before := inputs[..|inputs| - 1];
    forall i | 0 <= i < |before| ensures DeletesDetached(Run(naming, before[..i]), before[i]) {
      assert before[..i] == inputs[..i];
    }
  }

  lemma {:induction false} RunKeepsRooted(naming: Naming, inputs: seq<Input>)
    requires CleanRun(naming, inputs)
    ensures Edges(Run(naming, inputs)) && Rooted(Run(naming, inputs))
  {
    if inputs != [] {
      var before := inputs[..|inputs| - 1];
      CleanBefore(naming, inputs);
      RunKeepsRooted(naming, before);
      RunKeepsRows(naming, before);
      NextKeepsRooted(naming, Run(naming, before), inputs[|inputs| - 1]);
    }
  }

  lemma CleanPrefix(naming: Naming, inputs: seq<Input>, n: nat)
    requires CleanRun(naming, inputs) && n <= |inputs|
    ensures CleanRun(naming, inputs[..n])
  {
    forall i | 0 <= i < n ensures DeletesDetached(Run(naming, inputs[..n][..i]), inputs[..n][i]) {
      assert inputs[..n][..i] == inputs[..i];
    }
  }

  ghost predicate SoundThroughout(naming: Naming, inputs: seq<Input>) {
    forall n | 0 <= n <= |inputs| :: SoundChains(Run(naming, inputs[..n]))
  }

  /** All chains are sound throughout a run if and only if every task it deletes is
      detached at that moment; so in particular in every run without deletions. */
  lemma ChainsAreSound(naming: Naming, inputs: seq<Input>)
    ensures SoundThroughout(naming, inputs) <==> CleanRun(naming, inputs)
  {
    if SoundThroughout(naming, inputs) {
      forall i | 0 <= i < |inputs| ensures DeletesDetached(Run(naming, inputs[..i]), inputs[i]) {
        DeletionWasDetached(naming, inputs, i);
      }
    }
    if CleanRun(naming, inputs) {
      forall n | 0 <= n <= |inputs| ensures SoundChains(Run(naming, inputs[..n])) {
        CleanPrefix(naming, inputs, n);
        RunKeepsRooted(naming, inputs[..n]);
        RootedIsSound(Run(naming, inputs[..n]));
      }
    }
  }

  lemma SoundStepIsDetached(naming: Naming, t: Tables, input: Input)
    requires SoundChains(Next(naming, t, input))
    ensures DeletesDetached(t, input)
  {
    if input.Delete? && input.task in t.tasks && DeleteTask(t, input.principal, input.task).Ok? {
      SoundDeletionIsDetached(t, input.principal, input.task);
    }
  }

  lemma DeletionWasDetached(naming: Naming, inputs: seq<Input>, i: nat)
    requires SoundThroughout(naming, inputs) && i < |inputs|
    ensures DeletesDetached(Run(naming, inputs[..i]), inputs[i])
  {
    RunAt(naming, inputs, i);
    SoundStepIsDetached(naming, Run(naming, inputs[..i]), inputs[i]);
  }

  // Deletion and reuse ------------------------------------------------------

  /** Every command a run admits fits the commands that name its identity by then. */
  ghost predicate FittingRun(naming: Naming, inputs: seq<Input>) {
    inputs == [] ||
    (var before := inputs[..|inputs| - 1];
     var t, t' := Run(naming, before), Run(naming, inputs);
     && FittingRun(naming, before)
     && (forall id | id in t'.commands && id !in t.commands :: Fits(t, id, t'.commands[id].command)))
  }

  /** As far as their rows exist, chains are consistent throughout exactly in the runs
      whose new commands fit, whatever was deleted. */
  lemma {:induction false} EdgesHoldExactlyWhenFitting(naming: Naming, inputs: seq<Input>)
    ensures (forall n | 0 <= n <= |inputs| :: Edges(Run(naming, inputs[..n]))) <==> FittingRun(naming, inputs)
  {
    assert inputs[..|inputs|] == inputs;
    if inputs != [] {
      var before := inputs[..|inputs| - 1];
      EdgesHoldExactlyWhenFitting(naming, before);
      assert forall n | 0 <= n <= |before| :: before[..n] == inputs[..n];
      if forall n | 0 <= n <= |before| :: Edges(Run(naming, before[..n])) {
        assert before[..|before|] == before;
        LastStepFits(naming, before, inputs[|inputs| - 1]);
      }
    }
  }

  lemma LastStepFits(naming: Naming, before: seq<Input>, input: Input)
    requires Edges(Run(naming, before))
    ensures var t, t' := Run(naming, before), Next(naming, Run(naming, before), input);
      Edges(t') <==> forall id | id in t'.commands && id !in t.commands :: Fits(t, id, t'.commands[id].command)
  {
    RunKeepsRows(naming, before);
    var t := Run(naming, before);
    if Step(naming, t, input).Ok? {
      var id := StepKeepsEdges(naming, t, input);
    }
  }

  // A run in which a chain breaks -------------------------------------------

  /** The thread in which the one agent of a node writes to the other. */
  function Thread(naming: Naming): Id {
    ThreadTask(naming, "", Agent("", "a"), Agent("", "b"))
  }

  const FIRST := Command("", "", "a", "", false, None)
  const ASKED := Command("", AGENT_SURFACE, "b", "x", false, Some(Origin(0, "a", "", 1, Request)))
  const DONE := [ExecutionEvent(0, 0, 0, Started), ExecutionEvent(1, 0, 1, Terminated(Completed))]

  /** A command of one task sends a request, which opens another task, and ends. */
  function Asking(naming: Naming): seq<Input> {
    var home := Thread(naming) + 1;
    [NameOwner("", ""), Open(home, Task("", "", "a")), Submit(home, "", "", 0, "", false, true),
     Send("", map["a" := ""], Some({"b"}), Message(0, 1, "", "b", "x"))]
  }

  lemma HomeOpens(naming: Naming)
    ensures var t, home := Run(naming, Asking(naming)[..3]), Thread(naming) + 1;
      && t.owners == map["" := ""] && t.streams == map[] && t.journal == [] && t.stops == []
      && t.tasks == map[home := Task("", "", "a")] && t.commands == map[0 := CommandRow(home, FIRST)]
  {
    var inputs := Asking(naming);
    assert inputs[..0] == [];
    RunAt(naming, inputs, 0);
    RunAt(naming, inputs, 1);
    RunAt(naming, inputs, 2);
  }

  lemma MessageIsAdmitted(naming: Naming, t: Tables)
    requires var home := Thread(naming) + 1;
      && t.owners == map["" := ""] && t.tasks == map[home := Task("", "", "a")] && t.commands == map[0 := CommandRow(home, FIRST)]
    ensures var home, sent := Thread(naming) + 1, Step(naming, t, Asking(naming)[3]);
      && sent.Ok? && sent.value.owners == t.owners && sent.value.journal == t.journal && sent.value.streams == t.streams
      && sent.value.tasks == map[home := Task("", "", "a"), Thread(naming) := Task("", "", "b")]
      && sent.value.commands == map[0 := CommandRow(home, FIRST), 1 := CommandRow(Thread(naming), ASKED)]
  {
    var m := Message(0, 1, "", "b", "x");
    assert 'x' in "x" && !IsSpace('x');
    assert "x"[1..] == "";
    assert "a"[0] != "b"[0];
    assert CheckMessage(naming, t, "", m) == Ok(Checked("", t.commands[0], "a", 1, Thread(naming)));
  }

  lemma AskingRuns(naming: Naming)
    ensures var t, home := Run(naming, Asking(naming)), Thread(naming) + 1;
      && t.owners == map["" := ""] && t.streams == map[] && t.journal == []
      && t.tasks == map[home := Task("", "", "a"), Thread(naming) := Task("", "", "b")]
      && t.commands == map[0 := CommandRow(home, FIRST), 1 := CommandRow(Thread(naming), ASKED)]
  {
    HomeOpens(naming);
    MessageIsAdmitted(naming, Run(naming, Asking(naming)[..3]));
    RunAt(naming, Asking(naming), 3);
    assert Asking(naming)[..4] == Asking(naming);
  }

  function EndsAndDeletes(naming: Naming): seq<Input> {
    var home := Thread(naming) + 1;
    Asking(naming) + [PublishBatch(home, 0, DONE, "")] + [Delete("", home)]
  }

  lemma DoneIsAdmitted(naming: Naming, t: Tables, task: Id)
    requires 0 in t.commands && t.commands[0].task == task && t.commands[0].command.origin.None?
    requires t.journal == [] && t.streams == map[]
    ensures Publish(naming, t, task, 0, DONE, "").Ok?
    ensures var t' := Publish(naming, t, task, 0, DONE, "").value;
      && t'.Settled(0) && t'.tasks == t.tasks && t'.commands == t.commands && t'.owners == t.owners && t'.stops == t.stops
  {
    var start := Cursor([], [], 0, false);
    assert DONE[..2] == DONE && DONE[..1] == [DONE[0]] && DONE[..1][..0] == [];
    var one := AppendOne(start, task, 0, DONE[0]).value;
    assert AppendAll(start, task, 0, DONE[..1]) == Ok(one);
    assert one.journal == [Entry(task, 0, DONE[0])] && one.next == 1 && !one.terminal;
    assert one.journal[1..] == [];
    assert AppendOne(one, task, 0, DONE[1]).Ok? && AppendOne(one, task, 0, DONE[1]).value.terminal;
    assert AppendAll(start, task, 0, DONE) == AppendOne(one, task, 0, DONE[1]);
  }

  /** The states around the deletion: what stays when `home` is deleted. */
  ghost predicate Ended(naming: Naming, t: Tables) {
    var home := Thread(naming) + 1;
    && t.owners == map["" := ""] && t.Settled(0)
    && t.tasks == map[home := Task("", "", "a"), Thread(naming) := Task("", "", "b")]
    && t.commands == map[0 := CommandRow(home, FIRST), 1 := CommandRow(Thread(naming), ASKED)]
  }

  lemma EndedRuns(naming: Naming)
    ensures Ended(naming, Run(naming, Asking(naming) + [PublishBatch(Thread(naming) + 1, 0, DONE, "")]))
  {
    AskingRuns(naming);
    DoneIsAdmitted(naming, Run(naming, Asking(naming)), Thread(naming) + 1);
    RunSnoc(naming, Asking(naming), PublishBatch(Thread(naming) + 1, 0, DONE, ""));
  }

  ghost predicate Orphaned(naming: Naming, t: Tables) {
    && t.commands == map[1 := CommandRow(Thread(naming), ASKED)] && t.owners == map["" := ""]
    && t.tasks == map[Thread(naming) := Task("", "", "b")]
  }

  lemma EndedIsOrphaned(naming: Naming, t: Tables)
    requires Ended(naming, t)
    ensures Orphaned(naming, Next(naming, t, Delete("", Thread(naming) + 1)))
  {
    assert !InFlight(t, Thread(naming) + 1);
  }

  lemma OrphanIsUnsound(naming: Naming, t: Tables)
    requires Orphaned(naming, t)
    ensures 1 in t.commands && !ReachesOrigin(t, 1) && !SoundChains(t)
  {
    assert Ancestor(t, 1, 1) == Ancestor(t, 0, 0);
  }

  /** Deleting the task of a settled command leaves the request it sent without its
      origin: a run that the exact condition excludes. */
  lemma DeletionBreaksChain(naming: Naming)
    ensures Orphaned(naming, Run(naming, EndsAndDeletes(naming)))
    ensures var t := Run(naming, EndsAndDeletes(naming)); 1 in t.commands && !ReachesOrigin(t, 1) && !SoundChains(t)
  {
    var inputs := Asking(naming) + [PublishBatch(Thread(naming) + 1, 0, DONE, "")];
    EndedRuns(naming);
    RunSnoc(naming, inputs, Delete("", Thread(naming) + 1));
    EndedIsOrphaned(naming, Run(naming, inputs));
    OrphanIsUnsound(naming, Run(naming, EndsAndDeletes(naming)));
  }

  function Reuses(naming: Naming): seq<Input> {
    var home := Thread(naming) + 1;
    EndsAndDeletes(naming) + [Open(home, Task("", "", "a"))] + [Submit(home, "", "", 0, "", true, true)]
  }

  /** A surface then submits the freed identity with the other quiet flag, and the
      request continues a command that never sent it. */
  lemma ReuseBreaksChain(naming: Naming)
    ensures var t := Run(naming, Reuses(naming));
      && 0 in t.commands && 1 in t.commands && Names(t.commands[1].command, 0)
      && !Continues(t.commands[1].command, t.commands[0].command) && !Edges(t)
  {
    var home := Thread(naming) + 1;
    DeletionBreaksChain(naming);
    RunSnoc(naming, EndsAndDeletes(naming), Open(home, Task("", "", "a")));
    RunSnoc(naming, EndsAndDeletes(naming) + [Open(home, Task("", "", "a"))], Submit(home, "", "", 0, "", true, true));
    var t := Run(naming, Reuses(naming));
    assert 0 in t.commands && t.commands[0].command.quiet && t.commands[1].command == ASKED;
    assert !EdgeOk(t, 1);
  }
}
