/** Every run of the coordinator's tables: which rows steps may change. */
module ControlRuns {
  import opened Base
  import opened ControlStore
  import opened ExecutionEvents
  import opened AgentMessages
  import opened AgentReplies
  import opened CommandStop

  datatype Input =
    | NameOwner(node: Node, owner: Principal)
    | Open(id: Id, spec: Task)
    | Submit(task: Id, principal: Principal, surface: string, id: Id, text: string, quiet: bool, allowNew: bool)
    | Send(node: Node, names: map<Target, string>, destination: Option<set<Target>>, message: Message)
    | PublishBatch(task: Id, command: Id, events: seq<ExecutionEvent>, replier: string)
    | AckExecution(node: Node, task: Id, command: Id)
    | StopCommand(task: Id, command: Id)
    | AckStop(node: Node, task: Id, command: Id)
    | Delete(principal: Principal, task: Id)

  /** One transaction; an `Err` rolls back. */
  function Step(naming: Naming, t: Tables, input: Input): Result<Tables, Error> {
    match input
    case NameOwner(node, owner) => SetOwner(t, node, owner)
    case Open(id, spec) => OpenTask(t, id, spec)
    case Submit(task, principal, surface, id, text, quiet, allowNew) =>
      AdmitCommand(t, task, principal, surface, id, text, quiet, allowNew)
    case Send(node, names, destination, m) =>
      var admitted :- AdmitMessage(naming, t, node, names, destination, m);
      Ok(admitted.0)
    case PublishBatch(task, command, events, replier) => Publish(naming, t, task, command, events, replier)
    case AckExecution(node, task, command) => AcknowledgeExecution(t, node, task, command)
    case StopCommand(task, command) =>
      var admitted :- AdmitStop(t, task, command);
      Ok(admitted.0)
    case AckStop(node, task, command) => AcknowledgeStop(t, node, task, command)
    case Delete(principal, task) => DeleteTask(t, principal, task)
  }

  function Next(naming: Naming, t: Tables, input: Input): Tables {
    var stepped := Step(naming, t, input);
    if stepped.Ok? then stepped.value else t
  }

  function Run(naming: Naming, inputs: seq<Input>): Tables {
    if inputs == [] then NO_TABLES
    else Next(naming, Run(naming, inputs[..|inputs| - 1]), inputs[|inputs| - 1])
  }

  // Rows that stay ----------------------------------------------------------

  /** Without deletion, owners, tasks and commands only grow, and rows never change. */
  ghost predicate Extends(t: Tables, t': Tables) {
    && (forall node | node in t.owners :: node in t'.owners && t'.owners[node] == t.owners[node])
    && (forall id | id in t.tasks :: id in t'.tasks && t'.tasks[id] == t.tasks[id])
    && (forall id | id in t.commands :: id in t'.commands && t'.commands[id] == t.commands[id])
  }

  /** One command was added, under a new identity and in an existing task. */
  ghost predicate Inserts(t: Tables, t': Tables, id: Id) {
    && id !in t.commands && id in t'.commands
    && t'.commands == t.commands[id := t'.commands[id]]
    && t'.commands[id].task in t'.tasks
  }

  lemma PublishExtends(naming: Naming, t: Tables, task: Id, command: Id, events: seq<ExecutionEvent>, replier: string)
    requires Publish(naming, t, task, command, events, replier).Ok?
    ensures Extends(t, Publish(naming, t, task, command, events, replier).value)
  {
    var t1 := AdmitBatch(t, task, command, events).value.0;
    assert t1.commands == t.commands && t1.tasks == t.tasks && t1.owners == t.owners;
  }

  lemma SendExtends(
    naming: Naming, t: Tables, node: Node, names: map<Target, string>, destination: Option<set<Target>>, m: Message)
    requires AdmitMessage(naming, t, node, names, destination, m).Ok?
    ensures Extends(t, AdmitMessage(naming, t, node, names, destination, m).value.0)
  {
  }

  lemma StepExtends(naming: Naming, t: Tables, input: Input)
    requires !input.Delete? && Step(naming, t, input).Ok?
    ensures Extends(t, Step(naming, t, input).value)
  {
    match input
    case Send(node, names, destination, m) => SendExtends(naming, t, node, names, destination, m);
    case PublishBatch(task, command, events, replier) => PublishExtends(naming, t, task, command, events, replier);
    case _ =>
  }

  lemma RunSnoc(naming: Naming, inputs: seq<Input>, input: Input)
    ensures Run(naming, inputs + [input]) == Next(naming, Run(naming, inputs), input)
  {
    assert (inputs + [input])[..|inputs|] == inputs;
  }

  lemma RunAt(naming: Naming, inputs: seq<Input>, i: nat)
    requires i < |inputs|
    ensures Run(naming, inputs[..i + 1]) == Next(naming, Run(naming, inputs[..i]), inputs[i])
  {
    assert inputs[..i + 1] == inputs[..i] + [inputs[i]];
    RunSnoc(naming, inputs[..i], inputs[i]);
  }

  lemma NextExtends(naming: Naming, t: Tables, input: Input)
    requires !input.Delete?
    ensures Extends(t, Next(naming, t, input))
  {
    if Step(naming, t, input).Ok? {
      StepExtends(naming, t, input);
    }
  }

  /** A step that is no deletion changes no command, or inserts one. */
  lemma StepInserts(naming: Naming, t: Tables, input: Input) returns (id: Id)
    requires !input.Delete? && Step(naming, t, input).Ok?
    ensures var t' := Step(naming, t, input).value; t'.commands == t.commands || Inserts(t, t', id)
  {
    id := 0;
    match input
    case Submit(_, _, _, submitted, _, _, _) => id := submitted;
    case Send(_, _, _, m) => id := m.id;
    case PublishBatch(_, command, _, _) => id := naming.replyTo(command);
    case _ =>
  }

  // Row invariants ----------------------------------------------------------

  /** Commands live in tasks of their own principal and target, and events and
      stops belong to commands. */
  ghost predicate Rows(t: Tables) {
    && (forall id | id in t.commands ::
          && t.commands[id].task in t.tasks
          && t.commands[id].command.principal == t.tasks[t.commands[id].task].principal
          && t.commands[id].command.target == t.tasks[t.commands[id].task].target)
    && StreamsInv(t)
    && UniqueStops(t.stops)
    && (forall i | 0 <= i < |t.stops| :: t.stops[i].command in t.commands)
  }

  lemma {:induction false} OutsideContents(journal: seq<Entry>, task: Id, entry: Entry)
    ensures entry in EntriesOutside(journal, task) <==> entry in journal && entry.task != task
  {
    if journal != [] {
      OutsideContents(journal[1..], task, entry);
    }
  }

  lemma {:induction false} KeptStops(stops: seq<Stop>, kept: map<Id, CommandRow>)
    requires UniqueStops(stops)
    ensures UniqueStops(StopsFor(stops, kept))
    ensures forall i | 0 <= i < |StopsFor(stops, kept)| ::
      StopsFor(stops, kept)[i] in stops && StopsFor(stops, kept)[i].command in kept
  {
    if stops != [] {
      KeptStops(stops[1..], kept);
      var rest := StopsFor(stops[1..], kept);
      forall i | 0 <= i < |rest| ensures rest[i] in stops && rest[i].command != stops[0].command {
        var j :| 0 <= j < |stops[1..]| && stops[1..][j] == rest[i];
        assert stops[j + 1] == rest[i];
      }
    }
  }

  lemma DeleteKeepsRows(t: Tables, principal: Principal, task: Id)
    requires Rows(t) && DeleteTask(t, principal, task).Ok?
    ensures Rows(DeleteTask(t, principal, task).value)
  {
    var t' := DeleteTask(t, principal, task).value;
    if t' != t {
      forall i | 0 <= i < |t'.journal|
        ensures t'.journal[i] in t.journal && t'.journal[i].task != task
      {
        OutsideContents(t.journal, task, t'.journal[i]);
      }
      KeptStops(t.stops, t'.commands);
    }
  }

  lemma InsertKeepsRows(t: Tables, id: Id, task: Id, command: Command)
    requires Rows(t) && InsertCommand(t, id, task, command).Ok?
    requires command.principal == t.tasks[task].principal && command.target == t.tasks[task].target
    ensures Rows(InsertCommand(t, id, task, command).value)
  {
  }

  lemma PublishKeepsRows(naming: Naming, t: Tables, task: Id, command: Id, events: seq<ExecutionEvent>, replier: string)
    requires Rows(t) && Publish(naming, t, task, command, events, replier).Ok?
    ensures Rows(Publish(naming, t, task, command, events, replier).value)
  {
    BatchKeepsStreams(t, task, command, events);
    var (t1, appended) := AdmitBatch(t, task, command, events).value;
    assert Rows(t1);
    var t2 := Publish(naming, t, task, command, events, replier).value;
    if t2 != t1 {
      var asker := t1.commands[t1.commands[command].command.origin.value.fromCommand];
      InsertKeepsRows(t1, naming.replyTo(command), asker.task,
        AnswerCommand(t1, task, command, asker, FindTerminal(appended).value, replier));
    }
  }

  lemma SendKeepsRows(
    naming: Naming, t: Tables, node: Node, names: map<Target, string>, destination: Option<set<Target>>, m: Message)
    requires Rows(t) && AdmitMessage(naming, t, node, names, destination, m).Ok?
    ensures Rows(AdmitMessage(naming, t, node, names, destination, m).value.0)
  {
    var c := CheckMessage(naming, t, node, m).value;
    if m.id !in t.commands {
      var bound := OpenThread(t, c.task, Task(c.principal, m.toNode, m.toTarget)).value;
      assert Rows(bound);
      InsertKeepsRows(bound, m.id, c.task, RequestCommand(c.principal, c.source, c.from, m, names[c.from], c.depth));
    }
  }

  lemma StopsKeepRows(t: Tables, stops: seq<Stop>)
    requires Rows(t) && UniqueStops(stops) && forall i | 0 <= i < |stops| :: stops[i].command in t.commands
    ensures Rows(t.(stops := stops))
  {
  }

  lemma SameRows(t: Tables, t': Tables)
    requires Rows(t) && t'.commands == t.commands && t'.streams == t.streams && t'.journal == t.journal && t'.stops == t.stops
    requires forall id | id in t.tasks :: id in t'.tasks && t'.tasks[id] == t.tasks[id]
    ensures Rows(t')
  {
  }

  lemma SubmitKeepsRows(
    t: Tables, task: Id, principal: Principal, surface: string, id: Id, text: string, quiet: bool, allowNew: bool)
    requires Rows(t) && AdmitCommand(t, task, principal, surface, id, text, quiet, allowNew).Ok?
    ensures Rows(AdmitCommand(t, task, principal, surface, id, text, quiet, allowNew).value)
  {
    if id !in t.commands && allowNew {
      InsertKeepsRows(t, id, task, Command(principal, surface, t.tasks[task].target, text, quiet, None));
    }
  }

  lemma StopKeepsRows(t: Tables, task: Id, command: Id)
    requires Rows(t) && AdmitStop(t, task, command).Ok?
    ensures Rows(AdmitStop(t, task, command).value.0)
  {
    StopsKeepRows(t, AdmitStop(t, task, command).value.0.stops);
  }

  lemma AckKeepsRows(t: Tables, node: Node, task: Id, command: Id)
    requires Rows(t) && AcknowledgeStop(t, node, task, command).Ok?
    ensures Rows(AcknowledgeStop(t, node, task, command).value)
  {
    StopsKeepRows(t, AcknowledgeStop(t, node, task, command).value.stops);
  }

  lemma StepKeepsRows(naming: Naming, t: Tables, input: Input)
    requires Rows(t) && Step(naming, t, input).Ok?
    ensures Rows(Step(naming, t, input).value)
  {
    var t' := Step(naming, t, input).value;
    match input
    case NameOwner(_, _) => SameRows(t, t');
    case Open(_, _) => SameRows(t, t');
    case Submit(task, principal, surface, id, text, quiet, allowNew) =>
      SubmitKeepsRows(t, task, principal, surface, id, text, quiet, allowNew);
    case Send(node, names, destination, m) => SendKeepsRows(naming, t, node, names, destination, m);
    case PublishBatch(task, command, events, replier) => PublishKeepsRows(naming, t, task, command, events, replier);
    case AckExecution(_, _, _) => SameRows(t, t');
    case StopCommand(task, command) => StopKeepsRows(t, task, command);
    case AckStop(node, task, command) => AckKeepsRows(t, node, task, command);
    case Delete(principal, task) => DeleteKeepsRows(t, principal, task);
  }

  lemma {:induction false} RunKeepsRows(naming: Naming, inputs: seq<Input>)
    ensures Rows(Run(naming, inputs))
  {
    if inputs != [] {
      var before := inputs[..|inputs| - 1];
      RunKeepsRows(naming, before);
      if Step(naming, Run(naming, before), inputs[|inputs| - 1]).Ok? {
        StepKeepsRows(naming, Run(naming, before), inputs[|inputs| - 1]);
      }
    }
  }

  // Rows that last ----------------------------------------------------------

  /** The command's row is there after every prefix of `after`. */
  ghost predicate Stays(naming: Naming, before: seq<Input>, after: seq<Input>, command: Id) {
    forall n | 0 <= n <= |after| :: command in Run(naming, before + after[..n]).commands
  }

  lemma StaysBefore(naming: Naming, before: seq<Input>, after: seq<Input>, command: Id)
    requires Stays(naming, before, after, command) && after != []
    ensures Stays(naming, before, after[..|after| - 1], command)
    ensures command in Run(naming, before + after[..|after| - 1]).commands && command in Run(naming, before + after).commands
  {
    var most := after[..|after| - 1];
    forall n | 0 <= n <= |most| ensures command in Run(naming, before + most[..n]).commands {
      assert most[..n] == after[..n];
    }
    assert after[..|after|] == after;
  }

  ghost predicate SameRow(t: Tables, t': Tables, id: Id) {
    && id in t.commands && id in t'.commands && t'.commands[id] == t.commands[id]
    && t.commands[id].task in t.tasks && t.commands[id].task in t'.tasks
    && t'.tasks[t.commands[id].task] == t.tasks[t.commands[id].task]
  }

  ghost predicate SameOwners(t: Tables, t': Tables) {
    forall node | node in t.owners :: node in t'.owners && t'.owners[node] == t.owners[node]
  }

  lemma NextKeepsRow(naming: Naming, t: Tables, input: Input, id: Id)
    requires Rows(t) && id in t.commands && id in Next(naming, t, input).commands
    ensures SameRow(t, Next(naming, t, input), id)
  {
    if !input.Delete? {
      NextExtends(naming, t, input);
    }
  }

  /** A command whose row lasts keeps its content, its task and the task's binding,
      whatever else is deleted meanwhile. */
  lemma {:induction false} RunKeepsRow(naming: Naming, before: seq<Input>, after: seq<Input>, id: Id)
    requires Stays(naming, before, after, id)
    ensures SameRow(Run(naming, before), Run(naming, before + after), id)
    decreases |after|
  {
    if after == [] {
      assert before + after[..0] == before + after == before;
      RunKeepsRows(naming, before);
    } else {
      var most, last := after[..|after| - 1], after[|after| - 1];
      StaysBefore(naming, before, after, id);
      RunKeepsRow(naming, before, most, id);
      assert before + after == (before + most) + [last];
      RunSnoc(naming, before + most, last);
      RunKeepsRows(naming, before + most);
      NextKeepsRow(naming, Run(naming, before + most), last, id);
    }
  }

  lemma NextKeepsOwners(naming: Naming, t: Tables, input: Input)
    ensures SameOwners(t, Next(naming, t, input))
  {
    if !input.Delete? {
      NextExtends(naming, t, input);
    }
  }

  /** Owners are never taken back. */
  lemma {:induction false} RunKeepsOwners(naming: Naming, before: seq<Input>, after: seq<Input>)
    ensures SameOwners(Run(naming, before), Run(naming, before + after))
    decreases |after|
  {
    if after == [] {
      assert before + after == before;
    } else {
      var most, last := after[..|after| - 1], after[|after| - 1];
      RunKeepsOwners(naming, before, most);
      assert before + after == (before + most) + [last];
      RunSnoc(naming, before + most, last);
      NextKeepsOwners(naming, Run(naming, before + most), last);
    }
  }
}
