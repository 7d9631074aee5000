/** Threads, answers and re-sent messages over every run of the coordinator. */
module AgentThreads {
  import opened Base
  import opened ControlStore
  import opened ExecutionEvents
  import opened AgentMessages
  import opened AgentReplies
  import opened ControlRuns
  import opened AgentChains

  // One conversation per thread ---------------------------------------------

  function Destination(t: Tables, id: Id): Agent
    requires id in t.commands && t.commands[id].task in t.tasks
  {
    Agent(t.tasks[t.commands[id].task].node, t.tasks[t.commands[id].task].target)
  }

  /** `sender` is an agent whose request to this task's agent belongs in this task. */
  predicate SentBy(naming: Naming, t: Tables, id: Id, sender: Agent) {
    && id in t.commands && IsRequest(t.commands[id].command) && t.commands[id].task in t.tasks
    && sender.target == t.commands[id].command.origin.value.from
    && t.commands[id].task == ThreadTask(naming, t.commands[id].command.principal, sender, Destination(t, id))
  }

  ghost predicate Threads(naming: Naming, t: Tables) {
    forall id | id in t.commands && IsRequest(t.commands[id].command) :: exists sender :: SentBy(naming, t, id, sender)
  }

  lemma SentByStays(naming: Naming, t: Tables, t': Tables, id: Id, sender: Agent)
    requires SentBy(naming, t, id, sender)
    requires id in t'.commands && t'.commands[id] == t.commands[id]
    requires t.commands[id].task in t'.tasks && t'.tasks[t.commands[id].task] == t.tasks[t.commands[id].task]
    ensures SentBy(naming, t', id, sender)
  {
  }

  lemma ThreadsStay(naming: Naming, t: Tables, t': Tables, added: set<Id>)
    requires Threads(naming, t)
    requires forall id | id in t'.commands && id !in added :: SameRow(t, t', id)
    requires forall id | id in added && id in t'.commands && IsRequest(t'.commands[id].command) ::
      exists sender :: SentBy(naming, t', id, sender)
    ensures Threads(naming, t')
  {
    forall id | id in t'.commands && IsRequest(t'.commands[id].command) ensures exists sender :: SentBy(naming, t', id, sender) {
      if id !in added {
        assert SameRow(t, t', id);
        var sender :| SentBy(naming, t, id, sender);
        SentByStays(naming, t, t', id, sender);
      }
    }
  }

  lemma SendIsThreaded(
    naming: Naming, t: Tables, node: Node, names: map<Target, string>, destination: Option<set<Target>>, m: Message)
    requires AdmitMessage(naming, t, node, names, destination, m).Ok? && m.id !in t.commands
    ensures m.fromCommand in t.commands && t.commands[m.fromCommand].task in t.tasks
    ensures SentBy(naming, AdmitMessage(naming, t, node, names, destination, m).value.0, m.id,
                   Agent(node, t.tasks[t.commands[m.fromCommand].task].target))
  {
  }

  lemma InsertKeepsThreads(naming: Naming, t: Tables, input: Input, id: Id)
    requires Rows(t) && Threads(naming, t) && !input.Delete? && Step(naming, t, input).Ok?
    requires Extends(t, Step(naming, t, input).value) && Inserts(t, Step(naming, t, input).value, id)
    ensures Threads(naming, Step(naming, t, input).value)
  {
    var t' := Step(naming, t, input).value;
    OnlySendsRequest(naming, t, input, id);
    if input.Send? && input.message.id == id {
      SendIsThreaded(naming, t, input.node, input.names, input.destination, input.message);
    }
    ThreadsStay(naming, t, t', {id});
  }

  lemma StepKeepsThreads(naming: Naming, t: Tables, input: Input)
    requires Rows(t) && Threads(naming, t) && Step(naming, t, input).Ok?
    ensures Threads(naming, Step(naming, t, input).value)
  {
    var t' := Step(naming, t, input).value;
    if input.Delete? {
      ThreadsStay(naming, t, t', {});
    } else {
      StepExtends(naming, t, input);
      var id := StepInserts(naming, t, input);
      if t'.commands == t.commands {
        ThreadsStay(naming, t, t', {});
      } else {
        InsertKeepsThreads(naming, t, input, id);
      }
    }
  }

  lemma OnlySendsRequest(naming: Naming, t: Tables, input: Input, id: Id)
    requires !input.Delete? && Step(naming, t, input).Ok? && Inserts(t, Step(naming, t, input).value, id)
    ensures IsRequest(Step(naming, t, input).value.commands[id].command) ==> input.Send? && input.message.id == id
  {
  }

  lemma {:induction false} RunKeepsThreads(naming: Naming, inputs: seq<Input>)
    ensures Threads(naming, Run(naming, inputs))
  {
    if inputs != [] {
      var before := inputs[..|inputs| - 1];
      RunKeepsThreads(naming, before);
      RunKeepsRows(naming, before);
      if Step(naming, Run(naming, before), inputs[|inputs| - 1]).Ok? {
        StepKeepsThreads(naming, Run(naming, before), inputs[|inputs| - 1]);
      }
    }
  }

  /** All requests in one task were sent by one agent of one owner to one agent,
      over every run, including deletions and surfaces that open tasks under any
      identity, and although thread names alone can collide. */
  lemma ThreadIsOneConversation(naming: Naming, inputs: seq<Input>, a: Id, b: Id) returns (sender: Agent)
    requires Injective(naming)
    requires var t := Run(naming, inputs);
      && a in t.commands && b in t.commands && t.commands[a].task == t.commands[b].task
      && IsRequest(t.commands[a].command) && IsRequest(t.commands[b].command)
    ensures var t := Run(naming, inputs);
      && t.commands[a].task in t.tasks
      && t.commands[a].command.principal == t.commands[b].command.principal
      && t.commands[a].command.target == t.commands[b].command.target
      && (forall other :: SentBy(naming, t, a, other) <==> other == sender)
      && (forall other :: SentBy(naming, t, b, other) <==> other == sender)
  {
    RunKeepsThreads(naming, inputs);
    RunKeepsRows(naming, inputs);
    var t := Run(naming, inputs);
    sender :| SentBy(naming, t, a, sender);
    var sender' :| SentBy(naming, t, b, sender');
    var principal, to := t.commands[a].command.principal, Destination(t, a);
    ThreadHasOneSender(naming, principal, sender, sender', to);
    forall other | SentBy(naming, t, a, other) || SentBy(naming, t, b, other) ensures other == sender {
      ThreadHasOneSender(naming, principal, sender, other, to);
    }
  }

  // Answers -----------------------------------------------------------------

  /** The batch ends a request whose asking command exists. */
  predicate EndsRequest(t: Tables, ended: Tables, command: Id)
    requires command in t.commands
  {
    var asked := t.commands[command].command;
    ended.Settled(command) && !t.Settled(command) && IsRequest(asked) && asked.origin.value.fromCommand in t.commands
  }

  /** A batch admits an answer exactly when it ends a request whose asking command
      exists; the answer goes to the asker's task under the request's own identity,
      for its owner and agent, from the agent that was asked, and says what the
      execution came to. Exactly when that identity is taken, the batch is refused. */
  lemma PublishAnswersOnce(naming: Naming, t: Tables, task: Id, command: Id, events: seq<ExecutionEvent>, replier: string)
    requires Rows(t) && AdmitBatch(t, task, command, events).Ok?
    ensures command in t.commands
    ensures var answers := EndsRequest(t, AdmitBatch(t, task, command, events).value.0, command);
      var published, answer := Publish(naming, t, task, command, events, replier), naming.replyTo(command);
      && (published.Err? <==> answers && answer in t.commands)
      && (published.Ok? ==>
            && published.value.streams == AdmitBatch(t, task, command, events).value.0.streams
            && published.value.journal == AdmitBatch(t, task, command, events).value.0.journal)
      && (published.Ok? && !answers ==> published.value.commands == t.commands)
      && (published.Ok? && answers ==>
            && Inserts(t, published.value, answer) && Answer(t, published.value, task, command, events, answer)
            && published.value.commands[answer].command.origin.value.name == replier)
  {
    BatchEndsOnce(t, task, command, events);
    var (t1, appended) := AdmitBatch(t, task, command, events).value;
    assert t1.commands == t.commands && t1.tasks == t.tasks;
    if EndsRequest(t, t1, command) {
      BatchEndsLast(t, task, command, events);
      var asker := t.commands[t.commands[command].command.origin.value.fromCommand];
      AnswerSays(t1, task, command, asker, events[|events| - 1].kind.terminal, replier);
    }
  }

  /** What the answer to a request is that a batch has ended. */
  ghost predicate Answer(t: Tables, t': Tables, task: Id, command: Id, events: seq<ExecutionEvent>, id: Id) {
    && command in t.commands && IsRequest(t.commands[command].command) && id in t'.commands
    && var asking := t.commands[command].command.origin.value.fromCommand;
    && asking in t.commands && t'.commands[id].task == t.commands[asking].task
    && t'.commands[id].task in t.tasks && task in t.tasks
    && var (home, answer) := (t.tasks[t'.commands[id].task], t'.commands[id].command);
    && answer.principal == home.principal && answer.target == home.target && answer.surface == AGENT_SURFACE
    && answer.quiet == t.commands[asking].command.quiet
    && IsAnswer(answer) && Names(answer, command) && answer.origin.value.from == t.tasks[task].target
    && events != [] && events[|events| - 1].kind.Terminated?
    && Says(t'.journal, task, command, events[|events| - 1].kind.terminal, answer.origin.value.kind, answer.text)
  }

  /** Terminal events that a batch appends are its last event. */
  lemma AppendedTerminals(t: Tables, task: Id, command: Id, events: seq<ExecutionEvent>)
    requires StreamsInv(t) && AdmitBatch(t, task, command, events).Ok?
    ensures var (t', appended) := AdmitBatch(t, task, command, events).value;
      && events != [] && t'.journal == t.journal + appended
      && (forall k | 0 <= k < |appended| && appended[k].event.kind.Terminated? ::
            appended[k].event == events[|events| - 1] && appended[k].command == command)
  {
    var next := StartCursor(t, command, events).value;
    AppendGrows(Cursor(t.journal, [], next, t.Settled(command)), task, command, events);
  }

  /** The terminal event that ends a stream is the last event of its batch, and new. */
  lemma BatchEndsLast(t: Tables, task: Id, command: Id, events: seq<ExecutionEvent>)
    requires StreamsInv(t) && AdmitBatch(t, task, command, events).Ok? && Ends(AdmitBatch(t, task, command, events).value.1)
    ensures events != [] && events[|events| - 1].kind.Terminated?
    ensures var (t', appended) := AdmitBatch(t, task, command, events).value;
      && FindTerminal(appended) == Some(events[|events| - 1].kind.terminal)
      && EndedWith(t'.journal, command, events[|events| - 1].kind.terminal)
  {
    AppendedTerminals(t, task, command, events);
    var (t', appended) := AdmitBatch(t, task, command, events).value;
    var i :| 0 <= i < |appended| && appended[i].event.kind.Terminated?;
    TerminalIsLast(appended, events[|events| - 1].kind.terminal);
    assert t'.journal[|t.journal| + i] == appended[i];
  }

  /** The journal holds this ending of the command. */
  predicate EndedWith(journal: seq<Entry>, command: Id, terminal: Terminal) {
    exists i :: 0 <= i < |journal| && journal[i].command == command && journal[i].event.kind == Terminated(terminal)
  }

  /** Answers and ended requests correspond one to one. */
  ghost predicate Answers(naming: Naming, t: Tables) {
    && (forall id | id in t.commands && IsAnswer(t.commands[id].command) ::
          AnswerOk(naming, t, id))
    && (forall id | id in t.commands && IsRequest(t.commands[id].command) && t.Settled(id) ::
          && naming.replyTo(id) in t.commands
          && IsAnswer(t.commands[naming.replyTo(id)].command) && Names(t.commands[naming.replyTo(id)].command, id))
  }

  ghost predicate AnswerOk(naming: Naming, t: Tables, id: Id)
    requires id in t.commands && IsAnswer(t.commands[id].command)
  {
    var request := t.commands[id].command.origin.value.fromCommand;
    && id == naming.replyTo(request)
    && request in t.commands && IsRequest(t.commands[request].command) && t.Settled(request)
    && (var asking := t.commands[request].command.origin.value.fromCommand;
        asking in t.commands && t.commands[id].task == t.commands[asking].task)
  }

  lemma SettledStays(naming: Naming, t: Tables, input: Input, id: Id)
    requires Rows(t) && !input.Delete? && Step(naming, t, input).Ok?
    ensures t.Settled(id) ==> Step(naming, t, input).value.Settled(id)
    ensures Step(naming, t, input).value.Settled(id) && !t.Settled(id) ==> input.PublishBatch? && input.command == id
  {
    if input.PublishBatch? {
      BatchEndsOnce(t, input.task, input.command, input.events);
    } else {
      OthersKeepStreams(naming, t, input);
    }
  }

  lemma OthersKeepStreams(naming: Naming, t: Tables, input: Input)
    requires !input.Delete? && !input.PublishBatch? && Step(naming, t, input).Ok?
    ensures Step(naming, t, input).value.streams == t.streams && Step(naming, t, input).value.journal == t.journal
  {
  }

  lemma AnswersStay(naming: Naming, t: Tables, t': Tables)
    requires Answers(naming, t) && Extends(t, t') && forall id :: t.Settled(id) ==> t'.Settled(id)
    ensures forall id | id in t.commands && IsAnswer(t.commands[id].command) :: AnswerOk(naming, t', id)
  {
    forall id | id in t.commands && IsAnswer(t.commands[id].command) ensures AnswerOk(naming, t', id) {
      assert AnswerOk(naming, t, id);
    }
  }

  lemma PublishKeepsAnswers(naming: Naming, t: Tables, input: Input)
    requires Rows(t) && Rooted(t) && Answers(naming, t) && input.PublishBatch? && Step(naming, t, input).Ok?
    ensures Answers(naming, Step(naming, t, input).value)
  {
    var t' := Step(naming, t, input).value;
    PublishAnswersOnce(naming, t, input.task, input.command, input.events, input.replier);
    StepExtends(naming, t, input);
    forall id ensures (t.Settled(id) ==> t'.Settled(id)) && (t'.Settled(id) && !t.Settled(id) ==> id == input.command) {
      SettledStays(naming, t, input, id);
    }
    AnswersStay(naming, t, t');
    forall id | id in t'.commands && IsAnswer(t'.commands[id].command) ensures AnswerOk(naming, t', id) {
      if id in t.commands {
        assert AnswerOk(naming, t', id);
      }
    }
  }

  lemma OtherKeepsAnswers(naming: Naming, t: Tables, input: Input)
    requires Rows(t) && Answers(naming, t) && !input.PublishBatch? && !input.Delete? && Step(naming, t, input).Ok?
    ensures Answers(naming, Step(naming, t, input).value)
  {
    var t' := Step(naming, t, input).value;
    StepExtends(naming, t, input);
    var added := StepInserts(naming, t, input);
    OthersKeepStreams(naming, t, input);
    assert forall id :: t'.Settled(id) == t.Settled(id);
    AnswersStay(naming, t, t');
    if t'.commands != t.commands {
      OthersInsertNoAnswer(naming, t, input, added);
      assert !t.Settled(added);
    }
  }

  lemma OthersInsertNoAnswer(naming: Naming, t: Tables, input: Input, id: Id)
    requires !input.Delete? && !input.PublishBatch? && Step(naming, t, input).Ok?
    requires Inserts(t, Step(naming, t, input).value, id)
    ensures !IsAnswer(Step(naming, t, input).value.commands[id].command)
  {
  }

  /** Deleting a detached task removes requests together with their answers. */
  lemma DeleteKeepsAnswers(naming: Naming, t: Tables, principal: Principal, task: Id)
    requires Rows(t) && Answers(naming, t) && Detached(t, task) && DeleteTask(t, principal, task).Ok?
    ensures Answers(naming, DeleteTask(t, principal, task).value)
  {
    var t' := DeleteTask(t, principal, task).value;
    if task in t.tasks {
      forall id | id in t'.commands && IsAnswer(t'.commands[id].command) ensures AnswerOk(naming, t', id) {
        assert AnswerOk(naming, t, id);
        assert !NamesInto(t, id, task);
        assert !NamesInto(t, t.commands[id].command.origin.value.fromCommand, task);
      }
      forall id | id in t'.commands && IsRequest(t'.commands[id].command) && t'.Settled(id)
        ensures naming.replyTo(id) in t'.commands
        ensures IsAnswer(t'.commands[naming.replyTo(id)].command) && Names(t'.commands[naming.replyTo(id)].command, id)
      {
        assert AnswerOk(naming, t, naming.replyTo(id));
        assert !NamesInto(t, id, task);
      }
    }
  }

  lemma NextKeepsAnswers(naming: Naming, t: Tables, input: Input)
    requires Rows(t) && Rooted(t) && Answers(naming, t) && DeletesDetached(t, input)
    ensures Answers(naming, Next(naming, t, input))
  {
    if Step(naming, t, input).Ok? {
      if input.PublishBatch? {
        PublishKeepsAnswers(naming, t, input);
      } else if !input.Delete? {
        OtherKeepsAnswers(naming, t, input);
      } else if input.task in t.tasks {
        DeleteKeepsAnswers(naming, t, input.principal, input.task);
      }
    }
  }

  lemma {:induction false} RunKeepsAnswers(naming: Naming, inputs: seq<Input>)
    requires CleanRun(naming, inputs)
    ensures Answers(naming, Run(naming, inputs))
  {
    if inputs != [] {
      var before := inputs[..|inputs| - 1];
      CleanBefore(naming, inputs);
      RunKeepsAnswers(naming, before);
      RunKeepsRooted(naming, before);
      RunKeepsRows(naming, before);
      NextKeepsAnswers(naming, Run(naming, before), inputs[|inputs| - 1]);
    }
  }

  /** `answer` is the answer to `request`. */
  predicate IsAnswerTo(t: Tables, answer: Id, request: Id)
    requires answer in t.commands
  {
    IsAnswer(t.commands[answer].command) && Names(t.commands[answer].command, request)
  }

  /** The task of the command that asked `request`, if there is one. */
  function AskerTask(t: Tables, request: Id): Option<Id>
    requires request in t.commands && IsRequest(t.commands[request].command)
  {
    var asking := t.commands[request].command.origin.value.fromCommand;
    if asking in t.commands then Some(t.commands[asking].task) else None
  }

  /** Over all batches, re-sends and deletions of detached tasks, a request that has
      ended has an answer, in the asker's task, and no other; a request that has not
      ended has none; and an answer is never itself answered. */
  lemma EndedRequestsHaveOneAnswer(naming: Naming, inputs: seq<Input>, request: Id)
    requires CleanRun(naming, inputs) && request in Run(naming, inputs).commands
    ensures var t, answer := Run(naming, inputs), naming.replyTo(request);
      && (forall other | other in t.commands && IsAnswerTo(t, other, request) :: other == answer)
      && (IsRequest(t.commands[request].command) && t.Settled(request) <==> answer in t.commands && IsAnswerTo(t, answer, request))
      && (answer in t.commands && IsAnswerTo(t, answer, request) ==>
            IsRequest(t.commands[request].command) && AskerTask(t, request) == Some(t.commands[answer].task))
  {
    RunKeepsAnswers(naming, inputs);
    var t, answer := Run(naming, inputs), naming.replyTo(request);
    forall other | other in t.commands && IsAnswerTo(t, other, request)
      ensures other == answer && IsRequest(t.commands[request].command) && t.Settled(request)
      ensures AskerTask(t, request) == Some(t.commands[other].task)
    {
      assert AnswerOk(naming, t, other);
    }
  }

  // Answers in every run ----------------------------------------------------

  /** Every answer has the identity derived from the request it answers. */
  ghost predicate AnswersNamed(naming: Naming, t: Tables) {
    forall id | id in t.commands && IsAnswer(t.commands[id].command) ::
      id == naming.replyTo(t.commands[id].command.origin.value.fromCommand)
  }

  lemma PublishKeepsNamed(naming: Naming, t: Tables, input: Input)
    requires Rows(t) && AnswersNamed(naming, t) && input.PublishBatch? && Step(naming, t, input).Ok?
    ensures AnswersNamed(naming, Step(naming, t, input).value)
  {
    PublishAnswersOnce(naming, t, input.task, input.command, input.events, input.replier);
  }

  lemma OtherKeepsNamed(naming: Naming, t: Tables, input: Input)
    requires AnswersNamed(naming, t) && !input.PublishBatch? && !input.Delete? && Step(naming, t, input).Ok?
    ensures AnswersNamed(naming, Step(naming, t, input).value)
  {
    var added := StepInserts(naming, t, input);
    if Step(naming, t, input).value.commands != t.commands {
      OthersInsertNoAnswer(naming, t, input, added);
    }
  }

  lemma NextKeepsNamed(naming: Naming, t: Tables, input: Input)
    requires Rows(t) && AnswersNamed(naming, t)
    ensures AnswersNamed(naming, Next(naming, t, input))
  {
    if Step(naming, t, input).Ok? && !input.Delete? {
      if input.PublishBatch? {
        PublishKeepsNamed(naming, t, input);
      } else {
        OtherKeepsNamed(naming, t, input);
      }
    }
  }

  lemma {:induction false} RunKeepsNamed(naming: Naming, inputs: seq<Input>)
    ensures AnswersNamed(naming, Run(naming, inputs))
  {
    if inputs != [] {
      var before := inputs[..|inputs| - 1];
      RunKeepsNamed(naming, before);
      RunKeepsRows(naming, before);
      NextKeepsNamed(naming, Run(naming, before), inputs[|inputs| - 1]);
    }
  }

  /** In every run, whatever is deleted, no request has two answers. */
  lemma NoSecondAnswer(naming: Naming, inputs: seq<Input>, request: Id, a: Id, b: Id)
    requires var t := Run(naming, inputs);
      a in t.commands && b in t.commands && IsAnswerTo(t, a, request) && IsAnswerTo(t, b, request)
    ensures a == b == naming.replyTo(request)
  {
    RunKeepsNamed(naming, inputs);
  }

  /** The answer to `request` exists. */
  predicate Answered(naming: Naming, t: Tables, request: Id) {
    naming.replyTo(request) in t.commands && IsAnswerTo(t, naming.replyTo(request), request)
  }

  /** The answer comes from the agent that was asked, and says what the journal does. */
  ghost predicate AnswersTruly(naming: Naming, t: Tables, request: Id)
    requires request in t.commands && Answered(naming, t, request)
  {
    var task, answer := t.commands[request].task, t.commands[naming.replyTo(request)].command;
    && task in t.tasks && answer.surface == AGENT_SURFACE && answer.origin.value.from == t.tasks[task].target
    && exists terminal :: EndedWith(t.journal, request, terminal)
         && Says(t.journal, task, request, terminal, answer.origin.value.kind, answer.text)
  }

  /** Once the request ended, its answer is in the asker's task and true, and a new answer
      means that it ended; `already` says that one was left over when it was admitted. */
  ghost predicate AnswerFollows(naming: Naming, t: Tables, request: Id, asker: Id, already: bool) {
    && request in t.commands && asker in t.commands
    && IsRequest(t.commands[request].command) && Names(t.commands[request].command, asker)
    && (t.Settled(request) ==>
          && Answered(naming, t, request) && t.commands[naming.replyTo(request)].task == t.commands[asker].task
          && AnswersTruly(naming, t, request))
    && (Answered(naming, t, request) && !already ==> t.Settled(request))
  }

  lemma SaysStays(
    before: seq<Entry>, journal: seq<Entry>, task: Id, command: Id, terminal: Terminal, kind: Kind, text: string)
    requires before <= journal && forall k: nat | k >= |before| :: !Speaks(journal, task, command, k)
    requires Says(before, task, command, terminal, kind, text) && EndedWith(before, command, terminal)
    ensures Says(journal, task, command, terminal, kind, text) && EndedWith(journal, command, terminal)
  {
    var i :| 0 <= i < |before| && before[i].command == command && before[i].event.kind == Terminated(terminal);
    assert journal[i] == before[i];
    if terminal.Completed? {
      var words :| LatestWords(before, task, command, words) && LongestWithin(words, MAX_MESSAGE_BYTES, text);
      LatestStays(before, journal, task, command, words);
    }
  }

  lemma TruthStays(naming: Naming, t: Tables, t': Tables, request: Id)
    requires request in t.commands && Answered(naming, t, request) && AnswersTruly(naming, t, request)
    requires SameRow(t, t', request) && naming.replyTo(request) in t'.commands
    requires t'.commands[naming.replyTo(request)] == t.commands[naming.replyTo(request)] && t.journal <= t'.journal
    requires forall k: nat | |t.journal| <= k < |t'.journal| :: t'.journal[k].command != request
    ensures AnswersTruly(naming, t', request)
  {
    var task, answer := t.commands[request].task, t.commands[naming.replyTo(request)].command;
    var terminal :| EndedWith(t.journal, request, terminal)
      && Says(t.journal, task, request, terminal, answer.origin.value.kind, answer.text);
    SaysStays(t.journal, t'.journal, task, request, terminal, answer.origin.value.kind, answer.text);
  }

  lemma {:induction false} OutsideSnoc(journal: seq<Entry>, entry: Entry, task: Id)
    ensures EntriesOutside(journal + [entry], task) ==
      EntriesOutside(journal, task) + (if entry.task == task then [] else [entry])
  {
    if journal == [] {
      assert journal + [entry] == [entry] && [entry][1..] == [];
    } else {
      assert (journal + [entry])[1..] == journal[1..] + [entry];
      OutsideSnoc(journal[1..], entry, task);
    }
  }

  lemma {:induction false} OutsideKeepsWords(journal: seq<Entry>, deleted: Id, task: Id, command: Id)
    requires task != deleted
    ensures LastAssistantText(EntriesOutside(journal, deleted), task, command) == LastAssistantText(journal, task, command)
  {
    if journal != [] {
      var before, last := journal[..|journal| - 1], journal[|journal| - 1];
      assert journal == before + [last];
      OutsideKeepsWords(before, deleted, task, command);
      OutsideSnoc(before, last, deleted);
      var kept := EntriesOutside(before, deleted);
      if last.task != deleted {
        assert (kept + [last])[..|kept|] == kept;
      } else {
        assert kept + [] == kept;
      }
    }
  }

  /** Deleting another task leaves what an execution came to. */
  lemma OutsideSays(journal: seq<Entry>, deleted: Id, task: Id, command: Id, terminal: Terminal, kind: Kind, text: string)
    requires task != deleted && Says(journal, task, command, terminal, kind, text) && EndedWith(journal, command, terminal)
    requires forall i | 0 <= i < |journal| && journal[i].command == command :: journal[i].task == task
    ensures Says(EntriesOutside(journal, deleted), task, command, terminal, kind, text)
    ensures EndedWith(EntriesOutside(journal, deleted), command, terminal)
  {
    var kept := EntriesOutside(journal, deleted);
    var i :| 0 <= i < |journal| && journal[i].command == command && journal[i].event.kind == Terminated(terminal);
    OutsideContents(journal, deleted, journal[i]);
    var j :| 0 <= j < |kept| && kept[j] == journal[i];
    if terminal.Completed? {
      var words :| LatestWords(journal, task, command, words) && LongestWithin(words, MAX_MESSAGE_BYTES, text);
      LatestIsLast(journal, task, command);
      LatestIsUnique(journal, task, command, words, LastAssistantText(journal, task, command));
      OutsideKeepsWords(journal, deleted, task, command);
      LatestIsLast(kept, task, command);
    }
  }

  lemma BatchAppends(t: Tables, task: Id, command: Id, events: seq<ExecutionEvent>)
    requires StreamsInv(t) && AdmitBatch(t, task, command, events).Ok?
    ensures var journal := AdmitBatch(t, task, command, events).value.0.journal;
      && t.journal <= journal
      && (forall k: nat | |t.journal| <= k < |journal| :: journal[k].command == command)
      && (t.Settled(command) ==> journal == t.journal)
  {
    BatchEndsOnce(t, task, command, events);
    var (t', appended) := AdmitBatch(t, task, command, events).value;
    assert forall k: nat | |t.journal| <= k < |t'.journal| :: t'.journal[k] == appended[k - |t.journal|];
  }

  /** The batch that ends the request gives it its answer. */
  lemma EndingIsAnswered(naming: Naming, t: Tables, input: Input, request: Id)
    requires Rows(t) && input.PublishBatch? && Step(naming, t, input).Ok? && request in t.commands
    requires Step(naming, t, input).value.Settled(request) && !t.Settled(request) && input.command == request
    requires IsRequest(t.commands[request].command) && t.commands[request].command.origin.value.fromCommand in t.commands
    ensures var t' := Step(naming, t, input).value;
      && request in t'.commands && Answered(naming, t', request) && AnswersTruly(naming, t', request)
      && t'.commands[naming.replyTo(request)].task == t.commands[t.commands[request].command.origin.value.fromCommand].task
  {
    var t' := Step(naming, t, input).value;
    PublishAnswersOnce(naming, t, input.task, request, input.events, input.replier);
    BatchEndsOnce(t, input.task, request, input.events);
    BatchEndsLast(t, input.task, request, input.events);
    StepExtends(naming, t, input);
    assert Answer(t, t', input.task, request, input.events, naming.replyTo(request));
  }

  lemma PublishFollows(naming: Naming, t: Tables, input: Input, request: Id, asker: Id, already: bool)
    requires Rows(t) && AnswerFollows(naming, t, request, asker, already) && input.PublishBatch? && Step(naming, t, input).Ok?
    ensures AnswerFollows(naming, Step(naming, t, input).value, request, asker, already)
  {
    var t' := Step(naming, t, input).value;
    PublishAnswersOnce(naming, t, input.task, input.command, input.events, input.replier);
    StepExtends(naming, t, input);
    SettledStays(naming, t, input, request);
    if t.Settled(request) {
      BatchAppends(t, input.task, input.command, input.events);
      TruthStays(naming, t, t', request);
    } else if t'.Settled(request) {
      EndingIsAnswered(naming, t, input, request);
    }
  }

  lemma OtherFollows(naming: Naming, t: Tables, input: Input, request: Id, asker: Id, already: bool)
    requires Rows(t) && AnswerFollows(naming, t, request, asker, already)
    requires !input.PublishBatch? && !input.Delete? && Step(naming, t, input).Ok?
    ensures AnswerFollows(naming, Step(naming, t, input).value, request, asker, already)
  {
    var t' := Step(naming, t, input).value;
    StepExtends(naming, t, input);
    OthersKeepStreams(naming, t, input);
    var added := StepInserts(naming, t, input);
    if t'.commands != t.commands {
      OthersInsertNoAnswer(naming, t, input, added);
    }
    if t.Settled(request) {
      TruthStays(naming, t, t', request);
    }
  }

  lemma DeleteFollows(naming: Naming, t: Tables, principal: Principal, task: Id, request: Id, asker: Id, already: bool)
    requires Rows(t) && AnswerFollows(naming, t, request, asker, already) && DeleteTask(t, principal, task).Ok?
    requires var t' := DeleteTask(t, principal, task).value; request in t'.commands && asker in t'.commands
    ensures AnswerFollows(naming, DeleteTask(t, principal, task).value, request, asker, already)
  {
    if t.Settled(request) && task in t.tasks {
      var home, answer := t.commands[request].task, t.commands[naming.replyTo(request)].command;
      var terminal :| EndedWith(t.journal, request, terminal)
        && Says(t.journal, home, request, terminal, answer.origin.value.kind, answer.text);
      OutsideSays(t.journal, task, home, request, terminal, answer.origin.value.kind, answer.text);
    }
  }

  lemma NextFollows(naming: Naming, t: Tables, input: Input, request: Id, asker: Id, already: bool)
    requires Rows(t) && AnswerFollows(naming, t, request, asker, already)
    requires request in Next(naming, t, input).commands && asker in Next(naming, t, input).commands
    ensures AnswerFollows(naming, Next(naming, t, input), request, asker, already)
  {
    if Step(naming, t, input).Ok? {
      if input.PublishBatch? {
        PublishFollows(naming, t, input, request, asker, already);
      } else if input.Delete? {
        DeleteFollows(naming, t, input.principal, input.task, request, asker, already);
      } else {
        OtherFollows(naming, t, input, request, asker, already);
      }
    }
  }

  lemma {:induction false} RunFollows(naming: Naming, before: seq<Input>, after: seq<Input>, request: Id, asker: Id, already: bool)
    requires Stays(naming, before, after, request) && Stays(naming, before, after, asker)
    requires AnswerFollows(naming, Run(naming, before), request, asker, already)
    ensures AnswerFollows(naming, Run(naming, before + after), request, asker, already)
    decreases |after|
  {
    if after == [] {
      assert before + after == before;
    } else {
      var most, last := after[..|after| - 1], after[|after| - 1];
      StaysBefore(naming, before, after, request);
      StaysBefore(naming, before, after, asker);
      RunFollows(naming, before, most, request, asker, already);
      RunKeepsRows(naming, before + most);
      assert before + after == (before + most) + [last];
      RunSnoc(naming, before + most, last);
      NextFollows(naming, Run(naming, before + most), last, request, asker, already);
    }
  }

  lemma SendFollows(naming: Naming, t: Tables, input: Input)
    requires Rows(t) && input.Send? && Step(naming, t, input).Ok? && input.message.id !in t.commands
    ensures var m := input.message;
      AnswerFollows(naming, Step(naming, t, input).value, m.id, m.fromCommand, Answered(naming, t, m.id))
  {
    var t' := Step(naming, t, input).value;
    StepExtends(naming, t, input);
    OthersKeepStreams(naming, t, input);
    assert !t'.Settled(input.message.id);
  }

  /** In every run, whatever is deleted: as long as a request and the command that sent
      it last, once the request has ended its answer is in the asker's task, from the
      agent that was asked, and says what its execution came to; and an answer that was
      not left over from an earlier request means that it has ended. */
  lemma EndedRequestIsAnswered(naming: Naming, before: seq<Input>, after: seq<Input>, input: Input)
    requires input.Send? && Step(naming, Run(naming, before), input).Ok?
    requires input.message.id !in Run(naming, before).commands
    requires Stays(naming, before + [input], after, input.message.id)
    requires Stays(naming, before + [input], after, input.message.fromCommand)
    ensures var t0, t, m := Run(naming, before), Run(naming, before + [input] + after), input.message;
      && m.id in t.commands && IsRequest(t.commands[m.id].command)
      && (t.Settled(m.id) ==>
            && Answered(naming, t, m.id) && AskerTask(t, m.id) == Some(t.commands[naming.replyTo(m.id)].task)
            && AnswersTruly(naming, t, m.id))
      && (Answered(naming, t, m.id) && !Answered(naming, t0, m.id) ==> t.Settled(m.id))
  {
    var m := input.message;
    RunKeepsRows(naming, before);
    RunSnoc(naming, before, input);
    SendFollows(naming, Run(naming, before), input);
    RunFollows(naming, before + [input], after, m.id, m.fromCommand, Answered(naming, Run(naming, before), m.id));
  }

  // Sending again -----------------------------------------------------------

  /** The source command exists and still has the binding, depth and quiet flag it
      had when the message was admitted. */
  predicate SourceStands(t: Tables, later: Tables, id: Id)
    requires id in t.commands && t.commands[id].task in t.tasks
  {
    && id in later.commands && later.commands[id].task in later.tasks
    && later.tasks[later.commands[id].task] == t.tasks[t.commands[id].task]
    && DepthOf(later.commands[id].command) == DepthOf(t.commands[id].command)
    && later.commands[id].command.quiet == t.commands[id].command.quiet
  }

  /** While the message's row lasts, sending it again is accepted exactly when its
      source stands; it then returns the stored command and changes nothing, whatever
      is deleted, even if the destination is offline by then or the sender renamed.
      Without the source command it is not found. */
  lemma ResentMessageIsStored(
    naming: Naming, before: seq<Input>, after: seq<Input>, input: Input,
    names: map<Target, string>, destination: Option<set<Target>>)
    requires input.Send? && Step(naming, Run(naming, before), input).Ok?
    requires input.message.id !in Run(naming, before).commands
    requires Stays(naming, before + [input], after, input.message.id)
    ensures var t0, t, m := Run(naming, before), Run(naming, before + [input] + after), input.message;
      var again := AdmitMessage(naming, t, input.node, names, destination, m);
      && m.fromCommand in t0.commands && t0.commands[m.fromCommand].task in t0.tasks
      && (again.Ok? <==> SourceStands(t0, t, m.fromCommand))
      && (again.Ok? ==>
            && again.value.0 == t && again.value.1.Existing?
            && m.id in t.commands && again.value.1.command == t.commands[m.id].command
            && again.value.1.task == t.commands[m.id].task)
      && (m.fromCommand !in t.commands ==> again == Err(NotFound))
      && (Stays(naming, before + [input], after, m.fromCommand) ==> again.Ok?)
  {
    var t0, t1, t := Run(naming, before), Run(naming, before + [input]), Run(naming, before + [input] + after);
    SentState(naming, before, after, input);
    StoredIsFound(naming, t0, t, input, names, destination);
    if Stays(naming, before + [input], after, input.message.fromCommand) {
      RunKeepsRow(naming, before + [input], after, input.message.fromCommand);
    }
  }

  /** The message is stored as it was admitted, and owners stand. */
  ghost predicate Sent(naming: Naming, t: Tables, later: Tables, input: Input)
    requires input.Send? && Step(naming, t, input).Ok? && input.message.id !in t.commands
  {
    && Rows(later) && SameOwners(t, later)
    && SameRow(Step(naming, t, input).value, later, input.message.id)
  }

  lemma SentState(naming: Naming, before: seq<Input>, after: seq<Input>, input: Input)
    requires input.Send? && Step(naming, Run(naming, before), input).Ok?
    requires input.message.id !in Run(naming, before).commands
    requires Stays(naming, before + [input], after, input.message.id)
    ensures Run(naming, before + [input]) == Step(naming, Run(naming, before), input).value
    ensures Extends(Run(naming, before), Run(naming, before + [input]))
    ensures Sent(naming, Run(naming, before), Run(naming, before + [input] + after), input)
  {
    RunSnoc(naming, before, input);
    StepExtends(naming, Run(naming, before), input);
    RunKeepsRows(naming, before + [input] + after);
    RunKeepsOwners(naming, before + [input], after);
    RunKeepsRow(naming, before + [input], after, input.message.id);
  }

  lemma SourceIsChecked(naming: Naming, t: Tables, later: Tables, node: Node, m: Message)
    requires CheckMessage(naming, t, node, m).Ok? && SameOwners(t, later) && Rows(later)
    ensures m.fromCommand in t.commands && t.commands[m.fromCommand].task in t.tasks
    ensures var c, again := CheckMessage(naming, t, node, m).value, CheckMessage(naming, later, node, m);
      && (m.fromCommand !in later.commands ==> again == Err(NotFound))
      && (SourceStands(t, later, m.fromCommand) <==>
            && again.Ok? && again.value.from == c.from && again.value.depth == c.depth
            && again.value.source.command.quiet == c.source.command.quiet)
      && (again.Ok? && again.value.from == c.from ==> again.value.principal == c.principal && again.value.task == c.task)
  {
  }

  lemma StoredIsFound(
    naming: Naming, t: Tables, later: Tables, input: Input, names: map<Target, string>, destination: Option<set<Target>>)
    requires input.Send? && Step(naming, t, input).Ok? && input.message.id !in t.commands
    requires Sent(naming, t, later, input)
    ensures var m := input.message;
      var again := AdmitMessage(naming, later, input.node, names, destination, m);
      && m.fromCommand in t.commands && t.commands[m.fromCommand].task in t.tasks
      && (again.Ok? <==> SourceStands(t, later, m.fromCommand))
      && (again.Ok? ==>
            && again.value.0 == later && again.value.1.Existing?
            && again.value.1.command == later.commands[m.id].command
            && again.value.1.task == later.commands[m.id].task)
      && (m.fromCommand !in later.commands ==> again == Err(NotFound))
  {
    var c := CheckMessage(naming, t, input.node, input.message).value;
    SourceIsChecked(naming, t, later, input.node, input.message);
    assert later.commands[input.message.id] == CommandRow(c.task,
      RequestCommand(c.principal, c.source, c.from, input.message, input.names[c.from], c.depth));
  }

  /** The thread tells one owner's agents of two target names apart by their nodes. */
  lemma ThreadHasOneNode(naming: Naming, principal: Principal, from: Target, to: Target, a: Node, b: Node, a': Node, b': Node)
    requires Injective(naming)
    requires ThreadTask(naming, principal, Agent(a, from), Agent(b, to))
          == ThreadTask(naming, principal, Agent(a', from), Agent(b', to))
    ensures a == a' && b == b'
  {
    var head, tail := naming.threads + ":" + principal + ":", ":" + to;
    var x, y := a + ":" + (from + ":" + b), a' + ":" + (from + ":" + b');
    assert ThreadKey(naming, principal, Agent(a, from), Agent(b, to)) == head + x + tail;
    assert ThreadKey(naming, principal, Agent(a', from), Agent(b', to)) == head + y + tail;
    Cancel(head, x, y, tail);
    SplitAtColon(a, from + ":" + b, a', from + ":" + b');
    assert from + ":" + b == (from + ":") + b + "" && from + ":" + b' == (from + ":") + b' + "";
    Cancel(from + ":", b, b', "");
  }

  /** While an admitted message's row lasts, its identity is accepted again only for
      exactly that message from exactly that node, and never writes: any other
      content, destination or sender is refused, whatever is deleted. */
  lemma OtherContentIsRefused(
    naming: Naming, before: seq<Input>, after: seq<Input>, input: Input,
    node: Node, names: map<Target, string>, destination: Option<set<Target>>, m: Message)
    requires Injective(naming) && input.Send? && m.id == input.message.id
    requires Step(naming, Run(naming, before), input).Ok? && input.message.id !in Run(naming, before).commands
    requires Stays(naming, before + [input], after, input.message.id)
    ensures var t := Run(naming, before + [input] + after);
      var again := AdmitMessage(naming, t, node, names, destination, m);
      again.Ok? ==> m == input.message && node == input.node && again.value.0 == t
  {
    var t := Run(naming, before + [input] + after);
    SentState(naming, before, after, input);
    if AdmitMessage(naming, t, node, names, destination, m).Ok? {
      StoredIsTheSame(naming, Run(naming, before), t, input, node, names, destination, m);
    }
  }

  lemma StoredIsTheSame(
    naming: Naming, t: Tables, later: Tables, input: Input,
    node: Node, names: map<Target, string>, destination: Option<set<Target>>, m: Message)
    requires Injective(naming) && input.Send? && m.id == input.message.id
    requires Step(naming, t, input).Ok? && input.message.id !in t.commands && Sent(naming, t, later, input)
    requires AdmitMessage(naming, later, node, names, destination, m).Ok?
    ensures m == input.message && node == input.node && AdmitMessage(naming, later, node, names, destination, m).value.0 == later
  {
    var c, c' := CheckMessage(naming, t, input.node, input.message).value, CheckMessage(naming, later, node, m).value;
    var stored := later.commands[m.id];
    assert stored == CommandRow(c.task,
      RequestCommand(c.principal, c.source, c.from, input.message, input.names[c.from], c.depth));
    assert stored.command.origin.value.fromCommand == m.fromCommand && stored.command.origin.value.from == c'.from == c.from;
    assert m.text == input.message.text && m.toTarget == input.message.toTarget && c'.principal == c.principal;
    ThreadHasOneNode(naming, c.principal, c.from, m.toTarget, node, m.toNode, input.node, input.message.toNode);
  }
}
