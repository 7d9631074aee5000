/** The coordinator's transactions as they are written: tables updated in place,
    every check before the first write, each equal to its step on table values. */
module ControlDatabase {
  import opened Base
  import opened ControlStore
  import opened ExecutionEvents
  import opened AgentMessages
  import opened AgentReplies
  import opened CommandStop

  class Database {
    const naming: Naming
    var owners: map<Node, Principal>
    var tasks: map<Id, Task>
    var commands: map<Id, CommandRow>
    var streams: map<Id, Stream>
    var journal: seq<Entry>
    var pending: set<Id>
    var stops: seq<Stop>

    function State(): Tables
      reads this
    {
      Tables(owners, tasks, commands, streams, journal, pending, stops)
    }

    constructor (naming: Naming)
      ensures this.naming == naming && State() == NO_TABLES
    {
      this.naming := naming;
      owners, tasks, commands, streams := map[], map[], map[], map[];
      journal, pending, stops := [], {}, [];
    }

    /** Leaves the tables alone unless both identity and task are good. */
    method Insert(id: Id, task: Id, command: Command) returns (failed: Option<Error>)
      modifies this`commands, this`pending
      ensures failed.None? ==> InsertCommand(old(State()), id, task, command) == Ok(State())
      ensures failed.Some? ==> InsertCommand(old(State()), id, task, command) == Err(failed.value) && State() == old(State())
    {
      if id in commands || task !in tasks {
        return Some(StoreFailure);
      }
      commands := commands[id := CommandRow(task, command)];
      pending := pending + {id};
      return None;
    }

    /** Admits an agent's message; a refusal leaves no task, command or record. */
    method AdmitAgentMessage(node: Node, names: map<Target, string>, destination: Option<set<Target>>, m: Message)
      returns (admission: Result<Admission, Error>)
      modifies this`tasks, this`commands, this`pending
      ensures admission.Ok? ==>
        AdmitMessage(naming, old(State()), node, names, destination, m) == Ok((State(), admission.value))
      ensures admission.Err? ==>
        AdmitMessage(naming, old(State()), node, names, destination, m) == Err(admission.error) && State() == old(State())
    {
      var checked := CheckMessage(naming, State(), node, m);
      if checked.Err? {
        return Err(checked.error);
      }
      var c := checked.value;
      if m.id in commands {
        var stored := commands[m.id];
        var name := if stored.command.origin.Some? then stored.command.origin.value.name else "";
        if stored.command != RequestCommand(c.principal, c.source, c.from, m, name, c.depth) || stored.task != c.task {
          return Err(Conflict);
        }
        return Ok(Existing(c.task, c.source.task, stored.command, m.id in pending));
      }
      if c.from !in names {
        return Err(Invalid);
      }
      if destination.None? {
        return Err(Offline);
      }
      if m.toTarget !in destination.value {
        return Err(NotFound);
      }
      var thread := Task(c.principal, m.toNode, m.toTarget);
      if c.task in tasks && tasks[c.task] != thread {
        return Err(Conflict);
      }
      if c.task !in tasks {
        tasks := tasks[c.task := thread];
      }
      var failed := Insert(m.id, c.task, RequestCommand(c.principal, c.source, c.from, m, names[c.from], c.depth));
      return Ok(Admitted(c.task, c.source.task));
    }

    /** Appends a batch and says which entries are new. */
    method AppendBatch(task: Id, command: Id, events: seq<ExecutionEvent>) returns (batch: Result<seq<Entry>, Error>)
      modifies this`journal, this`streams
      ensures batch.Ok? ==> AdmitBatch(old(State()), task, command, events) == Ok((State(), batch.value))
      ensures batch.Err? ==> AdmitBatch(old(State()), task, command, events) == Err(batch.error) && State() == old(State())
    {
      if command !in commands || commands[command].task != task {
        return Err(NotFound);
      }
      if events == [] {
        return Err(Invalid);
      }
      var next := StartCursor(State(), command, events);
      if next.Err? {
        return Err(next.error);
      }
      if !BatchValid(events) || events[0].sequence > next.value {
        return Err(Invalid);
      }
      var cursor := AppendContiguous(
        Cursor(journal, [], next.value, command in streams && streams[command].terminal), task, command, events);
      if cursor.Err? {
        return Err(cursor.error);
      }
      if command !in streams && ExecutionInUse(State(), events[0].execution) {
        return Err(StoreFailure);
      }
      journal := cursor.value.journal;
      streams := streams[command := Stream(events[0].execution, cursor.value.next, cursor.value.terminal)];
      return Ok(cursor.value.appended);
    }

    /** Admits the answer when the batch ended a request, cut at a character boundary. */
    method AdmitAnswer(task: Id, command: Id, appended: seq<Entry>, replier: string) returns (failed: Option<Error>)
      modifies this`commands, this`pending
      ensures failed.None? ==> AdmitReply(naming, old(State()), task, command, appended, replier) == Ok(State())
      ensures failed.Some? ==>
        AdmitReply(naming, old(State()), task, command, appended, replier) == Err(failed.value) && State() == old(State())
      ensures failed.None? && commands != old(commands) ==>
        var answer := naming.replyTo(command);
        answer in commands && AnswersEnding(journal, task, command, appended, commands[answer].command)
    {
      var terminal := FindTerminal(appended);
      if terminal.None? {
        return None;
      }
      if command !in commands {
        return Some(StoreFailure);
      }
      if !IsRequest(commands[command].command) {
        return None;
      }
      var origin := commands[command].command.origin.value;
      if origin.fromCommand !in commands {
        return None;
      }
      var asker := commands[origin.fromCommand];
      if asker.task !in tasks || task !in tasks {
        return Some(NotFound);
      }
      AnswerSays(State(), task, command, asker, terminal.value, replier);
      ghost var i := FoundInEntries(appended);
      var (kind, text) := AnswerText(State(), task, command, terminal.value);
      var kept := Truncate(text, MAX_MESSAGE_BYTES);
      TruncatedIsLongest(text, MAX_MESSAGE_BYTES, kept);
      failed := Insert(naming.replyTo(command), asker.task, Command(
        tasks[asker.task].principal, AGENT_SURFACE, tasks[asker.task].target, kept, asker.command.quiet,
        Some(Origin(command, tasks[task].target, replier, SaturatingNext(origin.depth), kind))));
    }

    /** Ending and answer commit together; if the answer fails, so does the batch. */
    method AppendExecutionEvents(task: Id, command: Id, events: seq<ExecutionEvent>, replier: string)
      returns (failed: Option<Error>)
      modifies this`journal, this`streams, this`commands, this`pending
      ensures failed.None? ==> Publish(naming, old(State()), task, command, events, replier) == Ok(State())
      ensures failed.Some? ==>
        Publish(naming, old(State()), task, command, events, replier) == Err(failed.value) && State() == old(State())
    {
      var rollback := (journal, streams);
      var batch := AppendBatch(task, command, events);
      if batch.Err? {
        return Some(batch.error);
      }
      failed := AdmitAnswer(task, command, batch.value, replier);
      if failed.Some? {
        journal, streams := rollback.0, rollback.1;
      }
    }

    /** An earlier record outranks the command's present state. */
    method RecordStop(task: Id, command: Id) returns (answer: Result<StopAdmission, Error>)
      modifies this`stops
      ensures answer.Ok? ==> AdmitStop(old(State()), task, command) == Ok((State(), answer.value))
      ensures answer.Err? ==> AdmitStop(old(State()), task, command) == Err(answer.error) && State() == old(State())
    {
      if command !in commands || commands[command].task != task {
        return Err(NotFound);
      }
      var recorded := FindStop(stops, command);
      if recorded.Some? {
        return Ok(Recorded(recorded.value.delivered));
      }
      if command in streams && streams[command].terminal {
        return Ok(AlreadyEnded);
      }
      stops := stops + [Stop(command, false)];
      return Ok(Recorded(false));
    }

    /** Marks a stop delivered once its own node recorded it. */
    method Acknowledge(node: Node, task: Id, command: Id) returns (failed: Option<Error>)
      modifies this`stops
      ensures failed.None? ==> AcknowledgeStop(old(State()), node, task, command) == Ok(State())
      ensures failed.Some? ==> AcknowledgeStop(old(State()), node, task, command) == Err(failed.value) && State() == old(State())
    {
      if task !in tasks {
        return None;
      }
      if tasks[task].node != node {
        return Some(Invalid);
      }
      if command in commands && commands[command].task == task {
        stops := MarkDelivered(stops, command);
      }
      return None;
    }
  }
}
