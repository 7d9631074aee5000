/** The coordinator's tables and the operations on them that any surface has. */
module ControlStore {
  import opened Base

  type Id = nat

  /** A printed identity; it never contains the separator of derived names. */
  type Name = s: string | ':' !in s witness ""

  type Principal = Name
  type Node = Name
  type Target = string

  datatype Error = NotFound | Conflict | Invalid | Role | Offline | StoreFailure

  // Rows --------------------------------------------------------------------

  datatype Kind = Request | Reply | Failure

  /** Why a command exists when another agent caused it. */
  datatype Origin = Origin(fromCommand: Id, from: Target, name: string, depth: nat, kind: Kind)

  datatype Command = Command(
    principal: Principal, surface: string, target: Target, text: string, quiet: bool, origin: Option<Origin>)

  datatype CommandRow = CommandRow(task: Id, command: Command)

  datatype Task = Task(principal: Principal, node: Node, target: Target)

  datatype Terminal = Completed | Failed(error: string) | Cancelled(reason: string)

  datatype EventKind = Started | AssistantMessage(text: string) | Terminated(terminal: Terminal) | OtherEvent

  datatype ExecutionEvent = ExecutionEvent(id: Id, execution: Id, sequence: nat, kind: EventKind)

  /** One execution record of a task's journal. */
  datatype Entry = Entry(task: Id, command: Id, event: ExecutionEvent)

  datatype Stream = Stream(execution: Id, next: nat, terminal: bool)

  datatype Stop = Stop(command: Id, delivered: bool)

  /** `pending` holds the commands whose delivery no node has acknowledged. */
  datatype Tables = Tables(
    owners: map<Node, Principal>, tasks: map<Id, Task>, commands: map<Id, CommandRow>,
    streams: map<Id, Stream>, journal: seq<Entry>, pending: set<Id>, stops: seq<Stop>)
  {
    /** A command is settled only by a terminal execution. */
    predicate Settled(command: Id) {
      command in streams && streams[command].terminal
    }
  }

  const NO_TABLES := Tables(map[], map[], map[], map[], [], {}, [])

  // Operations --------------------------------------------------------------

  /** A node's owner is recorded once. */
  function SetOwner(t: Tables, node: Node, owner: Principal): Result<Tables, Error> {
    if node in t.owners && t.owners[node] != owner then Err(Conflict)
    else Ok(t.(owners := t.owners[node := owner]))
  }

  /** Opening is idempotent on the task identity. */
  function OpenTask(t: Tables, id: Id, task: Task): Result<Tables, Error> {
    if id !in t.tasks then Ok(t.(tasks := t.tasks[id := task]))
    else if t.tasks[id] == task then Ok(t)
    else Err(Conflict)
  }

  /** The caller has checked that the task exists; a used identity fails the transaction. */
  function InsertCommand(t: Tables, id: Id, task: Id, command: Command): Result<Tables, Error> {
    if id in t.commands || task !in t.tasks then Err(StoreFailure)
    else Ok(t.(commands := t.commands[id := CommandRow(task, command)], pending := t.pending + {id}))
  }

  /** A surface submits a command; an exact retry finds the one admitted before. */
  function AdmitCommand(
    t: Tables, task: Id, principal: Principal, surface: string, id: Id, text: string, quiet: bool, allowNew: bool)
    : Result<Tables, Error>
  {
    if task !in t.tasks || t.tasks[task].principal != principal then Err(NotFound)
    else
      var command := Command(principal, surface, t.tasks[task].target, text, quiet, None);
      if id in t.commands then (if t.commands[id].command == command then Ok(t) else Err(Conflict))
      else if !allowNew then Ok(t)
      else InsertCommand(t, id, task, command)
  }

  function AcknowledgeExecution(t: Tables, node: Node, task: Id, command: Id): Result<Tables, Error> {
    if command !in t.commands || t.commands[command].task != task || task !in t.tasks then Err(NotFound)
    else if t.tasks[task].node != node then Err(Invalid)
    else Ok(t.(pending := t.pending - {command}))
  }

  function EntriesOutside(journal: seq<Entry>, task: Id): seq<Entry> {
    if journal == [] then []
    else (if journal[0].task == task then [] else [journal[0]]) + EntriesOutside(journal[1..], task)
  }

  function StopsFor(stops: seq<Stop>, commands: map<Id, CommandRow>): seq<Stop> {
    if stops == [] then []
    else (if stops[0].command in commands then [stops[0]] else []) + StopsFor(stops[1..], commands)
  }

  predicate InFlight(t: Tables, task: Id) {
    exists id :: id in t.commands && t.commands[id].task == task && !t.Settled(id)
  }

  /** The owner deletes a task with everything it holds, unless an execution runs. */
  function DeleteTask(t: Tables, principal: Principal, task: Id): Result<Tables, Error> {
    if task !in t.tasks then Ok(t)
    else if t.tasks[task].principal != principal then Err(NotFound)
    else if InFlight(t, task) then Err(Conflict)
    else
      var kept := map id | id in t.commands && t.commands[id].task != task :: t.commands[id];
      Ok(t.(tasks := t.tasks - {task},
            commands := kept,
            streams := map id | id in t.streams && id in kept :: t.streams[id],
            journal := EntriesOutside(t.journal, task),
            pending := (set id | id in t.pending && id in kept),
            stops := StopsFor(t.stops, kept)))
  }
}
