/** Delivery of stops: activations and stop requests interleave, ordered only by
    the lifecycle lock, while every other transaction runs beside them. */
module StopDelivery {
  import opened Base
  import opened ControlStore
  import opened AgentMessages
  import opened CommandStop
  import opened ControlRuns
  import opened AgentChains
  import opened AgentThreads
  import opened StopRuns

  type Connection = nat
  type ProcessId = nat

  /** What a node is told: which command of which task to stop. */
  datatype Notice = Notice(task: Id, command: Id)

  /** `stop_command` after it loaded the task's node, and `activate_device` for a
      node. From `…Locked` to the release both hold the lifecycle lock. */
  datatype Process =
    | StopLoaded(task: Id, command: Id, node: Node)
    | StopLocked(task: Id, command: Id, node: Node)
    | StopRouted(task: Id, command: Id, node: Node, route: Option<Connection>)
    | StopRecorded(notice: Notice, connection: Connection)
    | ActivateWaiting(node: Node, connection: Connection)
    | ActivateLocked(node: Node, connection: Connection)
    | Activating(node: Node, connection: Connection, snapshot: seq<Notice>, sent: nat)
    | Finished

  /** `sent` holds every stop handed to an open connection since it was recorded;
      `closed` holds the connections that ended. */
  datatype Hub = Hub(
    tables: Tables, nodes: map<Node, Connection>, lock: Option<ProcessId>, processes: seq<Process>,
    sent: set<(Connection, Notice)>, closed: set<Connection>, nextConnection: Connection)

  const EMPTY_HUB := Hub(NO_TABLES, map[], None, [], {}, {}, 0)

  datatype Action =
    | Transaction(input: Input)
    | BeginStop(task: Id, command: Id)
    | BeginActivation(node: Node)
    | Proceed(process: ProcessId)
    | Disconnect(connection: Connection)
    | Forget(node: Node, connection: Connection)

  function Put(h: Hub, p: ProcessId, process: Process): Hub
    requires p < |h.processes|
  {
    h.(processes := h.processes[p := process])
  }

  /** Hands a stop to a connection; a closed one loses it. */
  function SendTo(h: Hub, connection: Connection, notice: Notice): Hub {
    if connection in h.closed then h else h.(sent := h.sent + {(connection, notice)})
  }

  function NoticeOf(t: Tables, command: Id): Notice {
    Notice(TaskOf(t, command), command)
  }

  function Notices(t: Tables, commands: seq<Id>): (notices: seq<Notice>)
    ensures |notices| == |commands| && forall i | 0 <= i < |commands| :: notices[i] == NoticeOf(t, commands[i])
  {
    seq(|commands|, i requires 0 <= i < |commands| => NoticeOf(t, commands[i]))
  }

  /** What was handed over of the stops on record once `command` is stopped: a new record
      is a new stop, whatever was sent for an earlier command of that identity. */
  function SentNow(h: Hub, command: Id): set<(Connection, Notice)> {
    if AnswerOf(h.tables, command).Some? then h.sent else set pair | pair in h.sent && pair.1.command != command
  }

  function RecordStop(h: Hub, p: ProcessId, process: Process): Hub
    requires p < |h.processes| && process.StopRouted?
  {
    match AdmitStop(h.tables, process.task, process.command)
    case Err(_) => Put(h.(lock := None), p, Finished)
    case Ok((tables, answer)) =>
      var h' := h.(tables := tables, lock := None, sent := SentNow(h, process.command));
      if answer == Recorded(false) && process.route.Some? then
        Put(h', p, StopRecorded(Notice(process.task, process.command), process.route.value))
      else Put(h', p, Finished)
  }

  function Continue(h: Hub, p: ProcessId): Option<Hub>
    requires p < |h.processes|
  {
    match h.processes[p]
    case StopLoaded(task, command, node) =>
      if h.lock.Some? then None else Some(Put(h.(lock := Some(p)), p, StopLocked(task, command, node)))
    case StopLocked(task, command, node) =>
      Some(Put(h, p, StopRouted(task, command, node, if node in h.nodes then Some(h.nodes[node]) else None)))
    case StopRouted(_, _, _, _) => Some(RecordStop(h, p, h.processes[p]))
    case StopRecorded(notice, route) => Some(Put(SendTo(h, route, notice), p, Finished))
    case ActivateWaiting(node, connection) =>
      if h.lock.Some? then None else Some(Put(h.(lock := Some(p)), p, ActivateLocked(node, connection)))
    case ActivateLocked(node, connection) =>
      var pending := Notices(h.tables, PendingCommands(h.tables, h.tables.stops, node));
      Some(Put(h.(nodes := h.nodes - {node}), p, Activating(node, connection, pending, 0)))
    case Activating(node, connection, snapshot, sent) =>
      if connection in h.closed then Some(Put(h.(lock := None), p, Finished))
      else if sent < |snapshot| then
        Some(Put(SendTo(h, connection, snapshot[sent]), p, Activating(node, connection, snapshot, sent + 1)))
      else
        Some(Put(h.(nodes := h.nodes[node := connection], lock := None), p, Finished))
    case Finished => None
  }

  /** Stops are recorded only by `stop_command`, so other transactions exclude them. */
  function Act(naming: Naming, h: Hub, action: Action): Option<Hub> {
    match action
    case Transaction(input) => if input.StopCommand? then None else Some(h.(tables := Next(naming, h.tables, input)))
    case BeginStop(task, command) =>
      if task !in h.tables.tasks then None
      else Some(h.(processes := h.processes + [StopLoaded(task, command, h.tables.tasks[task].node)]))
    case BeginActivation(node) =>
      Some(h.(processes := h.processes + [ActivateWaiting(node, h.nextConnection)], nextConnection := h.nextConnection + 1))
    case Proceed(p) => if p >= |h.processes| then None else Continue(h, p)
    case Disconnect(connection) => Some(h.(closed := h.closed + {connection}))
    case Forget(node, connection) =>
      if node in h.nodes && h.nodes[node] == connection then Some(h.(nodes := h.nodes - {node})) else Some(h)
  }

  function RunHub(naming: Naming, actions: seq<Action>): Option<Hub> {
    if actions == [] then Some(EMPTY_HUB)
    else
      match RunHub(naming, actions[..|actions| - 1])
      case None => None
      case Some(h) => Act(naming, h, actions[|actions| - 1])
  }

  // No stop is missed -------------------------------------------------------

  /** A recorded stop of `node` that it has not acknowledged. */
  ghost predicate Undelivered(t: Tables, node: Node, command: Id) {
    FindStop(t.stops, command).Some? && PendingFor(t, node, FindStop(t.stops, command).value)
  }

  /** The stop was handed to the connection, or a process is about to hand it over. */
  ghost predicate Reaches(h: Hub, connection: Connection, notice: Notice) {
    || connection in h.closed
    || (connection, notice) in h.sent
    || StopRecorded(notice, connection) in h.processes
  }

  predicate HoldsLock(process: Process) {
    process.StopLocked? || process.StopRouted? || process.ActivateLocked? || process.Activating?
  }

  ghost predicate ProcessOk(h: Hub, p: ProcessId)
    requires p < |h.processes|
  {
    && (HoldsLock(h.processes[p]) <==> h.lock == Some(p))
    && match h.processes[p]
       case StopRouted(_, _, node, route) => node in h.nodes ==> route == Some(h.nodes[node])
       case Activating(node, connection, snapshot, sent) =>
         && node !in h.nodes && sent <= |snapshot|
         && (forall command :: Undelivered(h.tables, node, command) ==> NoticeOf(h.tables, command) in snapshot)
         && (forall i | 0 <= i < sent :: connection in h.closed || (connection, snapshot[i]) in h.sent)
       case _ => true
  }

  ghost predicate HubInv(h: Hub) {
    && Rows(h.tables)
    && (h.lock.Some? ==> h.lock.value < |h.processes|)
    && (forall p | 0 <= p < |h.processes| :: ProcessOk(h, p))
    && NoneMissed(h)
  }

  /** Every undelivered stop reaches its node's current connection. */
  ghost predicate NoneMissed(h: Hub) {
    forall node, command | node in h.nodes && Undelivered(h.tables, node, command) ::
      Reaches(h, h.nodes[node], NoticeOf(h.tables, command))
  }

  /** A new stop is about to be recorded for a node whose open connection is not the
      route that was looked up, and no earlier request is about to send one there. */
  predicate Misroutes(h: Hub, action: Action) {
    && action.Proceed? && action.process < |h.processes| && h.processes[action.process].StopRouted?
    && var StopRouted(task, command, _, route) := h.processes[action.process];
    && command in h.tables.commands && h.tables.commands[command].task == task && task in h.tables.tasks
    && AnswerOf(h.tables, command).None?
    && var node := h.tables.tasks[task].node;
    && node in h.nodes && h.nodes[node] !in h.closed && route != Some(h.nodes[node])
    && StopRecorded(NoticeOf(h.tables, command), h.nodes[node]) !in h.processes
  }

  /** Without a new stop, the undelivered stops of a node only shrink. */
  lemma UndeliveredShrinks(naming: Naming, t: Tables, input: Input, node: Node, command: Id)
    requires Rows(t) && !input.StopCommand? && Undelivered(Next(naming, t, input), node, command)
    ensures Undelivered(t, node, command) && NoticeOf(Next(naming, t, input), command) == NoticeOf(t, command)
  {
    if Step(naming, t, input).Ok? {
      match input
      case Delete(principal, task) => FindKept(t.stops, Next(naming, t, input).commands, command);
      case AckStop(_, _, marked) => FindMarked(t.stops, marked, command);
      case _ =>
        OthersKeepStops(naming, t, input);
        StepExtends(naming, t, input);
    }
  }

  lemma TransactionKeeps(naming: Naming, h: Hub, input: Input)
    requires HubInv(h) && !input.StopCommand?
    ensures HubInv(h.(tables := Next(naming, h.tables, input)))
  {
    var h' := h.(tables := Next(naming, h.tables, input));
    if Step(naming, h.tables, input).Ok? {
      StepKeepsRows(naming, h.tables, input);
    }
    forall node, command | Undelivered(h'.tables, node, command)
      ensures Undelivered(h.tables, node, command) && NoticeOf(h'.tables, command) == NoticeOf(h.tables, command)
    {
      UndeliveredShrinks(naming, h.tables, input, node, command);
    }
    forall p | 0 <= p < |h'.processes| ensures ProcessOk(h', p) {
      assert ProcessOk(h, p);
    }
    forall node, command | node in h'.nodes && Undelivered(h'.tables, node, command)
      ensures Reaches(h', h'.nodes[node], NoticeOf(h'.tables, command))
    {
      assert Reaches(h, h.nodes[node], NoticeOf(h.tables, command));
    }
  }

  /** Progress of one process that records nothing. */
  lemma ProcessMoves(h: Hub, h': Hub, p: ProcessId)
    requires HubInv(h) && p < |h.processes| == |h'.processes| && h'.tables == h.tables
    requires forall q | 0 <= q < |h.processes| && q != p :: h'.processes[q] == h.processes[q]
    requires h.sent <= h'.sent && h.closed <= h'.closed
    requires h.lock == Some(p) || h'.nodes == h.nodes
    requires ProcessOk(h', p)
    requires h'.lock == h.lock || (h.lock.None? && h'.lock == Some(p)) || (h.lock == Some(p) && h'.lock.None?)
    requires forall node, command | node in h'.nodes && Undelivered(h'.tables, node, command) ::
      Reaches(h', h'.nodes[node], NoticeOf(h'.tables, command))
    ensures HubInv(h')
  {
    forall q | 0 <= q < |h'.processes| ensures ProcessOk(h', q) {
      if q != p {
        assert ProcessOk(h, q);
      }
    }
  }

  lemma StopProceeds(h: Hub, p: ProcessId)
    requires HubInv(h) && p < |h.processes| && Continue(h, p).Some?
    requires h.processes[p].StopLoaded? || h.processes[p].StopLocked?
    ensures HubInv(Continue(h, p).value)
  {
    var h' := Continue(h, p).value;
    assert ProcessOk(h, p);
    ReachesStays(h, h', p);
    ProcessMoves(h, h', p);
  }

  /** What reached a connection still does when a process that owed nothing moves. */
  lemma ReachesStays(h: Hub, h': Hub, p: ProcessId)
    requires HubInv(h) && p < |h.processes| == |h'.processes| && h'.tables == h.tables && h'.nodes == h.nodes
    requires forall q | 0 <= q < |h.processes| && q != p :: h'.processes[q] == h.processes[q]
    requires h.sent <= h'.sent && h.closed <= h'.closed
    requires h.processes[p].StopRecorded? ==>
      h.processes[p].connection in h'.closed || (h.processes[p].connection, h.processes[p].notice) in h'.sent
    ensures forall node, command | node in h'.nodes && Undelivered(h'.tables, node, command) ::
      Reaches(h', h'.nodes[node], NoticeOf(h'.tables, command))
  {
    forall node, command | node in h'.nodes && Undelivered(h'.tables, node, command)
      ensures Reaches(h', h'.nodes[node], NoticeOf(h'.tables, command))
    {
      assert Reaches(h, h.nodes[node], NoticeOf(h.tables, command));
      if StopRecorded(NoticeOf(h.tables, command), h.nodes[node]) in h.processes {
        var q :| 0 <= q < |h.processes| && h.processes[q] == StopRecorded(NoticeOf(h.tables, command), h.nodes[node]);
        assert q != p ==> h'.processes[q] == h.processes[q];
      }
    }
  }

  lemma StopSends(h: Hub, p: ProcessId)
    requires HubInv(h) && p < |h.processes| && h.processes[p].StopRecorded?
    ensures HubInv(Continue(h, p).value)
  {
    var h' := Continue(h, p).value;
    assert ProcessOk(h, p);
    ReachesStays(h, h', p);
    ProcessMoves(h, h', p);
  }

  lemma ActivationStarts(h: Hub, p: ProcessId)
    requires HubInv(h) && p < |h.processes| && Continue(h, p).Some?
    requires h.processes[p].ActivateWaiting?
    ensures HubInv(Continue(h, p).value)
  {
    var h' := Continue(h, p).value;
    assert ProcessOk(h, p);
    ReachesStays(h, h', p);
    ProcessMoves(h, h', p);
  }

  lemma ActivationSnapshots(h: Hub, p: ProcessId)
    requires HubInv(h) && p < |h.processes| && h.processes[p].ActivateLocked?
    ensures HubInv(Continue(h, p).value)
  {
    var h' := Continue(h, p).value;
    var node := h.processes[p].node;
    assert ProcessOk(h, p);
    forall command | Undelivered(h.tables, node, command) ensures NoticeOf(h.tables, command) in h'.processes[p].snapshot {
      UndeliveredIsCollected(h.tables, node, command);
    }
    var same := Put(h, p, h'.processes[p]);
    ReachesStays(h, same, p);
    forall other, command | other in h'.nodes && Undelivered(h'.tables, other, command)
      ensures Reaches(h', h'.nodes[other], NoticeOf(h'.tables, command))
    {
      assert Reaches(same, same.nodes[other], NoticeOf(same.tables, command));
    }
    ProcessMoves(h, h', p);
  }

  lemma UndeliveredIsCollected(t: Tables, node: Node, command: Id)
    requires Undelivered(t, node, command)
    ensures NoticeOf(t, command) in Notices(t, PendingCommands(t, t.stops, node))
  {
    var stop := FindStop(t.stops, command).value;
    var i :| 0 <= i < |t.stops| && t.stops[i] == stop;
    assert t.stops[i].command == command && PendingFor(t, node, t.stops[i]);
    PendingContents(t, t.stops, node, command);
    var k :| 0 <= k < |PendingCommands(t, t.stops, node)| && PendingCommands(t, t.stops, node)[k] == command;
    assert Notices(t, PendingCommands(t, t.stops, node))[k] == NoticeOf(t, command);
  }

  lemma ActivationSends(h: Hub, p: ProcessId)
    requires HubInv(h) && p < |h.processes| && h.processes[p].Activating?
    requires h.processes[p].connection in h.closed || h.processes[p].sent < |h.processes[p].snapshot|
    ensures HubInv(Continue(h, p).value)
  {
    var h' := Continue(h, p).value;
    assert ProcessOk(h, p);
    ReachesStays(h, h', p);
    ProcessMoves(h, h', p);
  }

  /** Once every stop of the snapshot was sent, the connection becomes current. */
  lemma ActivationEnds(h: Hub, p: ProcessId)
    requires HubInv(h) && p < |h.processes| && h.processes[p].Activating?
    requires h.processes[p].connection !in h.closed && h.processes[p].sent >= |h.processes[p].snapshot|
    ensures HubInv(Continue(h, p).value)
  {
    var h' := Continue(h, p).value;
    var Activating(node, connection, snapshot, sent) := h.processes[p];
    assert ProcessOk(h, p);
    var same := Put(h, p, Finished);
    ReachesStays(h, same, p);
    forall other, command | other in h'.nodes && Undelivered(h'.tables, other, command)
      ensures Reaches(h', h'.nodes[other], NoticeOf(h'.tables, command))
    {
      if other == node {
        var i :| 0 <= i < |snapshot| && snapshot[i] == NoticeOf(h.tables, command);
        assert (connection, snapshot[i]) in h.sent;
      } else {
        assert Reaches(same, same.nodes[other], NoticeOf(same.tables, command));
      }
    }
    ProcessMoves(h, h', p);
  }

  lemma StopsAdded(t: Tables, task: Id, command: Id, node: Node, other: Id)
    requires AdmitStop(t, task, command).Ok? && Undelivered(AdmitStop(t, task, command).value.0, node, other)
    ensures Undelivered(t, node, other) ||
      (other == command && AnswerOf(t, command).None? && task in t.tasks && t.tasks[task].node == node)
  {
    FindAppended(t.stops, Stop(command, false), other);
  }

  lemma NewStopReaches(h: Hub, p: ProcessId, node: Node)
    requires p < |h.processes| && h.processes[p].StopRouted? && !Misroutes(h, Proceed(p))
    requires var process := h.processes[p];
      && AdmitStop(h.tables, process.task, process.command).Ok? && AnswerOf(h.tables, process.command).None?
      && process.task in h.tables.tasks && h.tables.tasks[process.task].node == node && node in h.nodes
    ensures Reaches(RecordStop(h, p, h.processes[p]), h.nodes[node], Notice(h.processes[p].task, h.processes[p].command))
  {
    var process, h' := h.processes[p], RecordStop(h, p, h.processes[p]);
    assert h'.processes[p] in h'.processes;
    var notice := Notice(process.task, process.command);
    if StopRecorded(notice, h.nodes[node]) in h.processes {
      var q :| 0 <= q < |h.processes| && h.processes[q] == StopRecorded(notice, h.nodes[node]);
      assert h'.processes[q] == h.processes[q];
    }
  }

  lemma StopIsRecorded(h: Hub, p: ProcessId)
    requires HubInv(h) && p < |h.processes| && h.processes[p].StopRouted? && !Misroutes(h, Proceed(p))
    ensures HubInv(RecordStop(h, p, h.processes[p]))
  {
    var process := h.processes[p];
    var h' := RecordStop(h, p, process);
    assert ProcessOk(h, p);
    if AdmitStop(h.tables, process.task, process.command).Ok? {
      StopKeepsRows(h.tables, process.task, process.command);
    }
    forall q | 0 <= q < |h'.processes| ensures ProcessOk(h', q) {
      if q != p {
        assert ProcessOk(h, q);
      }
    }
    var same := Put(h, p, h'.processes[p]);
    ReachesStays(h, same, p);
    forall node, command | node in h'.nodes && Undelivered(h'.tables, node, command)
      ensures Reaches(h', h'.nodes[node], NoticeOf(h'.tables, command))
    {
      if Undelivered(h.tables, node, command) {
        assert Reaches(same, same.nodes[node], NoticeOf(same.tables, command));
      } else {
        StopsAdded(h.tables, process.task, process.command, node, command);
        NewStopReaches(h, p, node);
      }
    }
  }

  lemma ProceedKeeps(h: Hub, p: ProcessId)
    requires HubInv(h) && p < |h.processes| && Continue(h, p).Some? && !Misroutes(h, Proceed(p))
    ensures HubInv(Continue(h, p).value)
  {
    match h.processes[p]
    case StopLoaded(_, _, _) => StopProceeds(h, p);
    case StopLocked(_, _, _) => StopProceeds(h, p);
    case StopRouted(_, _, _, _) => StopIsRecorded(h, p);
    case StopRecorded(_, _) => StopSends(h, p);
    case ActivateWaiting(_, _) => ActivationStarts(h, p);
    case ActivateLocked(_, _) => ActivationSnapshots(h, p);
    case Activating(_, connection, snapshot, sent) =>
      if connection in h.closed || sent < |snapshot| {
        ActivationSends(h, p);
      } else {
        ActivationEnds(h, p);
      }
    case Finished =>
  }

  lemma BeginKeeps(h: Hub, process: Process, next: Connection)
    requires HubInv(h) && !HoldsLock(process)
    ensures HubInv(h.(processes := h.processes + [process], nextConnection := next))
  {
    var h' := h.(processes := h.processes + [process], nextConnection := next);
    forall p | 0 <= p < |h'.processes| ensures ProcessOk(h', p) {
      if p < |h.processes| {
        assert ProcessOk(h, p);
      }
    }
    forall node, command | node in h'.nodes && Undelivered(h'.tables, node, command)
      ensures Reaches(h', h'.nodes[node], NoticeOf(h'.tables, command))
    {
      assert Reaches(h, h.nodes[node], NoticeOf(h.tables, command));
      if StopRecorded(NoticeOf(h.tables, command), h.nodes[node]) in h.processes {
        var q :| 0 <= q < |h.processes| && h.processes[q] == StopRecorded(NoticeOf(h.tables, command), h.nodes[node]);
        assert h'.processes[q] == h.processes[q];
      }
    }
  }

  lemma LossKeeps(h: Hub, h': Hub)
    requires HubInv(h) && h'.tables == h.tables && h'.processes == h.processes && h'.lock == h.lock && h'.sent == h.sent
    requires h.closed <= h'.closed
    requires forall node | node in h'.nodes :: node in h.nodes && h'.nodes[node] == h.nodes[node]
    ensures HubInv(h')
  {
    forall p | 0 <= p < |h'.processes| ensures ProcessOk(h', p) {
      assert ProcessOk(h, p);
    }
    forall node, command | node in h'.nodes && Undelivered(h'.tables, node, command)
      ensures Reaches(h', h'.nodes[node], NoticeOf(h'.tables, command))
    {
      assert Reaches(h, h.nodes[node], NoticeOf(h.tables, command));
    }
  }

  lemma ActKeeps(naming: Naming, h: Hub, action: Action)
    requires HubInv(h) && Act(naming, h, action).Some? && !Misroutes(h, action)
    ensures HubInv(Act(naming, h, action).value)
  {
    match action
    case Transaction(input) => TransactionKeeps(naming, h, input);
    case BeginStop(task, command) =>
      BeginKeeps(h, StopLoaded(task, command, h.tables.tasks[task].node), h.nextConnection);
    case BeginActivation(node) => BeginKeeps(h, ActivateWaiting(node, h.nextConnection), h.nextConnection + 1);
    case Proceed(p) => ProceedKeeps(h, p);
    case Disconnect(connection) => LossKeeps(h, Act(naming, h, action).value);
    case Forget(_, _) => LossKeeps(h, Act(naming, h, action).value);
  }

  // Exactly which runs miss none --------------------------------------------

  lemma MisroutedIsMissed(h: Hub, p: ProcessId)
    requires p < |h.processes| && Misroutes(h, Proceed(p))
    ensures var process, h' := h.processes[p], RecordStop(h, p, h.processes[p]);
      var node := h.tables.tasks[process.task].node;
      && node in h'.nodes && Undelivered(h'.tables, node, process.command)
      && !Reaches(h', h'.nodes[node], NoticeOf(h'.tables, process.command)) && !NoneMissed(h')
  {
    var process := h.processes[p];
    FindAppended(h.tables.stops, Stop(process.command, false), process.command);
    var h' := RecordStop(h, p, process);
    assert forall q | 0 <= q < |h'.processes| && q != p :: h'.processes[q] == h.processes[q];
  }

  /** One step: recording keeps every undelivered stop reaching its node's connection
      exactly when it does not misroute, and every other step always does. */
  lemma StepMissesExactly(naming: Naming, h: Hub, action: Action)
    requires HubInv(h) && Act(naming, h, action).Some?
    ensures HubInv(Act(naming, h, action).value) <==> !Misroutes(h, action)
    ensures NoneMissed(Act(naming, h, action).value) <==> !Misroutes(h, action)
  {
    if Misroutes(h, action) {
      MisroutedIsMissed(h, action.process);
    } else {
      ActKeeps(naming, h, action);
    }
  }

  /** A task that still has the node loaded before the lock was taken is not misrouted. */
  lemma BoundIsRouted(h: Hub, p: ProcessId)
    requires HubInv(h) && p < |h.processes| && h.processes[p].StopRouted?
    requires var process := h.processes[p];
      process.task in h.tables.tasks ==> h.tables.tasks[process.task].node == process.node
    ensures !Misroutes(h, Proceed(p))
  {
    assert ProcessOk(h, p);
  }

  lemma HubSnoc(naming: Naming, actions: seq<Action>, action: Action)
    ensures RunHub(naming, actions + [action]) ==
      match RunHub(naming, actions) case None => None case Some(h) => Act(naming, h, action)
  {
    assert (actions + [action])[..|actions|] == actions;
  }

  lemma {:induction false} PrefixRuns(naming: Naming, actions: seq<Action>, n: nat)
    requires RunHub(naming, actions).Some? && n <= |actions|
    ensures RunHub(naming, actions[..n]).Some?
    decreases |actions| - n
  {
    if n == |actions| {
      assert actions[..n] == actions;
    } else {
      PrefixRuns(naming, actions, n + 1);
      assert actions[..n + 1] == actions[..n] + [actions[n]];
      HubSnoc(naming, actions[..n], actions[n]);
    }
  }

  /** The state before action `n` of a run. */
  ghost function At(naming: Naming, actions: seq<Action>, n: nat): Hub
    requires RunHub(naming, actions).Some? && n <= |actions|
  {
    PrefixRuns(naming, actions, n);
    RunHub(naming, actions[..n]).value
  }

  lemma AtNext(naming: Naming, actions: seq<Action>, n: nat)
    requires RunHub(naming, actions).Some? && n < |actions|
    ensures Act(naming, At(naming, actions, n), actions[n]) == Some(At(naming, actions, n + 1))
  {
    PrefixRuns(naming, actions, n + 1);
    assert actions[..n + 1] == actions[..n] + [actions[n]];
    HubSnoc(naming, actions[..n], actions[n]);
  }

  ghost predicate NeverMisroutes(naming: Naming, actions: seq<Action>)
    requires RunHub(naming, actions).Some?
  {
    forall n | 0 <= n < |actions| :: !Misroutes(At(naming, actions, n), actions[n])
  }

  ghost predicate NeverMisses(naming: Naming, actions: seq<Action>)
    requires RunHub(naming, actions).Some?
  {
    forall n | 0 <= n <= |actions| :: NoneMissed(At(naming, actions, n))
  }

  lemma {:induction false} HubRunKeeps(naming: Naming, actions: seq<Action>, n: nat)
    requires RunHub(naming, actions).Some? && n <= |actions|
    requires NeverMisroutes(naming, actions) || NeverMisses(naming, actions)
    ensures HubInv(At(naming, actions, n))
  {
    if n == 0 {
      assert forall node, command :: !Undelivered(NO_TABLES, node, command);
    } else {
      HubRunKeeps(naming, actions, n - 1);
      AtNext(naming, actions, n - 1);
      StepMissesExactly(naming, At(naming, actions, n - 1), actions[n - 1]);
    }
  }

  /** No undelivered stop is ever missed by its node's current connection, which got
      it or is about to, if and only if no step of the run misroutes one. */
  lemma NoStopIsMissed(naming: Naming, actions: seq<Action>)
    requires RunHub(naming, actions).Some?
    ensures NeverMisses(naming, actions) <==> NeverMisroutes(naming, actions)
  {
    if NeverMisses(naming, actions) {
      forall n | 0 <= n < |actions| ensures !Misroutes(At(naming, actions, n), actions[n]) {
        HubRunKeeps(naming, actions, n);
        AtNext(naming, actions, n);
        assert NoneMissed(At(naming, actions, n + 1));
        StepMissesExactly(naming, At(naming, actions, n), actions[n]);
      }
    }
    if NeverMisroutes(naming, actions) {
      forall n | 0 <= n <= |actions| ensures NoneMissed(At(naming, actions, n)) {
        HubRunKeeps(naming, actions, n);
      }
    }
  }
}
