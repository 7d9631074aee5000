/** The continuity client: cursor, replay and reconnect over a sequenced journal.
    One `Client` value is everything the process and its durable state hold
    between two awaits; a step is what runs between them. The store may take its
    time: it answers a cursor read in one step, and the answer is used in another. */
module SurfaceClient {
  import opened Base
  import opened SurfaceState

  // State -------------------------------------------------------------------

  type SocketId = nat
  type Handle = nat
  type RequestId = nat

  /** A replay that someone waits for; `owned` when that is `attach` itself. */
  datatype Replay = Replay(through: nat, owned: bool)

  datatype Attachment = Attachment(task: Task, cursor: Option<nat>, replay: Option<Replay>)

  datatype Pending = AttachRequest(handle: Handle, owned: bool) | SubmitRequest(command: TextCommand)

  datatype Frame =
    | TaskEvent(task: Task, sequence: nat)
    | Attached(request: RequestId, task: Task, through: Option<nat>)
    | CommandAccepted(request: RequestId, id: string)
    | RequestError(request: RequestId)
    | Malformed

  /** The receive in flight: `apply` was called, or its cursor was stored too. */
  datatype Receiving =
    | Quiet
    | Applying(socket: SocketId, handle: Handle, sequence: nat)
    | Stored(socket: SocketId, handle: Handle, sequence: nat)

  /** A cursor read that an attachment waits for; `owned` when `attach` itself does. */
  datatype Reading = Reading(handle: Handle, owned: bool)

  /** A cursor the store has read, for a new attachment or for an existing one, and
      that has not been used yet. */
  datatype Answer = NewAnswer(task: Task, cursor: Option<nat>) | ReadAnswer(reading: Reading, cursor: Option<nat>)

  /** One call of `apply`, and the cursor that was stored when it was made. */
  datatype Delivery = Delivery(task: Task, sequence: nat, stored: Option<nat>)

  /** One resolved `attach` or reattach, and the cursor stored by then. */
  datatype Resolution = Resolution(task: Task, through: Option<nat>, stored: Option<nat>)

  /** `objects` holds every attachment object this process created; `deliveries`,
      `resolutions`, `submitted` and `accepted` only record what happened. */
  datatype Client = Client(
    cursors: map<Task, nat>, outbox: seq<TextCommand>,
    socket: Option<SocketId>, nextSocket: SocketId,
    nextRequest: RequestId, pending: map<RequestId, Pending>,
    attachments: map<Task, Handle>, objects: seq<Attachment>,
    queue: seq<(SocketId, Frame)>, receiving: Receiving,
    starting: multiset<Task>, waiting: multiset<Reading>, answers: multiset<Answer>,
    doomed: set<Task>, leaving: multiset<string>,
    deliveries: seq<Delivery>, resolutions: seq<Resolution>, submitted: seq<TextCommand>, accepted: set<string>)
  {
    function Stored(task: Task): Option<nat> {
      CursorIn(cursors, task)
    }

    predicate Attached(handle: Handle) {
      Attaches(attachments, objects, handle)
    }
  }

  const FRESH := Client(
    map[], [], None, 0, 0, map[], map[], [], [], Quiet, multiset{}, multiset{}, multiset{}, {}, multiset{}, [], [], [], {})

  // Losing the connection ---------------------------------------------------

  /** Tasks whose `attach` waits for an answer. */
  function AskingTasks(pending: map<RequestId, Pending>, objects: seq<Attachment>): set<Task> {
    set r | r in pending && pending[r].AttachRequest? && pending[r].owned && pending[r].handle < |objects|
      :: objects[pending[r].handle].task
  }

  /** Tasks whose `attach` waits for a replay. */
  function ReplayingTasks(attachments: map<Task, Handle>, objects: seq<Attachment>): set<Task> {
    set task | task in attachments && attachments[task] < |objects|
      && objects[attachments[task]].replay.Some? && objects[attachments[task]].replay.value.owned
  }

  function Rejected(pending: map<RequestId, Pending>, attachments: map<Task, Handle>, objects: seq<Attachment>): set<Task> {
    AskingTasks(pending, objects) + ReplayingTasks(attachments, objects)
  }

  predicate Attaches(attachments: map<Task, Handle>, objects: seq<Attachment>, handle: Handle) {
    handle < |objects| && objects[handle].task in attachments && attachments[objects[handle].task] == handle
  }

  function WithoutReplays(attachments: map<Task, Handle>, objects: seq<Attachment>): (cleared: seq<Attachment>)
    ensures |cleared| == |objects|
    ensures forall o | 0 <= o < |objects| ::
      cleared[o] == if Attaches(attachments, objects, o) then objects[o].(replay := None) else objects[o]
  {
    seq(|objects|, o requires 0 <= o < |objects| =>
      if Attaches(attachments, objects, o) then objects[o].(replay := None) else objects[o])
  }

  function Disconnect(c: Client, socket: SocketId): Client {
    if c.socket != Some(socket) then c
    else
      c.(socket := None, pending := map[], objects := WithoutReplays(c.attachments, c.objects),
         doomed := c.doomed + Rejected(c.pending, c.attachments, c.objects))
  }

  // Attaching ---------------------------------------------------------------

  /** `attach` after its first await: a new attachment object, whose cursor is then read again. */
  function NewAttachment(c: Client, task: Task, cursor: Option<nat>): Client {
    c.(answers := c.answers - multiset{NewAnswer(task, cursor)},
       objects := c.objects + [Attachment(task, cursor, None)],
       attachments := c.attachments[task := |c.objects|],
       waiting := c.waiting + multiset{Reading(|c.objects|, true)})
  }

  /** The store answers a read with the cursor it holds. */
  function AnswerRead(c: Client, reading: Reading): Client
    requires reading.handle < |c.objects|
  {
    c.(waiting := c.waiting - multiset{reading},
       answers := c.answers + multiset{ReadAnswer(reading, c.Stored(c.objects[reading.handle].task))})
  }

  /** The answer becomes the attachment's cursor. */
  function UseAnswer(c: Client, reading: Reading, cursor: Option<nat>): Client
    requires reading.handle < |c.objects|
  {
    c.(answers := c.answers - multiset{ReadAnswer(reading, cursor)},
       objects := c.objects[reading.handle := c.objects[reading.handle].(cursor := cursor)])
  }

  /** Asks for what follows the cursor; without a connection the attach fails. */
  function AskFollowing(c: Client, reading: Reading): Client
    requires reading.handle < |c.objects|
  {
    if c.socket.Some? then
      c.(pending := c.pending[c.nextRequest := AttachRequest(reading.handle, reading.owned)], nextRequest := c.nextRequest + 1)
    else if reading.owned then c.(doomed := c.doomed + {c.objects[reading.handle].task})
    else c
  }

  function TakeCursor(c: Client, reading: Reading, cursor: Option<nat>): Client
    requires reading.handle < |c.objects|
  {
    AskFollowing(UseAnswer(c, reading, cursor), reading)
  }

  /** An `attached` answer: done when the cursor has reached it, else a replay. */
  function WaitForReplay(c: Client, handle: Handle, through: Option<nat>, owned: bool): Client
    requires handle < |c.objects|
  {
    var attachment := c.objects[handle];
    if AtMost(through, attachment.cursor) then
      c.(resolutions := c.resolutions + [Resolution(attachment.task, through, c.Stored(attachment.task))])
    else
      c.(objects := c.objects[handle := attachment.(replay := Some(Replay(through.value, owned)))])
  }

  // Receiving ---------------------------------------------------------------

  /** An event at or below the cursor is skipped, the next one is applied, and any
      other ends the connection. */
  function ApplyTaskEvent(c: Client, socket: SocketId, task: Task, sequence: nat): Client {
    if task !in c.attachments || c.attachments[task] >= |c.objects| then Disconnect(c, socket)
    else
      var handle := c.attachments[task];
      var cursor := c.objects[handle].cursor;
      if AtMost(Some(sequence), cursor) then c
      else if sequence != Successor(cursor) then Disconnect(c, socket)
      else
        c.(receiving := Applying(socket, handle, sequence),
           deliveries := c.deliveries + [Delivery(task, sequence, c.Stored(task))])
  }

  function Complete(c: Client, socket: SocketId, frame: Frame): Client {
    match frame
    case TaskEvent(task, sequence) => ApplyTaskEvent(c, socket, task, sequence)
    case Malformed => Disconnect(c, socket)
    case RequestError(request) =>
      if request !in c.pending then Disconnect(c, socket)
      else
        var c' := c.(pending := c.pending - {request});
        (match c.pending[request]
         case AttachRequest(handle, owned) =>
           if owned && handle < |c.objects| then c'.(doomed := c.doomed + {c.objects[handle].task}) else c'
         case SubmitRequest(_) => c')
    case CommandAccepted(request, id) =>
      if request !in c.pending then Disconnect(c, socket)
      else
        var c' := c.(pending := c.pending - {request});
        (match c.pending[request]
         case SubmitRequest(command) =>
           if command.id != id then Disconnect(c', socket)
           else c'.(leaving := c.leaving + multiset{id}, accepted := c.accepted + {id})
         case AttachRequest(handle, owned) => FailAttach(c', socket, handle, owned))
    case Attached(request, task, through) =>
      if request !in c.pending then Disconnect(c, socket)
      else
        var c' := c.(pending := c.pending - {request});
        (match c.pending[request]
         case SubmitRequest(_) => Disconnect(c', socket)
         case AttachRequest(handle, owned) =>
           if handle >= |c.objects| || c.objects[handle].task != task then FailAttach(c', socket, handle, owned)
           else WaitForReplay(c', handle, through, owned))
  }

  /** An answer of the wrong kind rejects its request and ends the connection. */
  function FailAttach(c: Client, socket: SocketId, handle: Handle, owned: bool): Client {
    Disconnect(if owned && handle < |c.objects| then c.(doomed := c.doomed + {c.objects[handle].task}) else c, socket)
  }

  /** The next queued frame, once the receive before it has finished. */
  function Receive(c: Client): Client
    requires c.queue != []
  {
    var (socket, frame) := c.queue[0];
    var c' := c.(queue := c.queue[1..]);
    if c.socket == Some(socket) then Complete(c', socket, frame) else c'
  }

  /** `apply` returned; its cursor is stored. */
  function StoreCursor(c: Client): Client
    requires c.receiving.Applying? && c.receiving.handle < |c.objects|
  {
    var Applying(socket, handle, sequence) := c.receiving;
    c.(cursors := Raised(c.cursors, c.objects[handle].task, sequence), receiving := Stored(socket, handle, sequence))
  }

  /** The attachment follows its stored cursor and a reached replay resolves. */
  function FinishReceive(c: Client): Client
    requires c.receiving.Stored? && c.receiving.handle < |c.objects|
  {
    var Stored(_, handle, sequence) := c.receiving;
    var attachment := c.objects[handle].(cursor := Some(sequence));
    if attachment.replay.Some? && sequence >= attachment.replay.value.through then
      c.(receiving := Quiet, objects := c.objects[handle := attachment.(replay := None)],
         resolutions := c.resolutions
           + [Resolution(attachment.task, Some(attachment.replay.value.through), c.Stored(attachment.task))])
    else
      c.(receiving := Quiet, objects := c.objects[handle := attachment])
  }

  // Commands ----------------------------------------------------------------

  function Send(c: Client, command: TextCommand): Client {
    c.(pending := c.pending[c.nextRequest := SubmitRequest(command)], nextRequest := c.nextRequest + 1)
  }

  // Steps -------------------------------------------------------------------

  datatype Input =
    | Connect
    | Close(socket: SocketId)
    | Arrive(socket: SocketId, frame: Frame)
    | NextReceive
    | ApplyReturns
    | ApplyThrows
    | CursorFollows
    | CallAttach(task: Task)
    | AttachRead(task: Task)
    | AttachContinues(task: Task, cursor: Option<nat>)
    | Reattach(task: Task)
    | CursorRead(reading: Reading)
    | CursorTaken(reading: Reading, cursor: Option<nat>)
    | AttachFails(task: Task)
    | SubmitText(command: TextCommand)
    | RetryCommand(index: nat)
    | RemoveAccepted(id: string)
    | Crash

  /** What one step does, or `None` when it cannot happen now. */
  function Step(c: Client, input: Input): Option<Client> {
    match input
    case Connect =>
      if c.socket.Some? then None else Some(c.(socket := Some(c.nextSocket), nextSocket := c.nextSocket + 1))
    case Close(socket) => Some(Disconnect(c, socket))
    case Arrive(socket, frame) =>
      if socket >= c.nextSocket then None else Some(c.(queue := c.queue + [(socket, frame)]))
    case NextReceive => if c.queue == [] || !c.receiving.Quiet? then None else Some(Receive(c))
    case ApplyReturns =>
      if c.receiving.Applying? && c.receiving.handle < |c.objects| then Some(StoreCursor(c)) else None
    case ApplyThrows =>
      if !c.receiving.Applying? then None else Some(Disconnect(c.(receiving := Quiet), c.receiving.socket))
    case CursorFollows =>
      if c.receiving.Stored? && c.receiving.handle < |c.objects| then Some(FinishReceive(c)) else None
    case CallAttach(task) =>
      if c.socket.None? || task in c.attachments then None
      else Some(c.(starting := c.starting + multiset{task}))
    case AttachRead(task) =>
      if task !in c.starting then None
      else Some(c.(starting := c.starting - multiset{task}, answers := c.answers + multiset{NewAnswer(task, c.Stored(task))}))
    case AttachContinues(task, cursor) =>
      if NewAnswer(task, cursor) !in c.answers then None else Some(NewAttachment(c, task, cursor))
    case Reattach(task) =>
      if c.socket.None? || task !in c.attachments || c.attachments[task] >= |c.objects| then None
      else Some(c.(waiting := c.waiting + multiset{Reading(c.attachments[task], false)}))
    case CursorRead(reading) =>
      if reading !in c.waiting || reading.handle >= |c.objects| then None else Some(AnswerRead(c, reading))
    case CursorTaken(reading, cursor) =>
      if ReadAnswer(reading, cursor) !in c.answers || reading.handle >= |c.objects| then None
      else Some(TakeCursor(c, reading, cursor))
    case AttachFails(task) =>
      if task !in c.doomed then None
      else Some(c.(doomed := c.doomed - {task}, attachments := c.attachments - {task}))
    case SubmitText(command) =>
      if c.socket.None? || (exists i :: 0 <= i < |c.submitted| && c.submitted[i].id == command.id) then None
      else Some(Send(c.(outbox := c.outbox + [command], submitted := c.submitted + [command]), command))
    case RetryCommand(index) =>
      if c.socket.None? || index >= |c.outbox| then None else Some(Send(c, c.outbox[index]))
    case RemoveAccepted(id) =>
      if id !in c.leaving then None
      else Some(c.(leaving := c.leaving - multiset{id}, outbox := Without(c.outbox, id)))
    case Crash =>
      Some(FRESH.(cursors := c.cursors, outbox := c.outbox, deliveries := c.deliveries, resolutions := c.resolutions,
                  submitted := c.submitted, accepted := c.accepted))
  }

  function Run(inputs: seq<Input>): Option<Client> {
    if inputs == [] then Some(FRESH)
    else
      match Run(inputs[..|inputs| - 1])
      case None => None
      case Some(c) => Step(c, inputs[|inputs| - 1])
  }
}
