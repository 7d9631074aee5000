/** The client as it is written: fields updated in place between awaits, each
    method equal to the step it stands for. */
module SurfaceClientCore {
  import opened Base
  import opened SurfaceState
  import opened SurfaceClient

  class ClientCore {
    const database: Database
    var socket: Option<SocketId>
    var nextSocket: SocketId
    var nextRequest: RequestId
    var pending: map<RequestId, Pending>
    var attachments: map<Task, Handle>
    var objects: seq<Attachment>
    var queue: seq<(SocketId, Frame)>
    var receiving: Receiving
    var starting: multiset<Task>
    var waiting: multiset<Reading>
    var answers: multiset<Answer>
    var doomed: set<Task>
    var leaving: multiset<string>
    ghost var deliveries: seq<Delivery>
    ghost var resolutions: seq<Resolution>
    ghost var submitted: seq<TextCommand>
    ghost var accepted: set<string>

    ghost function State(): Client
      reads this, database
    {
      Client(database.cursors, database.outbox, socket, nextSocket, nextRequest, pending, attachments, objects, queue,
             receiving, starting, waiting, answers, doomed, leaving, deliveries, resolutions, submitted, accepted)
    }

    /** A new process over the stored state. */
    constructor (database: Database)
      ensures Valid() && this.database == database
      ensures State() == FRESH.(cursors := database.cursors, outbox := database.outbox)
    {
      this.database := database;
      socket, nextSocket, nextRequest := None, 0, 0;
      pending, attachments, objects, queue := map[], map[], [], [];
      receiving, starting, waiting, answers, doomed, leaving := Quiet, multiset{}, multiset{}, multiset{}, {}, multiset{};
      deliveries, resolutions, submitted, accepted := [], [], [], {};
    }

    /** Handles in use denote attachment objects of this process. */
    predicate Valid()
      reads this
    {
      && (forall task | task in attachments :: attachments[task] < |objects| && objects[attachments[task]].task == task)
      && (forall r | r in pending :: pending[r].AttachRequest? ==> pending[r].handle < |objects|)
      && (!receiving.Quiet? ==> receiving.handle < |objects|)
    }

    /** Rejects every request. */
    method RejectRequests() returns (rejected: set<Task>)
      requires Valid()
      modifies this`pending
      ensures Valid() && rejected == AskingTasks(old(pending), objects) && pending == map[]
    {
      rejected := {};
      var requests := pending.Keys;
      while requests != {}
        invariant requests <= pending.Keys && unchanged(this)
        invariant rejected == set r | r in pending && r !in requests && pending[r].AttachRequest? && pending[r].owned
          && pending[r].handle < |objects| :: objects[pending[r].handle].task
        decreases |requests|
      {
        var r :| r in requests;
        requests := requests - {r};
        if pending[r].AttachRequest? && pending[r].owned {
          rejected := rejected + {objects[pending[r].handle].task};
        }
      }
      pending := map[];
    }

    /** Rejects the replay of every attached task. */
    method RejectReplays() returns (rejected: set<Task>)
      requires Valid()
      modifies this`objects
      ensures Valid() && rejected == ReplayingTasks(attachments, old(objects)) && objects == WithoutReplays(attachments, old(objects))
    {
      ghost var before := objects;
      rejected := {};
      var tasks := attachments.Keys;
      while tasks != {}
        invariant tasks <= attachments.Keys && |objects| == |before|
        invariant forall o | 0 <= o < |objects| ::
          objects[o] == (if Attaches(attachments, before, o) && before[o].task !in tasks
                         then before[o].(replay := None) else before[o])
        invariant forall task :: task in rejected <==> task in ReplayingTasks(attachments, before) && task !in tasks
        decreases |tasks|
      {
        var task :| task in tasks;
        tasks := tasks - {task};
        var attachment := objects[attachments[task]];
        if attachment.replay.Some? && attachment.replay.value.owned {
          rejected := rejected + {task};
        }
        objects := objects[attachments[task] := attachment.(replay := None)];
      }
      assert rejected == ReplayingTasks(attachments, before);
      assert objects == WithoutReplays(attachments, before);
    }

    method RejectAll() returns (rejected: set<Task>)
      requires Valid()
      modifies this`pending, this`objects
      ensures Valid() && rejected == Rejected(old(pending), attachments, old(objects))
      ensures pending == map[] && objects == WithoutReplays(attachments, old(objects))
    {
      var asking := RejectRequests();
      var replaying := RejectReplays();
      rejected := asking + replaying;
    }

    method Disconnect(closing: SocketId)
      requires Valid()
      modifies this`socket, this`pending, this`objects, this`doomed
      ensures Valid() && State() == SurfaceClient.Disconnect(old(State()), closing)
    {
      if socket == Some(closing) {
        var rejected := RejectAll();
        doomed := doomed + rejected;
        socket := None;
      }
    }

    /** The store answers the first read of an `attach`. */
    method ReadForAttach(task: Task)
      requires Valid() && task in starting
      modifies this`starting, this`answers
      ensures Valid() && Some(State()) == Step(old(State()), AttachRead(task))
    {
      var cursor := database.Cursor(task);
      starting := starting - multiset{task};
      answers := answers + multiset{NewAnswer(task, cursor)};
    }

    /** Adds an attachment object of a task, which is the attached one from now on. */
    method AddObject(task: Task, cursor: Option<nat>) returns (handle: Handle)
      requires Valid()
      modifies this`objects, this`attachments
      ensures Valid() && handle == |old(objects)|
      ensures objects == old(objects) + [Attachment(task, cursor, None)] && attachments == old(attachments)[task := handle]
    {
      handle := |objects|;
      objects := objects + [Attachment(task, cursor, None)];
      attachments := attachments[task := handle];
    }

    /** `attach` after its first await. */
    method ContinueAttach(task: Task, cursor: Option<nat>)
      requires Valid()
      modifies this`answers, this`objects, this`attachments, this`waiting
      ensures Valid() && State() == NewAttachment(old(State()), task, cursor)
    {
      var handle := AddObject(task, cursor);
      answers := answers - multiset{NewAnswer(task, cursor)};
      waiting := waiting + multiset{Reading(handle, true)};
    }

    /** The store answers the read of an attachment. */
    method ReadForAttachment(reading: Reading)
      requires Valid() && reading.handle < |objects|
      modifies this`waiting, this`answers
      ensures Valid() && State() == AnswerRead(old(State()), reading)
    {
      var cursor := database.Cursor(objects[reading.handle].task);
      waiting := waiting - multiset{reading};
      answers := answers + multiset{ReadAnswer(reading, cursor)};
    }

    method AssignCursor(reading: Reading, cursor: Option<nat>)
      requires Valid() && reading.handle < |objects|
      modifies this`answers, this`objects
      ensures Valid() && |objects| == |old(objects)| && State() == UseAnswer(old(State()), reading, cursor)
    {
      answers := answers - multiset{ReadAnswer(reading, cursor)};
      objects := objects[reading.handle := objects[reading.handle].(cursor := cursor)];
    }

    method Ask(reading: Reading)
      requires Valid() && reading.handle < |objects|
      modifies this`pending, this`nextRequest, this`doomed
      ensures Valid() && State() == AskFollowing(old(State()), reading)
    {
      if socket.Some? {
        pending := pending[nextRequest := AttachRequest(reading.handle, reading.owned)];
        nextRequest := nextRequest + 1;
      } else if reading.owned {
        doomed := doomed + {objects[reading.handle].task};
      }
    }

    /** `attachExisting` after its await. */
    method AttachExisting(reading: Reading, cursor: Option<nat>)
      requires Valid() && reading.handle < |objects|
      modifies this`answers, this`objects, this`pending, this`nextRequest, this`doomed
      ensures Valid() && State() == TakeCursor(old(State()), reading, cursor)
    {
      AssignCursor(reading, cursor);
      Ask(reading);
    }

    /** The part of a task event's receive before `apply` is awaited. */
    method ApplyTaskEvent(from: SocketId, task: Task, sequence: nat)
      requires Valid()
      modifies this`socket, this`pending, this`objects, this`doomed, this`receiving, this`deliveries
      ensures Valid() && State() == SurfaceClient.ApplyTaskEvent(old(State()), from, task, sequence)
    {
      if task !in attachments {
        Disconnect(from);
      } else {
        var handle := attachments[task];
        var cursor := objects[handle].cursor;
        if cursor.Some? && sequence <= cursor.value {
          return;
        }
        var expected := if cursor.None? then 0 else cursor.value + 1;
        if sequence != expected {
          Disconnect(from);
        } else {
          receiving := Applying(from, handle, sequence);
          deliveries := deliveries + [Delivery(task, sequence, CursorIn(database.cursors, task))];
        }
      }
    }

    /** `apply` has returned. */
    method StoreCursor()
      requires Valid() && receiving.Applying?
      modifies database`cursors, this`receiving
      ensures Valid() && State() == SurfaceClient.StoreCursor(old(State()))
    {
      database.AdvanceCursor(objects[receiving.handle].task, receiving.sequence);
      receiving := Stored(receiving.socket, receiving.handle, receiving.sequence);
    }

    /** The cursor has been stored. */
    method FinishReceive()
      requires Valid() && receiving.Stored?
      modifies this
      ensures Valid() && State() == SurfaceClient.FinishReceive(old(State()))
    {
      var attachment := objects[receiving.handle].(cursor := Some(receiving.sequence));
      if attachment.replay.Some? && receiving.sequence >= attachment.replay.value.through {
        resolutions := resolutions + [Resolution(
          attachment.task, Some(attachment.replay.value.through), CursorIn(database.cursors, attachment.task))];
        attachment := attachment.(replay := None);
      }
      objects := objects[receiving.handle := attachment];
      receiving := Quiet;
    }
  }
}
