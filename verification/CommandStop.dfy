/** A surface asks to stop one command; the stop is recorded before it is answered. */
module CommandStop {
  import opened Base
  import opened ControlStore

  datatype StopAdmission = AlreadyEnded | Recorded(delivered: bool)

  function FindStop(stops: seq<Stop>, command: Id): (stop: Option<Stop>)
    ensures stop.Some? ==> stop.value in stops && stop.value.command == command
    ensures stop.None? ==> forall i | 0 <= i < |stops| :: stops[i].command != command
  {
    if stops == [] then None
    else if stops[0].command == command then Some(stops[0])
    else FindStop(stops[1..], command)
  }

  /** What a stop of `command` answers now: an earlier record outranks its state. */
  function AnswerOf(t: Tables, command: Id): Option<StopAdmission> {
    match FindStop(t.stops, command)
    case Some(stop) => Some(Recorded(stop.delivered))
    case None => if t.Settled(command) then Some(AlreadyEnded) else None
  }

  function AdmitStop(t: Tables, task: Id, command: Id): Result<(Tables, StopAdmission), Error> {
    if command !in t.commands || t.commands[command].task != task then Err(NotFound)
    else match AnswerOf(t, command)
      case Some(answer) => Ok((t, answer))
      case None => Ok((t.(stops := t.stops + [Stop(command, false)]), Recorded(false)))
  }

  function MarkDelivered(stops: seq<Stop>, command: Id): (marked: seq<Stop>)
    ensures |marked| == |stops|
    ensures forall i | 0 <= i < |stops| ::
      marked[i] == if stops[i].command == command then Stop(command, true) else stops[i]
  {
    seq(|stops|, i requires 0 <= i < |stops| => if stops[i].command == command then Stop(command, true) else stops[i])
  }

  /** Idempotent, and only from the node of the task; a deleted task has nothing left to confirm. */
  function AcknowledgeStop(t: Tables, node: Node, task: Id, command: Id): Result<Tables, Error> {
    if task !in t.tasks then Ok(t)
    else if t.tasks[task].node != node then Err(Invalid)
    else if command in t.commands && t.commands[command].task == task then Ok(t.(stops := MarkDelivered(t.stops, command)))
    else Ok(t)
  }

  /** A stop recorded for `node` that it has not acknowledged. */
  predicate PendingFor(t: Tables, node: Node, stop: Stop) {
    && !stop.delivered
    && stop.command in t.commands && t.commands[stop.command].task in t.tasks
    && t.tasks[t.commands[stop.command].task].node == node
  }

  function TaskOf(t: Tables, command: Id): Id {
    if command in t.commands then t.commands[command].task else 0
  }

  /** Adds a command behind those of its own and of earlier tasks. */
  function Insert(t: Tables, pending: seq<Id>, command: Id): seq<Id> {
    if pending == [] || TaskOf(t, pending[|pending| - 1]) <= TaskOf(t, command) then pending + [command]
    else Insert(t, pending[..|pending| - 1], command) + [pending[|pending| - 1]]
  }

  function PendingCommands(t: Tables, stops: seq<Stop>, node: Node): seq<Id> {
    if stops == [] then []
    else
      var last, before := stops[|stops| - 1], PendingCommands(t, stops[..|stops| - 1], node);
      if PendingFor(t, node, last) then Insert(t, before, last.command) else before
  }

  /** Where the stop of a command was recorded, counted from the first. */
  function Place(stops: seq<Stop>, command: Id): nat {
    if stops == [] || stops[0].command == command then 0 else 1 + Place(stops[1..], command)
  }

  /** Earlier in the order of tasks, and within a task in the order of recording. */
  predicate Precedes(t: Tables, stops: seq<Stop>, a: Id, b: Id) {
    TaskOf(t, a) < TaskOf(t, b) || (TaskOf(t, a) == TaskOf(t, b) && Place(stops, a) < Place(stops, b))
  }

  ghost predicate InOrder(t: Tables, stops: seq<Stop>, pending: seq<Id>) {
    forall i, j | 0 <= i < j < |pending| :: Precedes(t, stops, pending[i], pending[j])
  }

  ghost predicate Pending(t: Tables, stops: seq<Stop>, node: Node, command: Id) {
    exists i :: 0 <= i < |stops| && stops[i].command == command && PendingFor(t, node, stops[i])
  }

  /** Collects exactly the unacknowledged stops of a node, by task, and within each task
      in the order they were recorded; there is only one such list. */
  method LoadPendingStops(t: Tables, node: Node) returns (pending: seq<Id>)
    ensures pending == PendingCommands(t, t.stops, node)
    ensures forall command :: command in pending <==> Pending(t, t.stops, node, command)
    ensures UniqueStops(t.stops) ==> InOrder(t, t.stops, pending)
  {
    pending := [];
    for i := 0 to |t.stops|
      invariant pending == PendingCommands(t, t.stops[..i], node)
    {
      assert t.stops[..i + 1][..i] == t.stops[..i];
      if PendingFor(t, node, t.stops[i]) {
        pending := Insert(t, pending, t.stops[i].command);
      }
    }
    assert t.stops[..|t.stops|] == t.stops;
    forall command ensures command in pending <==> Pending(t, t.stops, node, command) {
      PendingContents(t, t.stops, node, command);
    }
    if UniqueStops(t.stops) {
      PendingIsInOrder(t, t.stops, node);
    }
  }

  lemma {:induction false} InsertContents(t: Tables, pending: seq<Id>, command: Id, other: Id)
    ensures other in Insert(t, pending, command) <==> other in pending || other == command
    ensures |Insert(t, pending, command)| == |pending| + 1
  {
    if pending != [] && TaskOf(t, pending[|pending| - 1]) > TaskOf(t, command) {
      InsertContents(t, pending[..|pending| - 1], command, other);
      assert pending == pending[..|pending| - 1] + [pending[|pending| - 1]];
    }
  }

  lemma {:induction false} PendingContents(t: Tables, stops: seq<Stop>, node: Node, command: Id)
    ensures command in PendingCommands(t, stops, node) <==> Pending(t, stops, node, command)
  {
    if stops != [] {
      var before, last := stops[..|stops| - 1], |stops| - 1;
      PendingContents(t, before, node, command);
      InsertContents(t, PendingCommands(t, before, node), stops[last].command, command);
      if Pending(t, before, node, command) {
        var i :| 0 <= i < |before| && before[i].command == command && PendingFor(t, node, before[i]);
        assert stops[i] == before[i];
      }
      if i :| 0 <= i < |stops| && stops[i].command == command && PendingFor(t, node, stops[i]) && i < last {
        assert before[i] == stops[i];
      }
    }
  }

  lemma {:induction false} PlaceAt(stops: seq<Stop>, i: nat)
    requires UniqueStops(stops) && i < |stops|
    ensures Place(stops, stops[i].command) == i
  {
    if i > 0 {
      PlaceAt(stops[1..], i - 1);
    }
  }

  /** Inserting the stop recorded last keeps the order. */
  lemma {:induction false} InsertKeepsOrder(t: Tables, stops: seq<Stop>, pending: seq<Id>, command: Id)
    requires InOrder(t, stops, pending)
    requires forall i | 0 <= i < |pending| :: Place(stops, pending[i]) < Place(stops, command)
    ensures InOrder(t, stops, Insert(t, pending, command))
  {
    if pending != [] {
      var before, last := pending[..|pending| - 1], pending[|pending| - 1];
      if TaskOf(t, last) > TaskOf(t, command) {
        InsertKeepsOrder(t, stops, before, command);
        var inserted := Insert(t, before, command);
        forall i | 0 <= i < |inserted| ensures Precedes(t, stops, inserted[i], last) {
          InsertContents(t, before, command, inserted[i]);
          assert inserted[i] in inserted;
        }
        InsertContents(t, before, command, command);
      } else {
        forall i | 0 <= i < |pending| ensures Precedes(t, stops, pending[i], command) {
          assert i < |before| ==> Precedes(t, stops, pending[i], last);
        }
      }
    }
  }

  lemma {:induction false} CollectsInOrder(t: Tables, stops: seq<Stop>, node: Node, n: nat)
    requires UniqueStops(stops) && n <= |stops|
    ensures InOrder(t, stops, PendingCommands(t, stops[..n], node))
  {
    if n > 0 {
      var before := PendingCommands(t, stops[..n - 1], node);
      CollectsInOrder(t, stops, node, n - 1);
      assert stops[..n][..n - 1] == stops[..n - 1];
      forall i | 0 <= i < |before| ensures Place(stops, before[i]) < n - 1 {
        PendingContents(t, stops[..n - 1], node, before[i]);
        assert before[i] in before;
        var k :| 0 <= k < n - 1 && stops[..n - 1][k].command == before[i];
        PlaceAt(stops, k);
      }
      PlaceAt(stops, n - 1);
      InsertKeepsOrder(t, stops, before, stops[n - 1].command);
    }
  }

  lemma PendingIsInOrder(t: Tables, stops: seq<Stop>, node: Node)
    requires UniqueStops(stops)
    ensures InOrder(t, stops, PendingCommands(t, stops, node))
  {
    CollectsInOrder(t, stops, node, |stops|);
    assert stops[..|stops|] == stops;
  }

  /** At most one record per command. */
  predicate UniqueStops(stops: seq<Stop>) {
    forall i, j | 0 <= i < j < |stops| :: stops[i].command != stops[j].command
  }

  lemma {:induction false} FindAt(stops: seq<Stop>, i: nat)
    requires UniqueStops(stops) && i < |stops|
    ensures FindStop(stops, stops[i].command) == Some(stops[i])
  {
    if i > 0 {
      FindAt(stops[1..], i - 1);
    }
  }

  lemma {:induction false} FindAppended(stops: seq<Stop>, stop: Stop, command: Id)
    ensures FindStop(stops + [stop], command) ==
      if FindStop(stops, command).Some? then FindStop(stops, command)
      else if stop.command == command then Some(stop) else None
  {
    if stops == [] {
      assert stops + [stop] == [stop] && [stop][1..] == [];
    } else {
      assert (stops + [stop])[1..] == stops[1..] + [stop];
      FindAppended(stops[1..], stop, command);
    }
  }

  lemma {:induction false} FindMarked(stops: seq<Stop>, marked: Id, command: Id)
    ensures FindStop(MarkDelivered(stops, marked), command) ==
      match FindStop(stops, command)
      case None => None
      case Some(stop) => Some(if command == marked then Stop(command, true) else stop)
  {
    if stops != [] {
      assert MarkDelivered(stops, marked)[1..] == MarkDelivered(stops[1..], marked);
      FindMarked(stops[1..], marked, command);
    }
  }

  lemma {:induction false} FindKept(stops: seq<Stop>, kept: map<Id, CommandRow>, command: Id)
    ensures FindStop(StopsFor(stops, kept), command) == if command in kept then FindStop(stops, command) else None
  {
    if stops != [] {
      FindKept(stops[1..], kept, command);
      var rest := StopsFor(stops[1..], kept);
      assert ([stops[0]] + rest)[1..] == rest && [] + rest == rest;
    }
  }
}
