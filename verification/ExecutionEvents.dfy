/** Batches of execution events: contiguous, re-sendable, and terminal once. */
module ExecutionEvents {
  import opened Base
  import opened ControlStore

  /** One execution, contiguous, `Started` exactly at zero, `Terminated` only last. */
  predicate BatchValid(events: seq<ExecutionEvent>) {
    forall i | 0 <= i < |events| ::
      && events[i].execution == events[0].execution
      && events[i].sequence == events[0].sequence + i
      && (events[i].kind.Started? <==> events[i].sequence == 0)
      && (events[i].kind.Terminated? ==> i == |events| - 1)
  }

  function Find(journal: seq<Entry>, event: Id): (entry: Option<Entry>)
    ensures entry.Some? ==> entry.value in journal && entry.value.event.id == event
    ensures entry.None? ==> forall i | 0 <= i < |journal| :: journal[i].event.id != event
  {
    if journal == [] then None
    else if journal[0].event.id == event then Some(journal[0])
    else Find(journal[1..], event)
  }

  /** The loop's variables: journal, new entries, cursor and whether the stream ended. */
  datatype Cursor = Cursor(journal: seq<Entry>, appended: seq<Entry>, next: nat, terminal: bool)

  function AppendOne(c: Cursor, task: Id, command: Id, event: ExecutionEvent): Result<Cursor, Error> {
    var entry := Entry(task, command, event);
    var existing := Find(c.journal, event.id);
    if existing.Some? && existing.value != entry then Err(Conflict)
    else if event.sequence < c.next then (if existing.None? then Err(Conflict) else Ok(c))
    else if event.sequence > c.next then Err(Invalid)
    else if c.terminal then Err(Invalid)
    else
      var grown := if existing.None? then c.(journal := c.journal + [entry], appended := c.appended + [entry]) else c;
      Ok(grown.(next := c.next + 1, terminal := event.kind.Terminated?))
  }

  function AppendAll(c: Cursor, task: Id, command: Id, events: seq<ExecutionEvent>): Result<Cursor, Error> {
    if events == [] then Ok(c)
    else
      var last := |events| - 1;
      var before :- AppendAll(c, task, command, events[..last]);
      AppendOne(before, task, command, events[last])
  }

  lemma {:induction false} AppendErrorStays(c: Cursor, task: Id, command: Id, events: seq<ExecutionEvent>, n: nat)
    requires n <= |events| && AppendAll(c, task, command, events[..n]).Err?
    ensures AppendAll(c, task, command, events) == Err(AppendAll(c, task, command, events[..n]).error)
    decreases |events| - n
  {
    if n == |events| {
      assert events[..n] == events;
    } else {
      assert events[..n + 1][..n] == events[..n];
      AppendErrorStays(c, task, command, events, n + 1);
    }
  }

  /** The loop over a batch, updating journal, cursor and terminal flag. */
  method AppendContiguous(start: Cursor, task: Id, command: Id, events: seq<ExecutionEvent>)
    returns (result: Result<Cursor, Error>)
    ensures result == AppendAll(start, task, command, events)
  {
    var journal, appended, next, terminal := start.journal, start.appended, start.next, start.terminal;
    for i := 0 to |events|
      invariant AppendAll(start, task, command, events[..i]) == Ok(Cursor(journal, appended, next, terminal))
    {
      var event := events[i];
      assert events[..i + 1][..i] == events[..i];
      var existing := Find(journal, event.id);
      if existing.Some? && existing.value != Entry(task, command, event) {
        AppendErrorStays(start, task, command, events, i + 1);
        return Err(Conflict);
      }
      if event.sequence < next {
        if existing.None? {
          AppendErrorStays(start, task, command, events, i + 1);
          return Err(Conflict);
        }
        continue;
      }
      if event.sequence > next || terminal {
        AppendErrorStays(start, task, command, events, i + 1);
        return Err(Invalid);
      }
      if existing.None? {
        journal := journal + [Entry(task, command, event)];
        appended := appended + [Entry(task, command, event)];
      }
      next := next + 1;
      terminal := event.kind.Terminated?;
    }
    assert events[..|events|] == events;
    return Ok(Cursor(journal, appended, next, terminal));
  }

  /** Where an accepted batch starts. */
  function StartCursor(t: Tables, command: Id, events: seq<ExecutionEvent>): Result<nat, Error>
    requires events != []
  {
    if command in t.streams then
      if t.streams[command].execution == events[0].execution then Ok(t.streams[command].next) else Err(Conflict)
    else if events[0].sequence == 0 then Ok(0)
    else Err(Invalid)
  }

  /** Admits a batch and says which entries are new. */
  function AdmitBatch(t: Tables, task: Id, command: Id, events: seq<ExecutionEvent>): Result<(Tables, seq<Entry>), Error> {
    if command !in t.commands || t.commands[command].task != task then Err(NotFound)
    else if events == [] then Err(Invalid)
    else
      var next :- StartCursor(t, command, events);
      if !BatchValid(events) || events[0].sequence > next then Err(Invalid)
      else
        var cursor :- AppendAll(Cursor(t.journal, [], next, t.Settled(command)), task, command, events);
        var execution := events[0].execution;
        if command !in t.streams && ExecutionInUse(t, execution) then Err(StoreFailure)
        else
          Ok((t.(journal := cursor.journal,
                 streams := t.streams[command := Stream(execution, cursor.next, cursor.terminal)]),
              cursor.appended))
  }

  /** The streams table holds each execution once. */
  predicate ExecutionInUse(t: Tables, execution: Id) {
    exists id :: id in t.streams && t.streams[id].execution == execution
  }

  // What a batch does -------------------------------------------------------

  predicate Ends(entries: seq<Entry>) {
    exists i :: 0 <= i < |entries| && entries[i].event.kind.Terminated?
  }

  /** Journalled events of the command lie below its cursor. */
  predicate Behind(journal: seq<Entry>, command: Id, next: nat) {
    forall i | 0 <= i < |journal| && journal[i].command == command :: journal[i].event.sequence < next
  }

  /** What a batch adds: the next events in sequence, with at most one terminal event, the last. */
  ghost predicate Grown(c: Cursor, after: Cursor, task: Id, command: Id, events: seq<ExecutionEvent>) {
    && after.journal == c.journal + after.appended
    && after.next == c.next + |after.appended|
    && (forall i | 0 <= i < |after.appended| ::
          && after.appended[i].task == task && after.appended[i].command == command
          && after.appended[i].event in events && after.appended[i].event.sequence == c.next + i)
    && (forall i | 0 <= i < |after.appended| - 1 :: !after.appended[i].event.kind.Terminated?)
    && (after.terminal <==> c.terminal || (after.appended != [] && after.appended[|after.appended| - 1].event.kind.Terminated?))
    && (c.terminal ==> after == c)
  }

  lemma GrownByOne(c: Cursor, before: Cursor, task: Id, command: Id, events: seq<ExecutionEvent>, event: ExecutionEvent)
    requires Grown(c, before, task, command, events) && Behind(c.journal, command, c.next)
    requires AppendOne(before, task, command, event).Ok?
    ensures Grown(c, AppendOne(before, task, command, event).value, task, command, events + [event])
  {
    var after := AppendOne(before, task, command, event).value;
    if after != before {
      var entry := Entry(task, command, event);
      assert after.appended == before.appended + [entry];
    }
  }

  lemma {:induction false} AppendGrows(c: Cursor, task: Id, command: Id, events: seq<ExecutionEvent>)
    requires AppendAll(c, task, command, events).Ok? && c.appended == [] && Behind(c.journal, command, c.next)
    ensures Grown(c, AppendAll(c, task, command, events).value, task, command, events)
  {
    if events == [] {
      assert c.journal + c.appended == c.journal;
    } else {
      var last := |events| - 1;
      AppendGrows(c, task, command, events[..last]);
      GrownByOne(c, AppendAll(c, task, command, events[..last]).value, task, command, events[..last], events[last]);
      assert events[..last] + [events[last]] == events;
    }
  }

  /** The cursor invariant of the event tables. */
  ghost predicate StreamsInv(t: Tables) {
    && (forall i | 0 <= i < |t.journal| ::
          && t.journal[i].command in t.streams && t.journal[i].event.sequence < t.streams[t.journal[i].command].next
          && t.journal[i].command in t.commands && t.commands[t.journal[i].command].task == t.journal[i].task)
    && (forall id | id in t.streams :: id in t.commands)
  }

  /** A batch reports a terminal event exactly when it ends the stream, and an ended
      stream takes nothing more: over all batches and re-sends, an execution ends once. */
  lemma BatchEndsOnce(t: Tables, task: Id, command: Id, events: seq<ExecutionEvent>)
    requires StreamsInv(t) && AdmitBatch(t, task, command, events).Ok?
    ensures var (t', appended) := AdmitBatch(t, task, command, events).value;
      && (Ends(appended) <==> t'.Settled(command) && !t.Settled(command))
      && (t.Settled(command) ==> t'.Settled(command) && appended == [])
      && t'.journal == t.journal + appended
      && (forall i | 0 <= i < |appended| :: appended[i].task == task && appended[i].command == command)
  {
    var next := StartCursor(t, command, events).value;
    AppendGrows(Cursor(t.journal, [], next, t.Settled(command)), task, command, events);
  }

  lemma BatchKeepsStreams(t: Tables, task: Id, command: Id, events: seq<ExecutionEvent>)
    requires StreamsInv(t) && AdmitBatch(t, task, command, events).Ok?
    ensures StreamsInv(AdmitBatch(t, task, command, events).value.0)
  {
    var next := StartCursor(t, command, events).value;
    AppendGrows(Cursor(t.journal, [], next, t.Settled(command)), task, command, events);
    var (t', appended) := AdmitBatch(t, task, command, events).value;
    forall i | 0 <= i < |t'.journal|
      ensures t'.journal[i].command in t'.streams && t'.journal[i].event.sequence < t'.streams[t'.journal[i].command].next
      ensures t'.journal[i].command in t'.commands && t'.commands[t'.journal[i].command].task == t'.journal[i].task
    {
      if i < |t.journal| {
        assert t'.journal[i] == t.journal[i];
      } else {
        assert t'.journal[i] == appended[i - |t.journal|];
      }
    }
  }

  /** Sending an accepted batch again is accepted and changes nothing. */
  lemma ResentBatchChangesNothing(t: Tables, task: Id, command: Id, events: seq<ExecutionEvent>)
    requires AdmitBatch(t, task, command, events).Ok?
    ensures var t' := AdmitBatch(t, task, command, events).value.0;
      AdmitBatch(t', task, command, events) == Ok((t', []))
  {
    var next := StartCursor(t, command, events).value;
    var start := Cursor(t.journal, [], next, t.Settled(command));
    var t' := AdmitBatch(t, task, command, events).value.0;
    var after := AppendAll(start, task, command, events).value;
    var again := Cursor(t'.journal, [], after.next, after.terminal);
    BatchIsFound(start, task, command, events);
    NextCovers(start, task, command, events);
    AppendNothing(again, task, command, events);
    assert StartCursor(t', command, events) == Ok(after.next);
    assert t'.streams[command := Stream(events[0].execution, after.next, after.terminal)] == t'.streams;
    assert t'.(journal := t'.journal, streams := t'.streams) == t';
  }

  /** After a batch, each of its events is journalled as it was sent. */
  lemma {:induction false} BatchIsFound(c: Cursor, task: Id, command: Id, events: seq<ExecutionEvent>)
    requires AppendAll(c, task, command, events).Ok?
    ensures var after := AppendAll(c, task, command, events).value;
      && c.journal <= after.journal
      && (forall i | 0 <= i < |events| :: Find(after.journal, events[i].id) == Some(Entry(task, command, events[i])))
  {
    if events != [] {
      var last := |events| - 1;
      BatchIsFound(c, task, command, events[..last]);
      var before, after := AppendAll(c, task, command, events[..last]).value, AppendAll(c, task, command, events).value;
      forall i | 0 <= i < |events| ensures Find(after.journal, events[i].id) == Some(Entry(task, command, events[i])) {
        if i < last {
          assert events[..last][i] == events[i];
          if after.journal != before.journal {
            FindGrows(before.journal, Entry(task, command, events[last]), events[i].id);
          }
        } else if after.journal != before.journal {
          FindGrows(before.journal, Entry(task, command, events[last]), events[last].id);
        }
      }
    }
  }

  lemma {:induction false} FindGrows(journal: seq<Entry>, entry: Entry, id: Id)
    ensures Find(journal + [entry], id) ==
      if Find(journal, id).Some? then Find(journal, id) else if entry.event.id == id then Some(entry) else None
  {
    if journal == [] {
      assert journal + [entry] == [entry];
      assert [entry][1..] == [];
    } else {
      assert (journal + [entry])[1..] == journal[1..] + [entry];
      FindGrows(journal[1..], entry, id);
    }
  }

  lemma {:induction false} NextCovers(c: Cursor, task: Id, command: Id, events: seq<ExecutionEvent>)
    requires AppendAll(c, task, command, events).Ok?
    ensures c.next <= AppendAll(c, task, command, events).value.next
    ensures forall i | 0 <= i < |events| :: events[i].sequence < AppendAll(c, task, command, events).value.next
  {
    if events != [] {
      var last := |events| - 1;
      NextCovers(c, task, command, events[..last]);
      forall i | 0 <= i < |events| ensures events[i].sequence < AppendAll(c, task, command, events).value.next {
        assert i < last ==> events[..last][i] == events[i];
      }
    }
  }

  lemma {:induction false} AppendNothing(c: Cursor, task: Id, command: Id, events: seq<ExecutionEvent>)
    requires forall i | 0 <= i < |events| ::
      events[i].sequence < c.next && Find(c.journal, events[i].id) == Some(Entry(task, command, events[i]))
    ensures AppendAll(c, task, command, events) == Ok(c)
  {
    if events != [] {
      var last := |events| - 1;
      assert forall i | 0 <= i < last :: events[..last][i] == events[i];
      AppendNothing(c, task, command, events[..last]);
    }
  }
}
