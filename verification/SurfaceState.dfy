/** The durable state of a surface: one cursor per task and the command outbox. */
module SurfaceState {
  import opened Base

  datatype Task = Task(id: string)

  datatype TextCommand = TextCommand(id: string, task: Task, text: string)

  /** `None` orders below every sequence. */
  predicate AtMost(a: Option<nat>, b: Option<nat>) {
    a.None? || (b.Some? && a.value <= b.value)
  }

  function Successor(cursor: Option<nat>): nat {
    if cursor.None? then 0 else cursor.value + 1
  }

  function CursorIn(cursors: map<Task, nat>, task: Task): Option<nat> {
    if task in cursors then Some(cursors[task]) else None
  }

  /** Inserts a cursor, or raises the one that is there. */
  function Raised(cursors: map<Task, nat>, task: Task, sequence: nat): (raised: map<Task, nat>)
    ensures AtMost(CursorIn(cursors, task), CursorIn(raised, task)) && AtMost(Some(sequence), CursorIn(raised, task))
    ensures CursorIn(raised, task) == CursorIn(cursors, task) || CursorIn(raised, task) == Some(sequence)
    ensures forall other | other != task :: CursorIn(raised, other) == CursorIn(cursors, other)
  {
    if task in cursors && cursors[task] >= sequence then cursors else cursors[task := sequence]
  }

  function Without(outbox: seq<TextCommand>, id: string): seq<TextCommand> {
    if outbox == [] then []
    else (if outbox[0].id == id then [] else [outbox[0]]) + Without(outbox[1..], id)
  }

  /** Removing a command keeps the others, in their order. */
  lemma {:induction false} WithoutKeeps(outbox: seq<TextCommand>, id: string, command: TextCommand)
    ensures command in Without(outbox, id) <==> command in outbox && command.id != id
  {
    if outbox != [] {
      WithoutKeeps(outbox[1..], id, command);
    }
  }

  predicate UniqueIds(outbox: seq<TextCommand>) {
    forall i, j | 0 <= i < j < |outbox| :: outbox[i].id != outbox[j].id
  }

  class Database {
    var cursors: map<Task, nat>
    var outbox: seq<TextCommand>

    constructor ()
      ensures cursors == map[] && outbox == []
    {
      cursors, outbox := map[], [];
    }

    method Cursor(task: Task) returns (cursor: Option<nat>)
      ensures cursor == CursorIn(cursors, task)
    {
      if task !in cursors {
        return None;
      }
      return Some(cursors[task]);
    }

    /** Stored cursors never move back. */
    method AdvanceCursor(task: Task, sequence: nat)
      modifies this`cursors
      ensures cursors == Raised(old(cursors), task, sequence)
    {
      if task !in cursors {
        cursors := cursors[task := sequence];
      } else if cursors[task] < sequence {
        cursors := cursors[task := sequence];
      }
    }

    /** Appends behind every stored command; a known identity is refused. */
    method EnqueueCommand(command: TextCommand) returns (stored: bool)
      modifies this`outbox
      ensures stored <==> forall i | 0 <= i < |old(outbox)| :: old(outbox)[i].id != command.id
      ensures outbox == if stored then old(outbox) + [command] else old(outbox)
      ensures UniqueIds(old(outbox)) ==> UniqueIds(outbox)
    {
      for i := 0 to |outbox|
        invariant forall j | 0 <= j < i :: outbox[j].id != command.id
      {
        if outbox[i].id == command.id {
          return false;
        }
      }
      outbox := outbox + [command];
      return true;
    }

    method RemoveCommand(id: string)
      modifies this`outbox
      ensures outbox == Without(old(outbox), id)
      ensures forall command :: command in outbox <==> command in old(outbox) && command.id != id
    {
      var kept: seq<TextCommand> := [];
      var rest := outbox;
      while rest != []
        invariant kept + Without(rest, id) == Without(outbox, id)
        invariant outbox == old(outbox)
      {
        if rest[0].id != id {
          kept := kept + [rest[0]];
        }
        rest := rest[1..];
      }
      forall command ensures command in kept <==> command in outbox && command.id != id {
        WithoutKeeps(outbox, id, command);
      }
      outbox := kept;
    }
  }
}
