/** Agents message each other: threads, depth and admission. */
module AgentMessages {
  import opened Base
  import opened ControlStore

  const MAX_CHAIN_DEPTH: nat := 100
  const MAX_MESSAGE_BYTES: nat := 65536
  const AGENT_SURFACE := "agent"

  // Derived identities ------------------------------------------------------

  /** Identities derived from domain-separated text. */
  datatype Naming = Naming(threads: string, derived: string -> Id, replyTo: Id -> Id)

  ghost predicate Injective(naming: Naming) {
    && (forall a, b :: naming.derived(a) == naming.derived(b) ==> a == b)
    && (forall a, b :: naming.replyTo(a) == naming.replyTo(b) ==> a == b)
  }

  datatype Agent = Agent(node: Node, target: Target)

  function ThreadKey(naming: Naming, principal: Principal, from: Agent, to: Agent): string {
    naming.threads + ":" + principal + ":" + from.node + ":" + from.target + ":" + to.node + ":" + to.target
  }

  /** The task in which `to` receives messages from `from`. */
  function ThreadTask(naming: Naming, principal: Principal, from: Agent, to: Agent): Id {
    naming.derived(ThreadKey(naming, principal, from, to))
  }

  lemma Cancel(a: string, x: string, y: string, b: string)
    requires a + x + b == a + y + b
    ensures x == y
  {
    assert |x| == |y|;
    assert x == (a + x + b)[|a|..|a| + |x|];
    assert y == (a + y + b)[|a|..|a| + |y|];
  }

  /** Although targets may contain the separator, one owner's agents that share a
      thread and a destination are the same agent: the destination cancels as a
      suffix and the node ends at the first separator that is left. */
  lemma ThreadHasOneSender(naming: Naming, principal: Principal, a: Agent, b: Agent, to: Agent)
    requires Injective(naming)
    requires ThreadTask(naming, principal, a, to) == ThreadTask(naming, principal, b, to)
    ensures a == b
  {
    var head := naming.threads + ":" + principal + ":";
    var tail := ":" + to.node + ":" + to.target;
    var x, y := a.node + ":" + a.target, b.node + ":" + b.target;
    assert ThreadKey(naming, principal, a, to) == head + x + tail;
    assert ThreadKey(naming, principal, b, to) == head + y + tail;
    Cancel(head, x, y, tail);
    SplitAtColon(a.node, a.target, b.node, b.target);
  }

  /** For different destinations the key alone does not tell threads apart. */
  lemma ThreadKeysCollide(naming: Naming, principal: Principal, p: Node, q: Node, r: Node)
    ensures var from, to := Agent(p, "a"), Agent(q, "b:" + r + ":c");
      var from', to' := Agent(p, "a:" + q + ":b"), Agent(r, "c");
      && ThreadKey(naming, principal, from, to) == ThreadKey(naming, principal, from', to')
      && from != from' && to != to'
  {
    var head := naming.threads + ":" + principal + ":" + p + ":";
    assert ThreadKey(naming, principal, Agent(p, "a"), Agent(q, "b:" + r + ":c"))
        == head + ("a" + ":" + q + ":" + ("b:" + r + ":c"));
    assert ThreadKey(naming, principal, Agent(p, "a:" + q + ":b"), Agent(r, "c"))
        == head + (("a:" + q + ":b") + ":" + r + ":" + "c");
    assert "a" + ":" + q + ":" + ("b:" + r + ":c") == ("a:" + q + ":b") + ":" + r + ":" + "c";
    assert |("b:" + r + ":c")| > 1 && |("a:" + q + ":b")| > 1;
  }

  // Admission ---------------------------------------------------------------

  datatype Message = Message(fromCommand: Id, id: Id, toNode: Node, toTarget: Target, text: string)

  datatype Admission =
    | Admitted(task: Id, fromTask: Id)
    | Existing(task: Id, fromTask: Id, command: Command, pending: bool)

  function DepthOf(command: Command): nat {
    if command.origin.Some? then command.origin.value.depth else 0
  }

  function SaturatingNext(depth: nat): nat {
    if depth >= U32_MAX then U32_MAX else depth + 1
  }

  /** The text limits, and one more than the depth of the command it is sent from. */
  function MessageDepth(source: Command, m: Message): Result<nat, Error> {
    if Blank(m.text) || ByteLen(m.text) > MAX_MESSAGE_BYTES then Err(Invalid)
    else
      var depth := SaturatingNext(DepthOf(source));
      if depth > MAX_CHAIN_DEPTH then Err(Invalid) else Ok(depth)
  }

  /** A node speaks only for the agents it executes. */
  function LoadSource(t: Tables, node: Node, principal: Principal, m: Message): (source: Result<CommandRow, Error>)
    ensures source.Ok? ==>
      && m.fromCommand in t.commands && source.value == t.commands[m.fromCommand]
      && source.value.task in t.tasks
      && t.tasks[source.value.task].node == node && t.tasks[source.value.task].principal == principal
  {
    if m.fromCommand !in t.commands then Err(NotFound)
    else
      var row := t.commands[m.fromCommand];
      if row.task !in t.tasks || t.tasks[row.task].node != node || t.tasks[row.task].principal != principal then Err(NotFound)
      else Ok(row)
  }

  function RequestCommand(principal: Principal, source: CommandRow, from: Target, m: Message, name: string, depth: nat): Command {
    Command(principal, AGENT_SURFACE, m.toTarget, m.text, source.command.quiet,
            Some(Origin(m.fromCommand, from, name, depth, Request)))
  }

  /** Opens the thread, or checks that an earlier opening has the binding needed. */
  function OpenThread(t: Tables, id: Id, task: Task): (bound: Result<Tables, Error>)
    ensures bound.Ok? ==> id in bound.value.tasks && bound.value.tasks[id] == task
    ensures bound.Ok? && id in t.tasks ==> bound.value == t
  {
    if id !in t.tasks then Ok(t.(tasks := t.tasks[id := task]))
    else if t.tasks[id] == task then Ok(t)
    else Err(Conflict)
  }

  /** What every check before the first write establishes. */
  datatype Checked = Checked(principal: Principal, source: CommandRow, from: Target, depth: nat, task: Id)

  function CheckMessage(naming: Naming, t: Tables, node: Node, m: Message): Result<Checked, Error> {
    if node !in t.owners then Err(Role)
    else
      var principal := t.owners[node];
      var source :- LoadSource(t, node, principal, m);
      var depth :- MessageDepth(source.command, m);
      var from := t.tasks[source.task].target;
      if m.toNode !in t.owners || t.owners[m.toNode] != principal then Err(NotFound)
      else if Agent(node, from) == Agent(m.toNode, m.toTarget) then Err(Invalid)
      else
        Ok(Checked(principal, source, from, depth,
                   ThreadTask(naming, principal, Agent(node, from), Agent(m.toNode, m.toTarget))))
  }

  /** `names` are the names the sending node advertises, and `destination` the
      targets of the destination node, or `None` while it is offline. An `Err`
      leaves the tables as they were. */
  function AdmitMessage(
    naming: Naming, t: Tables, node: Node, names: map<Target, string>, destination: Option<set<Target>>, m: Message)
    : Result<(Tables, Admission), Error>
  {
    var c :- CheckMessage(naming, t, node, m);
    if m.id in t.commands then
      var stored := t.commands[m.id];
      var name := if stored.command.origin.Some? then stored.command.origin.value.name else "";
      if stored.command != RequestCommand(c.principal, c.source, c.from, m, name, c.depth) || stored.task != c.task then Err(Conflict)
      else Ok((t, Existing(c.task, c.source.task, stored.command, m.id in t.pending)))
    else if c.from !in names then Err(Invalid)
    else if destination.None? then Err(Offline)
    else if m.toTarget !in destination.value then Err(NotFound)
    else
      var bound :- OpenThread(t, c.task, Task(c.principal, m.toNode, m.toTarget));
      var inserted :- InsertCommand(bound, m.id, c.task, RequestCommand(c.principal, c.source, c.from, m, names[c.from], c.depth));
      Ok((inserted, Admitted(c.task, c.source.task)))
  }
}
