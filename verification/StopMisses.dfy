/** Runs from the start in which a recorded stop never gets to its node's connection. */
module StopMisses {
  import opened Base
  import opened ControlStore
  import opened AgentMessages
  import opened AgentReplies
  import opened CommandStop
  import opened ControlRuns
  import opened AgentChains
  import opened StopDelivery

  // A task that moves to another node ---------------------------------------

  const LATE: Node := "b"

  /** A stop is begun for the task's first node. */
  function Begins(): seq<Action> {
    [Transaction(Open(0, Task("", "", ""))), Transaction(Submit(0, "", "", 0, "", false, true)), BeginStop(0, 0)]
  }

  /** The command ends, the task is deleted, and both are made anew on another node. */
  function Rebinds(): seq<Action> {
    [Transaction(PublishBatch(0, 0, DONE, "")), Transaction(Delete("", 0)), Transaction(Open(0, Task("", LATE, ""))),
     Transaction(Submit(0, "", "", 0, "", false, true))]
  }

  /** That node connects; then the stop takes the lock and looks up its route. */
  function Connects(): seq<Action> {
    [BeginActivation(LATE), Proceed(1), Proceed(1), Proceed(1), Proceed(0), Proceed(0)]
  }

  const PLAIN := Command("", "", "", "", false, None)

  lemma BeginsRuns(naming: Naming)
    ensures RunHub(naming, Begins()).Some?
    ensures var h := RunHub(naming, Begins()).value;
      && h == EMPTY_HUB.(tables := h.tables, processes := [StopLoaded(0, 0, "")])
      && h.tables.tasks == map[0 := Task("", "", "")] && h.tables.commands == map[0 := CommandRow(0, PLAIN)]
      && h.tables.journal == [] && h.tables.streams == map[] && h.tables.stops == []
  {
    var actions := Begins();
    assert actions[..0] == [] && actions[..1] == [] + [actions[0]] && actions[..2] == actions[..1] + [actions[1]];
    assert actions == actions[..2] + [actions[2]];
    HubSnoc(naming, [], actions[0]);
    HubSnoc(naming, actions[..1], actions[1]);
    HubSnoc(naming, actions[..2], actions[2]);
  }

  /** The tables hold one task, bound to `node`, with one command and no stops. */
  ghost predicate OneTask(t: Tables, node: Node) {
    Bound(t, node) && t.stops == []
  }

  ghost predicate Bound(t: Tables, node: Node) {
    t.tasks == map[0 := Task("", node, "")] && t.commands == map[0 := CommandRow(0, PLAIN)]
  }

  ghost predicate NoTask(t: Tables) {
    t.tasks == map[] && t.commands == map[] && t.stops == [] && t.streams == map[]
  }

  lemma EndsTask(naming: Naming, t: Tables, node: Node)
    requires Bound(t, node) && t.journal == [] && t.streams == map[]
    ensures var t' := Next(naming, t, PublishBatch(0, 0, DONE, "")); Bound(t', node) && t'.Settled(0) && t'.stops == t.stops
  {
    DoneIsAdmitted(naming, t, 0);
  }

  lemma {:induction false} NoStopsFor(stops: seq<Stop>)
    ensures StopsFor(stops, map[]) == []
  {
    if stops != [] {
      NoStopsFor(stops[1..]);
    }
  }

  lemma DeletesTask(naming: Naming, t: Tables, node: Node)
    requires Bound(t, node) && t.Settled(0)
    ensures NoTask(Next(naming, t, Delete("", 0)))
  {
    assert !InFlight(t, 0);
    var t' := DeleteTask(t, "", 0).value;
    assert t'.commands == map[] && t'.tasks == map[];
    NoStopsFor(t.stops);
  }

  lemma MakesTask(naming: Naming, t: Tables)
    requires NoTask(t)
    ensures var t' := Next(naming, Next(naming, t, Open(0, Task("", LATE, ""))), Submit(0, "", "", 0, "", false, true));
      OneTask(t', LATE) && !t'.Settled(0)
  {
  }

  lemma RebindsRuns(naming: Naming)
    ensures RunHub(naming, Begins() + Rebinds()).Some?
    ensures var h := RunHub(naming, Begins() + Rebinds()).value;
      && h == EMPTY_HUB.(tables := h.tables, processes := [StopLoaded(0, 0, "")])
      && OneTask(h.tables, LATE) && !h.tables.Settled(0)
  {
    BeginsRuns(naming);
    var a0, r := Begins(), Rebinds();
    var a1 := a0 + [r[0]];
    var a2 := a1 + [r[1]];
    var a3 := a2 + [r[2]];
    assert a0 + r == a3 + [r[3]];
    var t0 := RunHub(naming, a0).value.tables;
    HubSnoc(naming, a0, r[0]);
    EndsTask(naming, t0, "");
    HubSnoc(naming, a1, r[1]);
    DeletesTask(naming, RunHub(naming, a1).value.tables, "");
    HubSnoc(naming, a2, r[2]);
    HubSnoc(naming, a3, r[3]);
    MakesTask(naming, RunHub(naming, a2).value.tables);
  }

  /** The new node is connected and the stop has no route to it. */
  ghost predicate Rebound(h: Hub) {
    && OneTask(h.tables, LATE) && !h.tables.Settled(0)
    && h.nodes == map[LATE := 0] && h.closed == {} && h.sent == {}
    && h.processes == [StopRouted(0, 0, "", None), Finished]
  }

  lemma ConnectionActivates(naming: Naming, h: Hub)
    requires h == EMPTY_HUB.(tables := h.tables, processes := [StopLoaded(0, 0, "")]) && h.tables.stops == []
    ensures Continue(Act(naming, h, BeginActivation(LATE)).value, 1).Some?
    ensures var h1 := Continue(Act(naming, h, BeginActivation(LATE)).value, 1).value;
      && Continue(h1, 1).Some? && |Continue(h1, 1).value.processes| == 2
      && var h3 := Continue(Continue(h1, 1).value, 1);
      && h3.Some? && h3.value == h.(nodes := map[LATE := 0], processes := [StopLoaded(0, 0, ""), Finished], nextConnection := 1)
  {
  }

  lemma ConnectsRuns(naming: Naming)
    ensures RunHub(naming, Begins() + Rebinds() + Connects()).Some?
    ensures Rebound(RunHub(naming, Begins() + Rebinds() + Connects()).value)
  {
    RebindsRuns(naming);
    var a0, c := Begins() + Rebinds(), Connects();
    var h := RunHub(naming, a0).value;
    var a1 := a0 + [c[0]];
    var a2 := a1 + [c[1]];
    var a3 := a2 + [c[2]];
    var a4 := a3 + [c[3]];
    var a5 := a4 + [c[4]];
    assert a0 + c == a5 + [c[5]];
    ConnectionActivates(naming, h);
    HubSnoc(naming, a0, c[0]);
    HubSnoc(naming, a1, c[1]);
    HubSnoc(naming, a2, c[2]);
    HubSnoc(naming, a3, c[3]);
    HubSnoc(naming, a4, c[4]);
    HubSnoc(naming, a5, c[5]);
    assert "b" != "" by { assert |"b"| == 1; }
  }

  /** The stop is recorded for a node that is connected, and never handed to it: a
      run from the start that the exact condition excludes. */
  lemma ReboundStopIsMissed(naming: Naming)
    ensures var actions := Begins() + Rebinds() + Connects() + [Proceed(0)];
      && RunHub(naming, actions).Some?
      && var h := RunHub(naming, actions).value;
      && LATE in h.nodes && Undelivered(h.tables, LATE, 0) && !Reaches(h, h.nodes[LATE], Notice(0, 0))
      && h.lock.None? && (forall process | process in h.processes :: process.Finished?)
  {
    var actions := Begins() + Rebinds() + Connects();
    ConnectsRuns(naming);
    HubSnoc(naming, actions, Proceed(0));
    var h := RunHub(naming, actions).value;
    assert Misroutes(h, Proceed(0));
    MisroutedIsMissed(h, 0);
  }

  // An identity that is used again ------------------------------------------

  /** A node connects and gets a stop of a command. */
  function FirstStops(): seq<Action> {
    [BeginActivation(LATE), Proceed(0), Proceed(0), Proceed(0),
     Transaction(Open(0, Task("", LATE, ""))), Transaction(Submit(0, "", "", 0, "", false, true)), BeginStop(0, 0)]
  }

  /** The first stop is recorded and sent; the command ends and its task is deleted. */
  function Sends(): seq<Action> {
    [Proceed(1), Proceed(1), Proceed(1), Proceed(1), Transaction(PublishBatch(0, 0, DONE, "")), Transaction(Delete("", 0))]
  }

  /** A second stop begins while the task is another node's for a moment. */
  function BeginsAgain(): seq<Action> {
    [Transaction(Open(0, Task("", "", ""))), BeginStop(0, 0), Transaction(Delete("", 0)),
     Transaction(Open(0, Task("", LATE, ""))), Transaction(Submit(0, "", "", 0, "", false, true)), Proceed(2), Proceed(2)]
  }

  lemma Activates(naming: Naming)
    ensures var h1 := Act(naming, EMPTY_HUB, BeginActivation(LATE));
      && h1.Some? && |h1.value.processes| == 1
      && var h2 := Continue(h1.value, 0);
      && h2.Some? && |h2.value.processes| == 1
      && var h3 := Continue(h2.value, 0);
      && h3.Some? && |h3.value.processes| == 1
      && var h4 := Continue(h3.value, 0);
      && h4.Some? && Hosts(h4.value, [Finished], {}) && h4.value.tables == NO_TABLES
  {
    var h1 := Act(naming, EMPTY_HUB, BeginActivation(LATE)).value;
    assert h1.processes == [ActivateWaiting(LATE, 0)];
    var h2 := Continue(h1, 0).value;
    assert h2.processes == [ActivateLocked(LATE, 0)];
    var h3 := Continue(h2, 0).value;
    assert h3.processes == [Activating(LATE, 0, [], 0)] && h3.nodes == map[];
    var h4 := Continue(h3, 0).value;
    assert h4.processes == [Finished] && h4.nodes == map[LATE := 0];
  }

  lemma Connected(naming: Naming)
    ensures RunHub(naming, FirstStops()[..4]).Some? && Hosts(RunHub(naming, FirstStops()[..4]).value, [Finished], {})
    ensures RunHub(naming, FirstStops()[..4]).value.tables == NO_TABLES
  {
    var f := FirstStops();
    assert f[..0] == [];
    assert f[..1] == f[..0] + [f[0]] && f[..2] == f[..1] + [f[1]] && f[..3] == f[..2] + [f[2]] && f[..4] == f[..3] + [f[3]];
    Activates(naming);
    HubSnoc(naming, f[..0], f[0]);
    HubSnoc(naming, f[..1], f[1]);
    HubSnoc(naming, f[..2], f[2]);
    HubSnoc(naming, f[..3], f[3]);
  }

  /** The node is connected; `processes` are under way. */
  ghost predicate Hosts(h: Hub, processes: seq<Process>, sent: set<(Connection, Notice)>) {
    h == EMPTY_HUB.(tables := h.tables, nodes := map[LATE := 0], processes := processes, sent := sent, nextConnection := 1)
  }

  lemma FirstStopsRuns(naming: Naming)
    ensures RunHub(naming, FirstStops()).Some?
    ensures var h := RunHub(naming, FirstStops()).value;
      && Hosts(h, [Finished, StopLoaded(0, 0, LATE)], {}) && OneTask(h.tables, LATE)
      && h.tables.journal == [] && h.tables.streams == map[]
  {
    Connected(naming);
    var f := FirstStops();
    assert f[..5] == f[..4] + [f[4]] && f[..6] == f[..5] + [f[5]] && f == f[..6] + [f[6]];
    HubSnoc(naming, f[..4], f[4]);
    HubSnoc(naming, f[..5], f[5]);
    HubSnoc(naming, f[..6], f[6]);
  }

  lemma StopIsSent(h: Hub)
    requires Hosts(h, [Finished, StopLoaded(0, 0, LATE)], {}) && OneTask(h.tables, LATE) && h.tables.streams == map[]
    ensures var h1 := Continue(h, 1);
      && h1.Some? && Hosts(h1.value.(lock := None), [Finished, StopLocked(0, 0, LATE)], {})
      && var h2 := Continue(h1.value, 1);
      && h2.Some? && |h2.value.processes| == 2
      && var h3 := Continue(h2.value, 1);
      && h3.Some? && Hosts(h3.value, [Finished, StopRecorded(Notice(0, 0), 0)], {})
      && var h4 := Continue(h3.value, 1);
      && h4.Some? && Hosts(h4.value, [Finished, Finished], {(0, Notice(0, 0))})
      && h4.value.tables == h.tables.(stops := [Stop(0, false)])
  {
  }

  lemma SendsRuns(naming: Naming)
    ensures RunHub(naming, FirstStops() + Sends()).Some?
    ensures var h := RunHub(naming, FirstStops() + Sends()).value;
      Hosts(h, [Finished, Finished], {(0, Notice(0, 0))}) && NoTask(h.tables)
  {
    FirstStopsRuns(naming);
    var a0, r := FirstStops(), Sends();
    StopIsSent(RunHub(naming, a0).value);
    var a1 := a0 + [r[0]];
    var a2 := a1 + [r[1]];
    var a3 := a2 + [r[2]];
    var a4 := a3 + [r[3]];
    var a5 := a4 + [r[4]];
    assert a0 + r == a5 + [r[5]];
    HubSnoc(naming, a0, r[0]);
    HubSnoc(naming, a1, r[1]);
    HubSnoc(naming, a2, r[2]);
    HubSnoc(naming, a3, r[3]);
    HubSnoc(naming, a4, r[4]);
    EndsTask(naming, RunHub(naming, a4).value.tables, LATE);
    HubSnoc(naming, a5, r[5]);
    DeletesTask(naming, RunHub(naming, a5).value.tables, LATE);
  }

  lemma PassingTask(naming: Naming, t: Tables)
    requires NoTask(t)
    ensures var t' := Next(naming, t, Open(0, Task("", "", "")));
      t'.tasks == map[0 := Task("", "", "")] && NoTask(Next(naming, t', Delete("", 0)))
  {
    var t' := Next(naming, t, Open(0, Task("", "", "")));
    assert !InFlight(t', 0);
    var t'' := DeleteTask(t', "", 0).value;
    assert t''.tasks == map[] && t''.commands == map[] && t''.streams == map[];
  }

  lemma BeginsAgainRuns(naming: Naming)
    ensures RunHub(naming, FirstStops() + Sends() + BeginsAgain()).Some?
    ensures var h := RunHub(naming, FirstStops() + Sends() + BeginsAgain()).value;
      && Hosts(h.(lock := None), [Finished, Finished, StopRouted(0, 0, "", None)], {(0, Notice(0, 0))})
      && OneTask(h.tables, LATE) && !h.tables.Settled(0)
  {
    SendsRuns(naming);
    var a0, r := FirstStops() + Sends(), BeginsAgain();
    var a1 := a0 + [r[0]];
    var a2 := a1 + [r[1]];
    var a3 := a2 + [r[2]];
    var a4 := a3 + [r[3]];
    var a5 := a4 + [r[4]];
    var a6 := a5 + [r[5]];
    assert a0 + r == a6 + [r[6]];
    PassingTask(naming, RunHub(naming, a0).value.tables);
    HubSnoc(naming, a0, r[0]);
    HubSnoc(naming, a1, r[1]);
    HubSnoc(naming, a2, r[2]);
    HubSnoc(naming, a3, r[3]);
    HubSnoc(naming, a4, r[4]);
    MakesTask(naming, RunHub(naming, a3).value.tables);
    HubSnoc(naming, a5, r[5]);
    HubSnoc(naming, a6, r[6]);
    assert "b" != "" by { assert |"b"| == 1; }
  }

  /** The node got a stop of an earlier command under this identity; the stop of the new
      one is recorded and never handed to it. */
  lemma ReusedStopIsMissed(naming: Naming)
    ensures var actions := FirstStops() + Sends() + BeginsAgain() + [Proceed(2)];
      && RunHub(naming, actions).Some?
      && var h := RunHub(naming, actions).value;
      && LATE in h.nodes && Undelivered(h.tables, LATE, 0) && !Reaches(h, h.nodes[LATE], Notice(0, 0))
      && h.lock.None? && (forall process | process in h.processes :: process.Finished?)
  {
    var actions := FirstStops() + Sends() + BeginsAgain();
    BeginsAgainRuns(naming);
    HubSnoc(naming, actions, Proceed(2));
    var h := RunHub(naming, actions).value;
    assert Misroutes(h, Proceed(2));
    MisroutedIsMissed(h, 2);
  }
}
