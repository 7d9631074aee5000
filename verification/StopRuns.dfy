/** Stops over every run of the coordinator: permanent answers, and who may mark a
    delivery. */
module StopRuns {
  import opened Base
  import opened ControlStore
  import opened ExecutionEvents
  import opened AgentMessages
  import opened AgentReplies
  import opened CommandStop
  import opened ControlRuns
  import opened AgentThreads

  // Permanent answers -------------------------------------------------------

  /** An answer, once given, stays; only a delivery is still to come. */
  predicate Later(earlier: Option<StopAdmission>, later: Option<StopAdmission>) {
    match earlier
    case None => true
    case Some(AlreadyEnded) => later == Some(AlreadyEnded)
    case Some(Recorded(delivered)) => later.Some? && later.value.Recorded? && (delivered ==> later.value.delivered)
  }

  lemma DeleteKeepsAnswer(t: Tables, principal: Principal, task: Id, command: Id)
    requires DeleteTask(t, principal, task).Ok? && command in DeleteTask(t, principal, task).value.commands
    ensures AnswerOf(DeleteTask(t, principal, task).value, command) == AnswerOf(t, command)
  {
    var t' := DeleteTask(t, principal, task).value;
    if t' != t {
      FindKept(t.stops, t'.commands, command);
    }
  }

  lemma OthersKeepStops(naming: Naming, t: Tables, input: Input)
    requires Step(naming, t, input).Ok? && !input.Delete? && !input.StopCommand? && !input.AckStop?
    ensures Step(naming, t, input).value.stops == t.stops
  {
  }

  lemma StopKeepsAnswer(t: Tables, task: Id, stopped: Id, command: Id)
    requires AdmitStop(t, task, stopped).Ok?
    ensures Later(AnswerOf(t, command), AnswerOf(AdmitStop(t, task, stopped).value.0, command))
  {
    FindAppended(t.stops, Stop(stopped, false), command);
  }

  lemma AckKeepsAnswer(t: Tables, node: Node, task: Id, marked: Id, command: Id)
    requires AcknowledgeStop(t, node, task, marked).Ok?
    ensures Later(AnswerOf(t, command), AnswerOf(AcknowledgeStop(t, node, task, marked).value, command))
  {
    FindMarked(t.stops, marked, command);
  }

  lemma StepKeepsAnswer(naming: Naming, t: Tables, input: Input, command: Id)
    requires Rows(t) && command in t.commands && Step(naming, t, input).Ok?
    requires command in Step(naming, t, input).value.commands
    ensures Later(AnswerOf(t, command), AnswerOf(Step(naming, t, input).value, command))
  {
    match input
    case Delete(principal, task) => DeleteKeepsAnswer(t, principal, task, command);
    case StopCommand(task, stopped) => StopKeepsAnswer(t, task, stopped, command);
    case AckStop(node, task, marked) => AckKeepsAnswer(t, node, task, marked, command);
    case _ =>
      OthersKeepStops(naming, t, input);
      SettledStays(naming, t, input, command);
  }

  lemma NextKeepsAnswer(naming: Naming, inputs: seq<Input>, input: Input, command: Id)
    requires command in Run(naming, inputs).commands && command in Next(naming, Run(naming, inputs), input).commands
    ensures Later(AnswerOf(Run(naming, inputs), command), AnswerOf(Next(naming, Run(naming, inputs), input), command))
  {
    RunKeepsRows(naming, inputs);
    if Step(naming, Run(naming, inputs), input).Ok? {
      StepKeepsAnswer(naming, Run(naming, inputs), input, command);
    }
  }

  lemma {:induction false} RunKeepsAnswer(naming: Naming, before: seq<Input>, after: seq<Input>, command: Id)
    requires Stays(naming, before, after, command)
    ensures Later(AnswerOf(Run(naming, before), command), AnswerOf(Run(naming, before + after), command))
    decreases |after|
  {
    if after == [] {
      assert before + after == before;
    } else {
      var most, last := after[..|after| - 1], after[|after| - 1];
      StaysBefore(naming, before, after, command);
      RunKeepsAnswer(naming, before, most, command);
      assert before + after == (before + most) + [last];
      RunSnoc(naming, before + most, last);
      NextKeepsAnswer(naming, before + most, last, command);
    }
  }

  /** The first answer to a stop is permanent: as long as the command's row exists,
      every later stop of it is accepted, gives the same answer, writes nothing, and
      never takes back a delivery, over all retries, acknowledgements and settlements. */
  lemma FirstAnswerIsPermanent(naming: Naming, before: seq<Input>, task: Id, command: Id, after: seq<Input>)
    requires AdmitStop(Run(naming, before), task, command).Ok?
    requires Stays(naming, before + [StopCommand(task, command)], after, command)
    ensures AdmitStop(Run(naming, before + [StopCommand(task, command)] + after), task, command).Ok?
    ensures var first := AdmitStop(Run(naming, before), task, command).value.1;
      var t := Run(naming, before + [StopCommand(task, command)] + after);
      var (t', later) := AdmitStop(t, task, command).value;
      && t' == t && first.AlreadyEnded? == later.AlreadyEnded?
      && (first.Recorded? && first.delivered ==> later.delivered)
  {
    var stopped := before + [StopCommand(task, command)];
    RunSnoc(naming, before, StopCommand(task, command));
    FindAppended(Run(naming, before).stops, Stop(command, false), command);
    assert AnswerOf(Run(naming, stopped), command) == Some(AdmitStop(Run(naming, before), task, command).value.1);
    RunKeepsAnswer(naming, stopped, after, command);
    RunKeepsRow(naming, stopped, after, command);
  }

  /** A delivered mark comes only from the node of the command's own task. */
  lemma DeliveredByOwnNode(naming: Naming, t: Tables, input: Input, command: Id)
    requires Rows(t) && command in t.commands && Step(naming, t, input).Ok?
    requires AnswerOf(t, command) != Some(Recorded(true))
    requires AnswerOf(Step(naming, t, input).value, command) == Some(Recorded(true))
    ensures input.AckStop? && input.command == command && input.node == t.tasks[t.commands[command].task].node
  {
    match input
    case Delete(principal, task) =>
      if command in Step(naming, t, input).value.commands {
        DeleteKeepsAnswer(t, principal, task, command);
      } else {
        FindKept(t.stops, Step(naming, t, input).value.commands, command);
      }
    case StopCommand(_, stopped) => FindAppended(t.stops, Stop(stopped, false), command);
    case AckStop(node, task, marked) => AckMarks(t, node, task, marked, command);
    case _ => OthersKeepStops(naming, t, input);
  }

  lemma AckMarks(t: Tables, node: Node, task: Id, marked: Id, command: Id)
    requires AcknowledgeStop(t, node, task, marked).Ok?
    requires AnswerOf(t, command) != Some(Recorded(true))
    requires AnswerOf(AcknowledgeStop(t, node, task, marked).value, command) == Some(Recorded(true))
    ensures marked == command && command in t.commands && t.commands[command].task == task
    ensures task in t.tasks && t.tasks[task].node == node
  {
    FindMarked(t.stops, marked, command);
  }
}
