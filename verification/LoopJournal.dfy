/** The journal every run writes can be read back: context preparation never
    fails on it, requests only grow, and summaries keep advancing, so that no
    operation runs forever. */
module LoopJournal {
  import opened Base
  import opened PendingTools
  import opened CodeMode
  import opened LoopTypes
  import opened ContextInput
  import opened AgentLoop
  import opened LoopSession
  import opened LoopBounds

  // A readable journal ------------------------------------------------------

  ghost predicate ScanFits(scan: Scan, length: nat, started: OperationId) {
    && (forall q | q in scan.sequences :: q < length)
    && (forall i | 0 <= i < |scan.entries| ::
          scan.entries[i].origin.sequence in scan.sequences && scan.entries[i].origin.operation < started)
    && scan.receipted !! scan.annotations.Keys
    && (forall operation | operation in scan.annotations ::
          operation < started && UserMessages(scan.entries, operation) == 1)
    && (forall operation | operation in scan.receipted :: operation < started)
  }

  /** The journal scans without error, and only operations below `started` left a
      trace in it. */
  ghost predicate Readable(events: seq<Event>, started: OperationId) {
    ScanAll(events).Ok? && ScanFits(ScanAll(events).value, |events|, started)
  }

  /** The first operation that has written nothing yet. */
  function Started(s: Session): OperationId {
    if s.active.Running? && s.active.checkpoint.None? then s.active.operation else s.nextOperation
  }

  lemma {:induction false} UserMessagesAppend(entries: seq<Entry>, entry: Entry, operation: OperationId)
    ensures UserMessages(entries + [entry], operation) == UserMessages(entries, operation)
      + (if entry.origin.operation == operation && entry.message.User? then 1 else 0)
  {
    if entries == [] {
      assert entries + [entry] == [entry];
      assert UserMessages([entry][1..], operation) == 0;
    } else {
      assert (entries + [entry])[1..] == entries[1..] + [entry];
      UserMessagesAppend(entries[1..], entry, operation);
    }
  }

  lemma {:induction false} NoUserMessages(entries: seq<Entry>, operation: OperationId)
    requires forall i | 0 <= i < |entries| :: entries[i].origin.operation != operation
    ensures UserMessages(entries, operation) == 0
  {
    if entries != [] {
      NoUserMessages(entries[1..], operation);
    }
  }

  lemma ScanOne(events: seq<Event>, operation: OperationId, kind: EventKind)
    requires ScanAll(events).Ok?
    ensures ScanAll(Append(events, operation, [kind]))
         == Absorb(ScanAll(events).value, Event(operation, |events|, kind))
  {
    var appended := Append(events, operation, [kind]);
    assert appended[..|appended| - 1] == events;
    assert appended[|appended| - 1] == Event(operation, |events|, kind);
  }

  lemma AppendSplits(events: seq<Event>, operation: OperationId, kinds: seq<EventKind>)
    requires kinds != []
    ensures Append(events, operation, kinds) == Append(Append(events, operation, [kinds[0]]), operation, kinds[1..])
  {
    var one := Append(events, operation, [kinds[0]]);
    var all, split := Append(events, operation, kinds), Append(one, operation, kinds[1..]);
    forall i | 0 <= i < |all| ensures all[i] == split[i] {
      if i < |events| {
        assert all[i] == all[..|events|][i] == events[i];
        assert split[i] == split[..|one|][i] == one[i] == one[..|events|][i];
      } else if i == |events| {
        assert all[|events| + 0] == Event(operation, |events|, kinds[0]);
        assert split[i] == split[..|one|][i] == one[i];
        assert one[|events| + 0] == Event(operation, |events|, kinds[0]);
      } else {
        var k := i - |events|;
        assert all[|events| + k] == Event(operation, |events| + k, kinds[k]);
        assert split[|one| + (k - 1)] == Event(operation, |one| + (k - 1), kinds[1..][k - 1]);
      }
    }
  }

  /** What calm events leave alone. */
  ghost predicate OnlyEntriesGrew(a: Scan, b: Scan) {
    && a.entries <= b.entries && a.sequences <= b.sequences
    && a.annotations == b.annotations && a.receipted == b.receipted && a.checkpoint == b.checkpoint
  }

  /** Reading on leaves earlier entries and the annotations of earlier operations as they were. */
  ghost predicate Kept(a: Scan, b: Scan, from: OperationId) {
    && a.entries <= b.entries
    && (forall operation | operation < from ::
          && (operation in a.annotations <==> operation in b.annotations)
          && (operation in a.annotations ==> a.annotations[operation] == b.annotations[operation]))
  }

  lemma {:induction false} CalmKeepsReadable(
    events: seq<Event>, started: OperationId, operation: OperationId, kinds: seq<EventKind>)
    requires Readable(events, started) && operation < started && Calm(kinds)
    ensures Readable(Append(events, operation, kinds), started)
    ensures OnlyEntriesGrew(ScanAll(events).value, ScanAll(Append(events, operation, kinds)).value)
    decreases |kinds|
  {
    if kinds == [] {
      assert Append(events, operation, kinds) == events;
    } else {
      var one := Append(events, operation, [kinds[0]]);
      var scan := ScanAll(events).value;
      ScanOne(events, operation, kinds[0]);
      if kinds[0].MessageEvent? {
        var entry := Entry(Origin(operation, |events|), kinds[0].message);
        forall other | other in scan.annotations ensures UserMessages(scan.entries + [entry], other) == 1 {
          UserMessagesAppend(scan.entries, entry, other);
        }
      }
      AppendSplits(events, operation, kinds);
      CalmKeepsReadable(one, started, operation, kinds[1..]);
    }
  }

  lemma UserKeepsReadable(events: seq<Event>, operation: OperationId, blocks: seq<Block>)
    requires Readable(events, operation)
    ensures var appended := Append(events, operation, [MessageEvent(User(blocks))]);
      && Readable(appended, operation + 1)
      && Kept(ScanAll(events).value, ScanAll(appended).value, operation)
      && UserMessages(ScanAll(appended).value.entries, operation) == 1
      && operation !in ScanAll(appended).value.annotations && operation !in ScanAll(appended).value.receipted
  {
    var scan := ScanAll(events).value;
    ScanOne(events, operation, MessageEvent(User(blocks)));
    var entry := Entry(Origin(operation, |events|), User(blocks));
    forall other | other in scan.annotations ensures UserMessages(scan.entries + [entry], other) == 1 {
      UserMessagesAppend(scan.entries, entry, other);
    }
    NoUserMessages(scan.entries, operation);
    UserMessagesAppend(scan.entries, entry, operation);
  }

  lemma ObservationKeepsReadable(events: seq<Event>, operation: OperationId, kind: EventKind)
    requires Readable(events, operation + 1) && (kind.AnnotationEvent? || kind.ReceiptedEvent?)
    requires var scan := ScanAll(events).value;
      && operation !in scan.annotations && operation !in scan.receipted
      && UserMessages(scan.entries, operation) == 1
    ensures Readable(Append(events, operation, [kind]), operation + 1)
    ensures Kept(ScanAll(events).value, ScanAll(Append(events, operation, [kind])).value, operation)
  {
    ScanOne(events, operation, kind);
  }

  /** The prompt event opens a new operation, with its annotation if it has one. */
  lemma PromptKeepsReadable(events: seq<Event>, operation: OperationId, blocks: seq<Block>, annotation: seq<EventKind>)
    requires Readable(events, operation)
    requires |annotation| <= 1 && (|annotation| == 1 ==> annotation[0].AnnotationEvent? || annotation[0].ReceiptedEvent?)
    ensures var appended := Append(events, operation, [MessageEvent(User(blocks))] + annotation);
      Readable(appended, operation + 1) && Kept(ScanAll(events).value, ScanAll(appended).value, operation)
  {
    var user := MessageEvent(User(blocks));
    UserKeepsReadable(events, operation, blocks);
    var one := Append(events, operation, [user]);
    AppendSplits(events, operation, [user] + annotation);
    assert ([user] + annotation)[1..] == annotation;
    if annotation == [] {
      assert Append(one, operation, annotation) == one;
    } else {
      assert annotation == [annotation[0]];
      ObservationKeepsReadable(one, operation, annotation[0]);
    }
  }

  // Summaries advance -------------------------------------------------------

  lemma {:induction false} ReplaceFacts(
    entries: seq<Entry>, receipted: set<OperationId>, active: OperationId, receipt: Receipt, checkpoint: Option<Activated>)
    requires Replace(entries, receipted, active, receipt, checkpoint).Ok?
    ensures var shown := Replace(entries, receipted, active, receipt, checkpoint).value;
      && (forall i | 0 <= i < |shown.0| :: exists j :: 0 <= j < |entries| && shown.0[i].origin == entries[j].origin)
      && shown.1.Some? == checkpoint.Some?
      && (checkpoint.Some? ==> checkpoint.value.coveredThrough <= shown.1.value.coveredThrough)
    decreases |entries|
  {
    if entries != [] {
      var operation := entries[0].origin.operation;
      var shown := Replace(entries, receipted, active, receipt, checkpoint).value;
      var n := if operation != active && operation in receipted then RunLength(entries, operation) else 1;
      var moved := if operation != active && operation in receipted then MovePast(entries[..n], checkpoint) else checkpoint;
      ReplaceFacts(entries[n..], receipted, active, receipt, moved);
      var rest := Replace(entries[n..], receipted, active, receipt, moved).value;
      assert shown.0[1..] == rest.0;
      forall i | 0 <= i < |shown.0| ensures exists j :: 0 <= j < |entries| && shown.0[i].origin == entries[j].origin {
        if i == 0 {
          assert shown.0[0].origin == entries[n - 1].origin;
        } else {
          assert shown.0[i] == rest.0[i - 1];
          var j :| 0 <= j < |entries[n..]| && rest.0[i - 1].origin == entries[n..][j].origin;
          assert shown.0[i].origin == entries[n + j].origin;
        }
      }
    }
  }

  /** A valid plan ends at a journalled message past the active summary. */
  lemma PlanAdvances(
    cfg: Config, operation: OperationId, events: seq<Event>, started: OperationId, plan: CompactionPlan,
    cut: (Context, nat) -> bool)
    requires Readable(events, started)
    requires BuildInput(cfg, operation, events, false).Ok?
    requires PlanValid(BuildInput(cfg, operation, events, false).value, plan, cut)
    ensures var scan := ScanAll(events).value;
      && plan.coveredThrough in scan.sequences
      && (scan.checkpoint.Some? ==> scan.checkpoint.value.coveredThrough < plan.coveredThrough)
  {
    var scan := ScanAll(events).value;
    ReplaceFacts(scan.entries, scan.receipted, operation, cfg.strategy.receipt, scan.checkpoint);
    var context := BuildInput(cfg, operation, events, false).value;
    var i :| 0 <= i < |context.entries| && context.entries[i].origin.sequence == plan.coveredThrough;
    var shown := Replace(scan.entries, scan.receipted, operation, cfg.strategy.receipt, scan.checkpoint).value;
    assert context.entries[i].origin == shown.0[i].origin;
  }

  /** The messages the active summary does not cover yet. */
  function Uncovered(scan: Scan): (sequences: set<nat>) {
    set q | q in scan.sequences && (scan.checkpoint.Some? ==> scan.checkpoint.value.coveredThrough < q)
  }

  lemma SmallerSet(a: set<nat>, b: set<nat>, extra: nat)
    requires a <= b && extra in b && extra !in a
    ensures |a| < |b|
  {
    assert a <= b - {extra};
    SubsetIsSmaller(a, b - {extra});
  }

  /** Activating a summary leaves the journal readable and fewer messages uncovered. */
  lemma CheckpointKeepsReadable(events: seq<Event>, started: OperationId, operation: OperationId, covered: nat, summary: string)
    requires Readable(events, started) && !Blank(summary)
    requires var scan := ScanAll(events).value;
      && covered in scan.sequences
      && (scan.checkpoint.Some? ==> scan.checkpoint.value.coveredThrough < covered)
    ensures var kind := CheckpointEvent(covered, summary);
      && Readable(Append(events, operation, [kind]), started)
      && OnlyEntriesGrew(ScanAll(events).value.(checkpoint := None),
                         ScanAll(Append(events, operation, [kind])).value.(checkpoint := None))
      && |Uncovered(ScanAll(Append(events, operation, [kind])).value)| < |Uncovered(ScanAll(events).value)|
  {
    var kind := CheckpointEvent(covered, summary);
    ScanOne(events, operation, kind);
    var before, after := ScanAll(events).value, ScanAll(Append(events, operation, [kind])).value;
    SmallerSet(Uncovered(after), Uncovered(before), covered);
  }

  // Every run keeps the journal readable ------------------------------------

  /** What a committed journal keeps from the one before it. */
  ghost predicate Extends(before: seq<Event>, after: seq<Event>, from: OperationId, started: OperationId) {
    ScanAll(before).Ok? && Readable(after, started) && Kept(ScanAll(before).value, ScanAll(after).value, from)
  }

  lemma SummaryCommits(cfg: Config, s: Session, phase: Phase, d: Decision)
    requires s.active.Running? && s.active.checkpoint == Some(phase) && phase.AwaitingCompaction?
    requires Resumable(cfg, s.active.operation, s.events, phase, s.active.outstanding)
    requires Readable(s.events, s.nextOperation) && Moves(cfg, Some(phase), d) && d.AppendAndContinue?
    ensures var after := Append(s.events, s.active.operation, d.events);
      && Extends(s.events, after, s.nextOperation, s.nextOperation)
      && |Uncovered(ScanAll(after).value)| < |Uncovered(ScanAll(s.events).value)|
  {
    var summary := d.events[0].summary;
    PlanAdvances(cfg, s.active.operation, s.events, s.nextOperation, phase.plan, cfg.strategy.safeCut);
    CheckpointKeepsReadable(s.events, s.nextOperation, s.active.operation, phase.plan.coveredThrough, summary);
    assert d.events == [CheckpointEvent(phase.plan.coveredThrough, summary)];
  }

  lemma ExplicitSummaryCommits(cfg: Config, s: Session, phase: Phase, d: Decision)
    requires s.active.Running? && s.active.checkpoint == Some(phase) && phase.AwaitingExplicitCompaction?
    requires Resumable(cfg, s.active.operation, s.events, phase, s.active.outstanding)
    requires s.active.operation < s.nextOperation
    requires Readable(s.events, s.nextOperation) && Moves(cfg, Some(phase), d) && Ends(d) && d.events != []
    ensures Extends(s.events, Append(s.events, s.active.operation, d.events), s.nextOperation, s.nextOperation)
  {
    var kind := d.events[0];
    PlanAdvances(cfg, s.active.operation, s.events, s.nextOperation, phase.plan, cfg.strategy.idleCut);
    CheckpointKeepsReadable(s.events, s.nextOperation, s.active.operation, phase.plan.coveredThrough, kind.summary);
    AppendSplits(s.events, s.active.operation, d.events);
    assert kind == CheckpointEvent(phase.plan.coveredThrough, kind.summary);
    CalmKeepsReadable(Append(s.events, s.active.operation, [kind]), s.nextOperation, s.active.operation, d.events[1..]);
  }

  /** Apart from prompts and summaries, the loop only appends replies and results. */
  lemma MoveIsCalm(cfg: Config, phase: Phase, d: Decision)
    requires Moves(cfg, Some(phase), d) && !d.InvokeEffects?
    requires !(phase.AwaitingCompaction? && d.AppendAndContinue?)
    requires !(phase.AwaitingExplicitCompaction? && d.events != [])
    ensures Calm(d.events)
  {
  }

  lemma CommitKeepsReadable(cfg: Config, s: Session, phase: Phase, d: Decision)
    requires s.active.Running? && s.active.checkpoint == Some(phase) && s.active.operation < s.nextOperation
    requires Resumable(cfg, s.active.operation, s.events, phase, s.active.outstanding)
    requires Readable(s.events, s.nextOperation) && Moves(cfg, Some(phase), d)
    ensures Extends(s.events, Commit(s, d).events, s.nextOperation, s.nextOperation)
    ensures phase.AwaitingCompaction? && d.AppendAndContinue? ==>
      |Uncovered(ScanAll(Commit(s, d).events).value)| < |Uncovered(ScanAll(s.events).value)|
  {
    if !d.InvokeEffects? {
      if phase.AwaitingCompaction? && d.AppendAndContinue? {
        SummaryCommits(cfg, s, phase, d);
      } else if phase.AwaitingExplicitCompaction? && d.events != [] {
        ExplicitSummaryCommits(cfg, s, phase, d);
      } else {
        MoveIsCalm(cfg, phase, d);
        CalmKeepsReadable(s.events, s.nextOperation, s.active.operation, d.events);
      }
    }
  }

  lemma FirstCommitKeepsReadable(cfg: Config, s: Session, d: Decision)
    requires s.active.Running? && s.active.checkpoint.None? && s.active.operation + 1 == s.nextOperation
    requires Readable(s.events, s.active.operation) && Moves(cfg, None, d)
    requires Decide(cfg, InputFor(s, None)) == Ok(d)
    ensures Extends(s.events, Commit(s, d).events, s.active.operation, s.nextOperation)
  {
    ReadableLater(s.events, s.active.operation);
    if d.AppendAndContinue? {
      PromptCommits(cfg, s, d);
    } else if !d.InvokeEffects? {
      CalmKeepsReadable(s.events, s.nextOperation, s.active.operation, d.events);
    }
  }

  lemma ReadableLater(events: seq<Event>, started: OperationId)
    requires Readable(events, started)
    ensures Readable(events, started + 1)
  {
  }

  lemma PromptCommits(cfg: Config, s: Session, d: Decision)
    requires s.active.Running? && s.active.checkpoint.None? && Readable(s.events, s.active.operation)
    requires Decide(cfg, InputFor(s, None)) == Ok(d) && d.AppendAndContinue?
    ensures Readable(Append(s.events, s.active.operation, d.events), s.active.operation + 1)
    ensures Kept(ScanAll(s.events).value, ScanAll(Append(s.events, s.active.operation, d.events)).value, s.active.operation)
  {
    var Prompt(blocks, observation) := s.active.command;
    PromptKeepsReadable(s.events, s.active.operation, blocks, d.events[1..]);
    assert d.events == [MessageEvent(User(blocks))] + d.events[1..];
  }

  lemma StepKeepsReadable(cfg: Config, s: Session, input: Input)
    requires Inv(cfg, s) && Readable(s.events, Started(s)) && Step(cfg, s, input).Some?
    ensures var s' := Step(cfg, s, input).value; Extends(s.events, s'.events, Started(s), Started(s'))
    ensures var s' := Step(cfg, s, input).value;
      Awaits(s, s') ==> |Uncovered(ScanAll(s'.events).value)| < |Uncovered(ScanAll(s.events).value)|
  {
    if s.active.Running? {
      var d, kinds := StepCases(cfg, s, input);
      if d.Some? {
        match s.active.checkpoint
        case None => FirstCommitKeepsReadable(cfg, s, d.value);
        case Some(phase) => CommitKeepsReadable(cfg, s, phase, d.value);
      } else {
        if s.active.checkpoint.None? {
          ReadableLater(s.events, Started(s));
        }
        CalmKeepsReadable(s.events, s.nextOperation, s.active.operation, kinds);
      }
    }
  }

  /** A summary of the running conversation was just activated. */
  predicate Awaits(before: Session, after: Session) {
    && before.active.Running? && before.active.checkpoint.Some? && before.active.checkpoint.value.AwaitingCompaction?
    && after.active.Running? && after.active.checkpoint.Some? && after.active.checkpoint.value.NeedModel?
  }

  lemma {:induction false} RunKeepsReadable(configs: Configs, inputs: seq<Input>)
    requires Run(configs, inputs).Some?
    ensures Readable(Run(configs, inputs).value.events, Started(Run(configs, inputs).value))
  {
    if inputs != [] {
      var before, last := inputs[..|inputs| - 1], inputs[|inputs| - 1];
      RunKeepsReadable(configs, before);
      RunKeepsInv(configs, before);
      var s := Run(configs, before).value;
      ConfigIsKept(configs, s, last);
      StepKeepsReadable(ConfigFor(configs, s), s, last);
    }
  }

  // Context preparation never fails on it -----------------------------------

  lemma {:induction false} UserMessagesConcat(a: seq<Entry>, b: seq<Entry>, operation: OperationId)
    ensures UserMessages(a + b, operation) == UserMessages(a, operation) + UserMessages(b, operation)
  {
    if a == [] {
      assert a + b == b;
    } else {
      assert (a + b)[1..] == a[1..] + b;
      UserMessagesConcat(a[1..], b, operation);
    }
  }

  /** Receipts replace whole operations, so they move no annotated prompt. */
  lemma {:induction false} ReplaceKeepsPrompts(
    entries: seq<Entry>, receipted: set<OperationId>, active: OperationId, receipt: Receipt,
    checkpoint: Option<Activated>, operation: OperationId)
    requires forall messages :: receipt(messages).Ok?
    requires operation !in receipted
    ensures var shown := Replace(entries, receipted, active, receipt, checkpoint);
      shown.Ok? && UserMessages(shown.value.0, operation) == UserMessages(entries, operation)
    decreases |entries|
  {
    if entries != [] {
      var first := entries[0].origin.operation;
      if first != active && first in receipted {
        var n := RunLength(entries, first);
        assert entries == entries[..n] + entries[n..];
        UserMessagesConcat(entries[..n], entries[n..], operation);
        NoUserMessages(entries[..n], operation);
        ReplaceKeepsPrompts(entries[n..], receipted, active, receipt, MovePast(entries[..n], checkpoint), operation);
        UserMessagesConcat([ReceiptOf(entries[..n], receipt).value],
          Replace(entries[n..], receipted, active, receipt, MovePast(entries[..n], checkpoint)).value.0, operation);
      } else {
        ReplaceKeepsPrompts(entries[1..], receipted, active, receipt, checkpoint, operation);
        var rest := Replace(entries[1..], receipted, active, receipt, checkpoint).value.0;
        assert ([entries[0]] + rest)[1..] == rest;
      }
    }
  }

  /** Once receipts can be rendered, every journal a run writes prepares a context for
      every operation, also under a configuration that did not write it. */
  lemma ContextAlwaysBuilds(configs: Configs, inputs: seq<Input>, cfg: Config, operation: OperationId, compactionRequired: bool)
    requires forall messages :: cfg.strategy.receipt(messages).Ok?
    requires Run(configs, inputs).Some?
    ensures BuildInput(cfg, operation, Run(configs, inputs).value.events, compactionRequired).Ok?
  {
    RunKeepsReadable(configs, inputs);
    ReadableBuilds(cfg, Run(configs, inputs).value.events, Started(Run(configs, inputs).value), operation, compactionRequired);
  }

  lemma ReadableBuilds(cfg: Config, events: seq<Event>, started: OperationId, operation: OperationId, compactionRequired: bool)
    requires forall messages :: cfg.strategy.receipt(messages).Ok?
    requires Readable(events, started)
    ensures BuildInput(cfg, operation, events, compactionRequired).Ok?
  {
    var scan := ScanAll(events).value;
    ReplaceKeepsPrompts(scan.entries, scan.receipted, operation, cfg.strategy.receipt, scan.checkpoint, started);
    forall other | other in scan.annotations
      ensures UserMessages(Replace(scan.entries, scan.receipted, operation, cfg.strategy.receipt, scan.checkpoint).value.0, other) == 1
    {
      ReplaceKeepsPrompts(scan.entries, scan.receipted, operation, cfg.strategy.receipt, scan.checkpoint, other);
    }
  }

  // Every operation ends ----------------------------------------------------

  /** How far an operation is from its end: turns left, then the stage of the turn,
      then tool work or messages still to summarise, then attempts left. */
  datatype Rank = Rank(turns: nat, stage: nat, work: nat, request: nat, attempts: nat)

  ghost predicate Below(a: Rank, b: Rank) {
    || a.turns < b.turns
    || (a.turns == b.turns &&
        (|| a.stage < b.stage
         || (a.stage == b.stage &&
             (|| a.work < b.work
              || (a.work == b.work && (a.request < b.request || (a.request == b.request && a.attempts < b.attempts)))))))
  }

  ghost function PhaseRank(cfg: Config, phase: Phase, uncovered: nat): Rank {
    var left := if TurnsOf(phase) <= TurnCap(cfg) then TurnCap(cfg) - TurnsOf(phase) else 0;
    match phase
    case NeedModel(_) => Rank(left, 0, uncovered, 1, 0)
    case AwaitingModel(_) => Rank(left, 2, 0, 0, 0)
    case AwaitingCompaction(_, _, maxAttempts, attempt) =>
      Rank(left, 0, uncovered, 0, if attempt <= maxAttempts then maxAttempts - attempt else 0)
    case AwaitingExplicitCompaction(_, maxAttempts, attempt) =>
      Rank(left, 0, 0, 0, if attempt <= maxAttempts then maxAttempts - attempt else 0)
    case Terminal => Rank(left, 0, 0, 0, 0)
    case _ => Rank(left, 1, Local(cfg, phase), 0, 0)
  }

  ghost function RankOf(cfg: Config, s: Session): Rank
    requires s.active.Running? && ScanAll(s.events).Ok?
  {
    match s.active.checkpoint
    case None => Rank(TurnCap(cfg) + 1, 0, 0, 0, 0)
    case Some(phase) => PhaseRank(cfg, phase, |Uncovered(ScanAll(s.events).value)|)
  }

  /** Tool work shrinks along every edge inside a turn. */
  lemma MoveLowersRank(cfg: Config, phase: Phase, d: Decision, before: nat, after: nat)
    requires Moves(cfg, Some(phase), d) && !Ends(d) && CheckpointRuns(phase)
    requires TurnsOf(d.phase) <= TurnCap(cfg)
    requires d.InvokeEffects? ==> before == after
    requires phase.AwaitingCompaction? && d.AppendAndContinue? ==> after < before
    ensures Below(PhaseRank(cfg, d.phase, after), PhaseRank(cfg, phase, before))
  {
  }

  /** A decision that leaves the operation running leaves it at the decision's phase. */
  lemma RunningDecision(cfg: Config, s: Session, d: Decision)
    requires s.active.Running? && Moves(cfg, s.active.checkpoint, d) && Commit(s, d).active.Running?
    ensures !Ends(d) && Commit(s, d).active.checkpoint == Some(d.phase)
    ensures d.InvokeEffects? ==> Commit(s, d).events == s.events
    ensures s.active.checkpoint.None? ==> TurnsOf(d.phase) == 0
  {
  }

  lemma CommitLowersRank(cfg: Config, s: Session, d: Decision)
    requires s.active.Running? && Inv(cfg, s) && Moves(cfg, s.active.checkpoint, d)
    requires Commit(s, d).active.Running? && Inv(cfg, Commit(s, d))
    requires ScanAll(s.events).Ok? && ScanAll(Commit(s, d).events).Ok?
    requires Awaits(s, Commit(s, d)) ==>
      |Uncovered(ScanAll(Commit(s, d).events).value)| < |Uncovered(ScanAll(s.events).value)|
    ensures Below(RankOf(cfg, Commit(s, d)), RankOf(cfg, s))
  {
    RunningDecision(cfg, s, d);
    if s.active.checkpoint.Some? {
      var before, after := |Uncovered(ScanAll(s.events).value)|, |Uncovered(ScanAll(Commit(s, d).events).value)|;
      MoveLowersRank(cfg, s.active.checkpoint.value, d, before, after);
    }
  }

  lemma StepLowersRank(cfg: Config, s: Session, input: Input)
    requires Inv(cfg, s) && Readable(s.events, Started(s)) && s.active.Running?
    requires Step(cfg, s, input).Some? && Step(cfg, s, input).value.active.Running?
    ensures ScanAll(Step(cfg, s, input).value.events).Ok?
    ensures Below(RankOf(cfg, Step(cfg, s, input).value), RankOf(cfg, s))
  {
    StepKeepsInv(cfg, s, input);
    StepKeepsReadable(cfg, s, input);
    var d, kinds := StepCases(cfg, s, input);
    CommitLowersRank(cfg, s, d.value);
  }

  /** Step `n` of a schedule commits and leaves its operation running. */
  ghost predicate GoesOn(cfg: Config, run: nat -> Session, inputs: nat -> Input, n: nat) {
    Step(cfg, run(n), inputs(n)) == Some(run(n + 1)) && run(n + 1).active.Running?
  }

  /** No operation runs forever, whatever the model, the tools, the strategy and
      the host answer: along any infinite schedule, some step ends the operation
      or commits nothing. */
  lemma {:induction false} EveryOperationEnds(cfg: Config, run: nat -> Session, inputs: nat -> Input, i: nat)
    requires Inv(cfg, run(i)) && Readable(run(i).events, Started(run(i))) && run(i).active.Running?
    ensures exists n | n >= i :: !GoesOn(cfg, run, inputs, n)
    decreases RankOf(cfg, run(i)).turns, RankOf(cfg, run(i)).stage, RankOf(cfg, run(i)).work,
              RankOf(cfg, run(i)).request, RankOf(cfg, run(i)).attempts
  {
    if GoesOn(cfg, run, inputs, i) {
      StepKeepsInv(cfg, run(i), inputs(i));
      StepKeepsReadable(cfg, run(i), inputs(i));
      StepLowersRank(cfg, run(i), inputs(i));
      EveryOperationEnds(cfg, run, inputs, i + 1);
    }
  }

  /** In particular every operation a session reaches ends, whatever follows. */
  lemma EveryReachedOperationEnds(
    configs: Configs, inputs: seq<Input>, run: nat -> Session, following: nat -> Input)
    requires Run(configs, inputs) == Some(run(0)) && run(0).active.Running?
    ensures exists n | n >= 0 :: !GoesOn(ConfigFor(configs, run(0)), run, following, n)
  {
    RunKeepsInv(configs, inputs);
    RunKeepsReadable(configs, inputs);
    ConfigOfSame(configs, run(0));
    EveryOperationEnds(ConfigFor(configs, run(0)), run, following, 0);
  }
}
