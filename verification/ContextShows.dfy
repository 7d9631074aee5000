/** What a context shows of the journal: every message, in order and as it was written,
    up to annotations and receipts. */
module ContextShows {
  import opened Base
  import opened PendingTools
  import opened LoopTypes
  import opened ContextInput

  // What the journal says ---------------------------------------------------

  /** The message events of a journal, in order. */
  function Written(events: seq<Event>): (written: seq<Event>)
    ensures forall i | 0 <= i < |written| :: written[i].kind.MessageEvent?
  {
    if events == [] then []
    else
      var last := events[|events| - 1];
      Written(events[..|events| - 1]) + (if last.kind.MessageEvent? then [last] else [])
  }

  predicate IsAnnotation(event: Event, operation: OperationId, text: string) {
    event.operation == operation && event.kind == AnnotationEvent(text)
  }

  /** The journal annotates the operation with this text. */
  predicate Annotates(events: seq<Event>, operation: OperationId, text: string) {
    exists j :: 0 <= j < |events| && IsAnnotation(events[j], operation, text)
  }

  predicate IsReceipt(event: Event, operation: OperationId) {
    event.operation == operation && event.kind.ReceiptedEvent?
  }

  /** The journal asks for the operation to be shown as its receipt. */
  predicate Receipts(events: seq<Event>, operation: OperationId) {
    exists j :: 0 <= j < |events| && IsReceipt(events[j], operation)
  }

  lemma AnnotatesSnoc(events: seq<Event>, operation: OperationId, text: string)
    requires events != []
    ensures Annotates(events, operation, text) <==>
      Annotates(events[..|events| - 1], operation, text) || IsAnnotation(events[|events| - 1], operation, text)
  {
    var before := events[..|events| - 1];
    if j :| 0 <= j < |before| && IsAnnotation(before[j], operation, text) {
      assert IsAnnotation(events[j], operation, text);
    }
    if j :| 0 <= j < |events| && IsAnnotation(events[j], operation, text) && j < |before| {
      assert IsAnnotation(before[j], operation, text);
    }
  }

  lemma ReceiptsSnoc(events: seq<Event>, operation: OperationId)
    requires events != []
    ensures Receipts(events, operation) <==>
      Receipts(events[..|events| - 1], operation) || IsReceipt(events[|events| - 1], operation)
  {
    var before := events[..|events| - 1];
    if j :| 0 <= j < |before| && IsReceipt(before[j], operation) {
      assert IsReceipt(events[j], operation);
    }
    if j :| 0 <= j < |events| && IsReceipt(events[j], operation) && j < |before| {
      assert IsReceipt(before[j], operation);
    }
  }

  // The scan reads it -------------------------------------------------------

  function EntryOf(event: Event): Entry
    requires event.kind.MessageEvent?
  {
    Entry(Origin(event.operation, event.sequence), event.kind.message)
  }

  lemma {:induction false} ScanReadsMessages(events: seq<Event>)
    requires ScanAll(events).Ok?
    ensures var entries, written := ScanAll(events).value.entries, Written(events);
      |entries| == |written| && forall i | 0 <= i < |written| :: entries[i] == EntryOf(written[i])
  {
    if events != [] {
      ScanReadsMessages(events[..|events| - 1]);
    }
  }

  lemma {:induction false} ScanReadsAnnotations(events: seq<Event>, operation: OperationId, text: string)
    requires ScanAll(events).Ok?
    ensures var annotations := ScanAll(events).value.annotations;
      Annotates(events, operation, text) <==> operation in annotations && annotations[operation] == text
  {
    if events != [] {
      AnnotatesSnoc(events, operation, text);
      ScanReadsAnnotations(events[..|events| - 1], operation, text);
    }
  }

  lemma {:induction false} ScanReadsReceipts(events: seq<Event>, operation: OperationId)
    requires ScanAll(events).Ok?
    ensures Receipts(events, operation) <==> operation in ScanAll(events).value.receipted
  {
    if events != [] {
      ReceiptsSnoc(events, operation);
      ScanReadsReceipts(events[..|events| - 1], operation);
    }
  }

  // What is shown -----------------------------------------------------------

  /** A message as it was written; a user message of an annotated operation has the
      operation's text as one more block behind its own. */
  ghost predicate ShownAs(events: seq<Event>, event: Event, shown: Message)
    requires event.kind.MessageEvent?
  {
    var message := event.kind.message;
    if message.User? then
      && (forall text | Annotates(events, event.operation, text) :: shown == User(message.blocks + [Plain(text)]))
      && ((forall text :: !Annotates(events, event.operation, text)) ==> shown == message)
    else shown == message
  }

  ghost predicate Keeps(events: seq<Event>, event: Event, entry: Entry)
    requires event.kind.MessageEvent?
  {
    entry.origin == Origin(event.operation, event.sequence) && ShownAs(events, event, entry.message)
  }

  lemma AnnotateKeeps(events: seq<Event>, event: Event)
    requires ScanAll(events).Ok? && event.kind.MessageEvent?
    ensures Keeps(events, event, Annotate(EntryOf(event), ScanAll(events).value.annotations))
  {
    forall text ensures Annotates(events, event.operation, text) <==>
      var annotations := ScanAll(events).value.annotations;
      event.operation in annotations && annotations[event.operation] == text
    {
      ScanReadsAnnotations(events, event.operation, text);
    }
    var annotations := ScanAll(events).value.annotations;
    if event.operation in annotations {
      assert Annotates(events, event.operation, annotations[event.operation]);
    }
  }

  // Receipts stand for whole operations -------------------------------------

  /** Where the entries that are shown as one begin: `cuts[i]` for the `i`th shown, with
      the end of all entries last. */
  ghost predicate Cuts(cuts: seq<nat>, shown: nat, length: nat) {
    && |cuts| == shown + 1 && cuts[0] == 0 && cuts[shown] == length
    && (forall i: nat | i < shown :: Ascends(cuts, i, length))
  }

  predicate Ascends(cuts: seq<nat>, i: nat, length: nat)
    requires i + 1 < |cuts|
  {
    cuts[i] < cuts[i + 1] <= length
  }

  lemma CutFirst(cuts: seq<nat>, shown: nat, length: nat, n: nat)
    requires Cuts(cuts, shown, length) && n > 0
    ensures Cuts([0] + Shift(cuts, n), shown + 1, n + length)
  {
    var all, total := [0] + Shift(cuts, n), n + length;
    forall i: nat | i <= shown ensures Ascends(all, i, total) {
      if i > 0 {
        assert Ascends(cuts, i - 1, length);
      }
    }
  }

  /** Entries `from..to` are all that the operation wrote there, and `entry` is its receipt. */
  ghost predicate IsReceiptOf(entries: seq<Entry>, from: nat, to: nat, receipt: Receipt, entry: Entry) {
    && from < to <= |entries|
    && (forall k | from <= k < to :: entries[k].origin.operation == entries[from].origin.operation)
    && (to < |entries| ==> entries[to].origin.operation != entries[from].origin.operation)
    && entry.origin == entries[to - 1].origin
    && receipt(Messages(entries[from..to])).Ok? && entry.message == User([Plain(receipt(Messages(entries[from..to])).value)])
  }

  ghost predicate StandsFor(
    entries: seq<Entry>, receipted: set<OperationId>, active: OperationId, receipt: Receipt, from: nat, to: nat, entry: Entry)
  {
    && from < |entries|
    && var operation := entries[from].origin.operation;
    if operation != active && operation in receipted then IsReceiptOf(entries, from, to, receipt, entry)
    else to == from + 1 && entry == entries[from]
  }

  lemma StandsLater(
    entries: seq<Entry>, n: nat, receipted: set<OperationId>, active: OperationId, receipt: Receipt, from: nat, to: nat, entry: Entry)
    requires n <= |entries| && StandsFor(entries[n..], receipted, active, receipt, from, to, entry)
    ensures StandsFor(entries, receipted, active, receipt, n + from, n + to, entry)
  {
    var rest := entries[n..];
    assert forall k | 0 <= k < |rest| :: rest[k] == entries[n + k];
    if to <= |rest| && from <= to {
      assert rest[from..to] == entries[n + from..n + to];
    }
  }

  function Shift(cuts: seq<nat>, n: nat): (shifted: seq<nat>)
    ensures |shifted| == |cuts| && forall i | 0 <= i < |cuts| :: shifted[i] == n + cuts[i]
  {
    seq(|cuts|, i requires 0 <= i < |cuts| => n + cuts[i])
  }

  ghost predicate StandsAt(
    entries: seq<Entry>, receipted: set<OperationId>, active: OperationId, receipt: Receipt, shown: seq<Entry>, cuts: seq<nat>,
    i: nat)
    requires i < |shown| && i + 1 < |cuts|
  {
    StandsFor(entries, receipted, active, receipt, cuts[i], cuts[i + 1], shown[i])
  }

  ghost predicate Grouped(
    entries: seq<Entry>, receipted: set<OperationId>, active: OperationId, receipt: Receipt, shown: seq<Entry>, cuts: seq<nat>)
  {
    && Cuts(cuts, |shown|, |entries|)
    && (forall i: nat | i < |shown| :: StandsAt(entries, receipted, active, receipt, shown, cuts, i))
  }

  lemma StandsNext(
    entries: seq<Entry>, receipted: set<OperationId>, active: OperationId, receipt: Receipt, n: nat,
    rest: seq<Entry>, cuts: seq<nat>, shown: seq<Entry>, all: seq<nat>, i: nat)
    requires n <= |entries| && 0 < i <= |rest| && i < |cuts| && i < |shown| && i + 1 < |all|
    requires StandsAt(entries[n..], receipted, active, receipt, rest, cuts, i - 1)
    requires all[i] == n + cuts[i - 1] && all[i + 1] == n + cuts[i] && shown[i] == rest[i - 1]
    ensures StandsAt(entries, receipted, active, receipt, shown, all, i)
  {
    StandsLater(entries, n, receipted, active, receipt, cuts[i - 1], cuts[i], rest[i - 1]);
  }

  lemma GroupFirst(
    entries: seq<Entry>, receipted: set<OperationId>, active: OperationId, receipt: Receipt, n: nat, first: Entry,
    rest: seq<Entry>, cuts: seq<nat>)
    requires 0 < n <= |entries| && StandsFor(entries, receipted, active, receipt, 0, n, first)
    requires Grouped(entries[n..], receipted, active, receipt, rest, cuts)
    ensures Grouped(entries, receipted, active, receipt, [first] + rest, [0] + Shift(cuts, n))
  {
    CutFirst(cuts, |rest|, |entries| - n, n);
    var all, shown := [0] + Shift(cuts, n), [first] + rest;
    assert StandsAt(entries, receipted, active, receipt, shown, all, 0);
    forall i: nat | 0 < i < |shown| ensures StandsAt(entries, receipted, active, receipt, shown, all, i) {
      StandsNext(entries, receipted, active, receipt, n, rest, cuts, shown, all, i);
    }
  }

  lemma {:induction false} ReplaceGroups(
    entries: seq<Entry>, receipted: set<OperationId>, active: OperationId, receipt: Receipt, checkpoint: Option<Activated>)
    returns (cuts: seq<nat>)
    requires Replace(entries, receipted, active, receipt, checkpoint).Ok?
    ensures Grouped(entries, receipted, active, receipt, Replace(entries, receipted, active, receipt, checkpoint).value.0, cuts)
    decreases |entries|
  {
    if entries == [] {
      cuts := [0];
    } else {
      var operation := entries[0].origin.operation;
      if operation != active && operation in receipted {
        var n := RunLength(entries, operation);
        var held := entries[..n];
        var first := ReceiptOf(held, receipt).value;
        var moved := MovePast(held, checkpoint);
        var rest := ReplaceGroups(entries[n..], receipted, active, receipt, moved);
        assert entries[0..n] == held;
        GroupFirst(entries, receipted, active, receipt, n, first,
          Replace(entries[n..], receipted, active, receipt, moved).value.0, rest);
        cuts := [0] + Shift(rest, n);
      } else {
        var rest := ReplaceGroups(entries[1..], receipted, active, receipt, checkpoint);
        GroupFirst(entries, receipted, active, receipt, 1, entries[0],
          Replace(entries[1..], receipted, active, receipt, checkpoint).value.0, rest);
        cuts := [0] + Shift(rest, 1);
      }
    }
  }

  // Summaries ---------------------------------------------------------------

  /** The latest summary the journal activated, if any. */
  function LatestSummary(events: seq<Event>): Option<Activated> {
    if events == [] then None
    else
      match events[|events| - 1].kind
      case CheckpointEvent(covered, summary) => Some(Activated(covered, summary))
      case _ => LatestSummary(events[..|events| - 1])
  }

  lemma {:induction false} ScanReadsSummary(events: seq<Event>)
    requires ScanAll(events).Ok?
    ensures ScanAll(events).value.checkpoint == LatestSummary(events)
  {
    if events != [] {
      ScanReadsSummary(events[..|events| - 1]);
    }
  }

  lemma {:induction false} ReplaceNothing(
    entries: seq<Entry>, active: OperationId, receipt: Receipt, checkpoint: Option<Activated>)
    ensures Replace(entries, {}, active, receipt, checkpoint) == Ok((entries, checkpoint))
  {
    if entries != [] {
      ReplaceNothing(entries[1..], active, receipt, checkpoint);
      assert [entries[0]] + entries[1..] == entries;
    }
  }

  // The whole context -------------------------------------------------------

  function MessagesOf(written: seq<Event>): (messages: seq<Message>)
    requires forall i | 0 <= i < |written| :: written[i].kind.MessageEvent?
    ensures |messages| == |written| && forall i | 0 <= i < |written| :: messages[i] == written[i].kind.message
  {
    seq(|written|, i requires 0 <= i < |written| => written[i].kind.message)
  }

  /** Messages `from..to` of the journal are shown as `entry`: a finished operation that
      asked for it as one user message with its receipt, at its last message, and
      everything else one for one. */
  ghost predicate Shows(events: seq<Event>, active: OperationId, receipt: Receipt, from: nat, to: nat, entry: Entry) {
    var written := Written(events);
    && from < to <= |written|
    && var operation := written[from].operation;
    if operation != active && Receipts(events, operation) then
      && (forall k | from <= k < to :: written[k].operation == operation)
      && (to < |written| ==> written[to].operation != operation)
      && entry.origin == Origin(operation, written[to - 1].sequence)
      && var text := receipt(MessagesOf(written[from..to]));
      text.Ok? && entry.message == User([Plain(text.value)])
    else to == from + 1 && Keeps(events, written[from], entry)
  }

  lemma ReceiptShows(
    events: seq<Event>, active: OperationId, receipt: Receipt, from: nat, to: nat, entry: Entry)
    requires ScanAll(events).Ok? && ScanAll(events).value.receipted !! ScanAll(events).value.annotations.Keys
    requires StandsFor(ScanAll(events).value.entries, ScanAll(events).value.receipted, active, receipt, from, to, entry)
    requires var entries := ScanAll(events).value.entries;
      var operation := entries[from].origin.operation; operation != active && operation in ScanAll(events).value.receipted
    ensures Shows(events, active, receipt, from, to, Annotate(entry, ScanAll(events).value.annotations))
  {
    var scan, written := ScanAll(events).value, Written(events);
    ScanReadsMessages(events);
    ScanReadsReceipts(events, written[from].operation);
    assert Messages(scan.entries[from..to]) == MessagesOf(written[from..to]);
  }

  lemma EntryShows(events: seq<Event>, active: OperationId, receipt: Receipt, from: nat, to: nat, entry: Entry)
    requires ScanAll(events).Ok? && ScanAll(events).value.receipted !! ScanAll(events).value.annotations.Keys
    requires StandsFor(ScanAll(events).value.entries, ScanAll(events).value.receipted, active, receipt, from, to, entry)
    ensures Shows(events, active, receipt, from, to, Annotate(entry, ScanAll(events).value.annotations))
  {
    var scan, written := ScanAll(events).value, Written(events);
    ScanReadsMessages(events);
    ScanReadsReceipts(events, written[from].operation);
    if written[from].operation != active && written[from].operation in scan.receipted {
      ReceiptShows(events, active, receipt, from, to, entry);
    } else {
      AnnotateKeeps(events, written[from]);
    }
  }

  /** A context that builds shows every message of the journal once and in order. */
  lemma ContextShowsJournal(
    active: OperationId, events: seq<Event>, receipt: Receipt, systemPrompt: string, tools: seq<ToolSpec>,
    compactionRequired: bool) returns (cuts: seq<nat>)
    requires ContextOf(active, events, receipt, systemPrompt, tools, compactionRequired).Ok?
    ensures var context := ContextOf(active, events, receipt, systemPrompt, tools, compactionRequired).value;
      && context.active == active && context.systemPrompt == systemPrompt && context.tools == tools
      && context.compactionRequired == compactionRequired
      && Cuts(cuts, |context.entries|, |Written(events)|)
      && (forall i | 0 <= i < |context.entries| :: Shows(events, active, receipt, cuts[i], cuts[i + 1], context.entries[i]))
  {
    var scan := ScanAll(events).value;
    var shown := Replace(scan.entries, scan.receipted, active, receipt, scan.checkpoint).value.0;
    cuts := ReplaceGroups(scan.entries, scan.receipted, active, receipt, scan.checkpoint);
    ScanReadsMessages(events);
    var entries := AnnotateAll(shown, scan.annotations);
    forall i | 0 <= i < |entries| ensures Shows(events, active, receipt, cuts[i], cuts[i + 1], entries[i]) {
      assert StandsAt(scan.entries, scan.receipted, active, receipt, shown, cuts, i);
      EntryShows(events, active, receipt, cuts[i], cuts[i + 1], shown[i]);
    }
  }

  lemma NothingReceipted(events: seq<Event>)
    requires ScanAll(events).Ok? && forall operation :: !Receipts(events, operation)
    ensures ScanAll(events).value.receipted == {}
  {
    forall operation ensures operation !in ScanAll(events).value.receipted {
      ScanReadsReceipts(events, operation);
    }
  }

  lemma {:induction false} CutsAreOnes(cuts: seq<nat>, shown: nat, length: nat, i: nat)
    requires Cuts(cuts, shown, length) && i <= shown
    requires forall k | 0 <= k < shown :: cuts[k + 1] == cuts[k] + 1
    ensures cuts[i] == i
  {
    if i > 0 {
      CutsAreOnes(cuts, shown, length, i - 1);
    }
  }

  lemma SummaryIsLatest(
    active: OperationId, events: seq<Event>, receipt: Receipt, systemPrompt: string, tools: seq<ToolSpec>,
    compactionRequired: bool)
    requires ContextOf(active, events, receipt, systemPrompt, tools, compactionRequired).Ok?
    requires forall operation :: !Receipts(events, operation)
    ensures ContextOf(active, events, receipt, systemPrompt, tools, compactionRequired).value.checkpoint == LatestSummary(events)
  {
    NothingReceipted(events);
    ScanReadsSummary(events);
    ReplaceNothing(ScanAll(events).value.entries, active, receipt, ScanAll(events).value.checkpoint);
  }

  /** Without receipts, one for one, and behind the latest summary. */
  lemma ContextShowsEveryMessage(
    active: OperationId, events: seq<Event>, receipt: Receipt, systemPrompt: string, tools: seq<ToolSpec>,
    compactionRequired: bool)
    requires ContextOf(active, events, receipt, systemPrompt, tools, compactionRequired).Ok?
    requires forall operation :: !Receipts(events, operation)
    ensures var context := ContextOf(active, events, receipt, systemPrompt, tools, compactionRequired).value;
      && context.checkpoint == LatestSummary(events) && |context.entries| == |Written(events)|
      && (forall i | 0 <= i < |context.entries| :: Keeps(events, Written(events)[i], context.entries[i]))
  {
    SummaryIsLatest(active, events, receipt, systemPrompt, tools, compactionRequired);
    var context := ContextOf(active, events, receipt, systemPrompt, tools, compactionRequired).value;
    var cuts := ContextShowsJournal(active, events, receipt, systemPrompt, tools, compactionRequired);
    var n := |context.entries|;
    forall k | 0 <= k < n ensures cuts[k + 1] == cuts[k] + 1 && Keeps(events, Written(events)[cuts[k]], context.entries[k]) {
      assert Shows(events, active, receipt, cuts[k], cuts[k + 1], context.entries[k]);
    }
    forall i | 0 <= i <= n ensures cuts[i] == i {
      CutsAreOnes(cuts, n, |Written(events)|, i);
    }
  }
}
