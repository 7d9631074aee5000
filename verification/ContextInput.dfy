/** How the session journal becomes the input of one model request. */
module ContextInput {
  import opened Base
  import opened PendingTools
  import opened LoopTypes

  datatype Origin = Origin(operation: OperationId, sequence: nat)

  datatype Entry = Entry(origin: Origin, message: Message)

  /** The latest activated summary and the last message it covers. */
  datatype Activated = Activated(coveredThrough: nat, summary: string)

  datatype Context = Context(
    active: OperationId, entries: seq<Entry>, checkpoint: Option<Activated>, systemPrompt: string,
    tools: seq<ToolSpec>, compactionRequired: bool)

  /** Renders the receipt of a finished receipted operation. */
  type Receipt = seq<Message> -> Loop<string>

  // Reading the journal -----------------------------------------------------

  datatype Scan = Scan(
    entries: seq<Entry>, sequences: set<nat>, annotations: map<OperationId, string>,
    receipted: set<OperationId>, checkpoint: Option<Activated>)

  const EMPTY_SCAN := Scan([], {}, map[], {}, None)

  function ActivatedCheckpoint(
    covered: nat, summary: string, sequences: set<nat>, current: Option<Activated>): Loop<Activated>
  {
    if Blank(summary) then Err(InvalidJournal)
    else if covered !in sequences then Err(InvalidJournal)
    else if current.Some? && current.value.coveredThrough >= covered then
      Err(InvalidJournal)
    else Ok(Activated(covered, summary))
  }

  function Absorb(scan: Scan, event: Event): Loop<Scan> {
    match event.kind
    case MessageEvent(message) =>
      if event.sequence in scan.sequences then Err(InvalidJournal)
      else Ok(scan.(
              entries := scan.entries + [Entry(Origin(event.operation, event.sequence), message)],
              sequences := scan.sequences + {event.sequence}))
    case ReceiptedEvent =>
      if event.operation in scan.receipted then Err(InvalidJournal)
      else Ok(scan.(receipted := scan.receipted + {event.operation}))
    case AnnotationEvent(text) =>
      if event.operation in scan.annotations then
        Err(InvalidJournal)
      else Ok(scan.(annotations := scan.annotations[event.operation := text]))
    case CheckpointEvent(covered, summary) =>
      var activated :- ActivatedCheckpoint(covered, summary, scan.sequences, scan.checkpoint);
      Ok(scan.(checkpoint := Some(activated)))
    case CompactionResultEvent(_) => Ok(scan)
    case ForeignEvent => Ok(scan)
    case Unsupported => Err(InvalidJournal)
  }

  function ScanAll(events: seq<Event>): Loop<Scan> {
    if events == [] then Ok(EMPTY_SCAN)
    else
      var scan :- ScanAll(events[..|events| - 1]);
      Absorb(scan, events[|events| - 1])
  }

  // Receipts ----------------------------------------------------------------

  function Messages(entries: seq<Entry>): (messages: seq<Message>)
    ensures |messages| == |entries|
    ensures forall i | 0 <= i < |messages| :: messages[i] == entries[i].message
  {
    seq(|entries|, i requires 0 <= i < |entries| => entries[i].message)
  }

  /** How many leading entries belong to the operation of the first. */
  function RunLength(entries: seq<Entry>, operation: OperationId): (n: nat)
    ensures n <= |entries|
    ensures forall i | 0 <= i < n :: entries[i].origin.operation == operation
    ensures n < |entries| ==> entries[n].origin.operation != operation
  {
    if entries == [] || entries[0].origin.operation != operation then 0
    else 1 + RunLength(entries[1..], operation)
  }

  /** The receipt of one operation's messages takes the place of the last of them. */
  function ReceiptOf(held: seq<Entry>, receipt: Receipt): Loop<Entry>
    requires held != []
  {
    var text :- receipt(Messages(held));
    Ok(Entry(held[|held| - 1].origin, User([Plain(text)])))
  }

  /** A checkpoint that ended inside a receipted operation moves to its end. */
  function MovePast(held: seq<Entry>, checkpoint: Option<Activated>): Option<Activated>
    requires held != []
  {
    var first, last := held[0].origin.sequence, held[|held| - 1].origin.sequence;
    if checkpoint.Some? && first <= checkpoint.value.coveredThrough < last then
      Some(checkpoint.value.(coveredThrough := last))
    else checkpoint
  }

  /** `entries` with each finished receipted operation replaced by its receipt. */
  function Replace(
    entries: seq<Entry>, receipted: set<OperationId>, active: OperationId, receipt: Receipt,
    checkpoint: Option<Activated>): Loop<(seq<Entry>, Option<Activated>)>
    decreases |entries|
  {
    if entries == [] then Ok(([], checkpoint))
    else
      var operation := entries[0].origin.operation;
      if operation != active && operation in receipted then
        var n := RunLength(entries, operation);
        var shown :- ReceiptOf(entries[..n], receipt);
        var rest :- Replace(entries[n..], receipted, active, receipt, MovePast(entries[..n], checkpoint));
        Ok(([shown] + rest.0, rest.1))
      else
        var rest :- Replace(entries[1..], receipted, active, receipt, checkpoint);
        Ok(([entries[0]] + rest.0, rest.1))
  }

  // Annotations -------------------------------------------------------------

  function UserMessages(entries: seq<Entry>, operation: OperationId): nat {
    if entries == [] then 0
    else
      (if entries[0].origin.operation == operation && entries[0].message.User? then 1 else 0)
      + UserMessages(entries[1..], operation)
  }

  predicate AnnotationsBelong(entries: seq<Entry>, annotations: map<OperationId, string>) {
    forall operation | operation in annotations :: UserMessages(entries, operation) == 1
  }

  /** Turn timing or context joins the user message of its own operation only. */
  function Annotate(entry: Entry, annotations: map<OperationId, string>): Entry {
    if entry.origin.operation in annotations && entry.message.User? then
      entry.(message := User(entry.message.blocks + [Plain(annotations[entry.origin.operation])]))
    else entry
  }

  function AnnotateAll(entries: seq<Entry>, annotations: map<OperationId, string>): (annotated: seq<Entry>)
    ensures |annotated| == |entries|
    ensures forall i | 0 <= i < |entries| :: annotated[i] == Annotate(entries[i], annotations)
  {
    seq(|entries|, i requires 0 <= i < |entries| => Annotate(entries[i], annotations))
  }

  // The whole input ---------------------------------------------------------

  function Finish(
    active: OperationId, scan: Scan, receipt: Receipt, systemPrompt: string, tools: seq<ToolSpec>,
    compactionRequired: bool): Loop<Context>
  {
    if scan.receipted !! scan.annotations.Keys then
      var shown :- Replace(scan.entries, scan.receipted, active, receipt, scan.checkpoint);
      if !AnnotationsBelong(shown.0, scan.annotations) then
        Err(InvalidJournal)
      else
        Ok(Context(active, AnnotateAll(shown.0, scan.annotations), shown.1, systemPrompt, tools, compactionRequired))
    else Err(InvalidJournal)
  }

  function ContextOf(
    active: OperationId, events: seq<Event>, receipt: Receipt, systemPrompt: string, tools: seq<ToolSpec>,
    compactionRequired: bool): Loop<Context>
  {
    var scan :- ScanAll(events);
    Finish(active, scan, receipt, systemPrompt, tools, compactionRequired)
  }

  /** Reads the journal in one pass over growing entries, sets and maps. */
  method BuildContext(
    active: OperationId, events: seq<Event>, receipt: Receipt, systemPrompt: string, tools: seq<ToolSpec>,
    compactionRequired: bool) returns (context: Loop<Context>)
    ensures context == ContextOf(active, events, receipt, systemPrompt, tools, compactionRequired)
  {
    var scan := EMPTY_SCAN;
    for i := 0 to |events|
      invariant ScanAll(events[..i]) == Ok(scan)
    {
      assert events[..i + 1][..i] == events[..i];
      var event := events[i];
      match event.kind {
        case MessageEvent(message) =>
          if event.sequence in scan.sequences {
            ScanErrorStays(events, i + 1);
            return Err(InvalidJournal);
          }
          scan := scan.(
            entries := scan.entries + [Entry(Origin(event.operation, event.sequence), message)],
            sequences := scan.sequences + {event.sequence});
        case ReceiptedEvent =>
          if event.operation in scan.receipted {
            ScanErrorStays(events, i + 1);
            return Err(InvalidJournal);
          }
          scan := scan.(receipted := scan.receipted + {event.operation});
        case AnnotationEvent(text) =>
          if event.operation in scan.annotations {
            ScanErrorStays(events, i + 1);
            return Err(InvalidJournal);
          }
          scan := scan.(annotations := scan.annotations[event.operation := text]);
        case CheckpointEvent(covered, summary) =>
          var activated := ActivatedCheckpoint(covered, summary, scan.sequences, scan.checkpoint);
          if activated.Err? {
            ScanErrorStays(events, i + 1);
            return Err(activated.error);
          }
          scan := scan.(checkpoint := Some(activated.value));
        case CompactionResultEvent(_) =>
        case ForeignEvent =>
        case Unsupported =>
          ScanErrorStays(events, i + 1);
          return Err(InvalidJournal);
      }
    }
    assert events[..|events|] == events;
    context := Finish(active, scan, receipt, systemPrompt, tools, compactionRequired);
  }

  lemma {:induction false} ScanErrorStays(events: seq<Event>, n: nat)
    requires n <= |events| && ScanAll(events[..n]).Err?
    ensures ScanAll(events) == Err(ScanAll(events[..n]).error)
    decreases |events| - n
  {
    if n == |events| {
      assert events[..n] == events;
    } else {
      assert events[..n + 1][..n] == events[..n];
      ScanErrorStays(events, n + 1);
    }
  }

  /** Details stay in the journal; a model never sees them. */
  function Visible(messages: seq<Message>): (visible: seq<Message>)
    ensures |visible| == |messages|
    ensures forall i | 0 <= i < |messages| ::
      visible[i] == if messages[i].Tool? then Tool(messages[i].result.(details := None)) else messages[i]
  {
    seq(|messages|, i requires 0 <= i < |messages| =>
      if messages[i].Tool? then Tool(messages[i].result.(details := None)) else messages[i])
  }
}
