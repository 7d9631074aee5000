/** The answer to an agent's request, admitted with the ending that caused it. */
module AgentReplies {
  import opened Base
  import opened ControlStore
  import opened ExecutionEvents
  import opened AgentMessages

  // Cutting at a character boundary -----------------------------------------

  /** Whether byte offset `end` of the text's UTF-8 form starts a character or ends the text. */
  predicate IsCharBoundary(text: string, end: nat) {
    end == 0 || (text != [] && CharBytes(text[0]) <= end && IsCharBoundary(text[1..], end - CharBytes(text[0])))
  }

  /** The characters before a boundary. */
  function Take(text: string, end: nat): (head: string)
    requires IsCharBoundary(text, end)
    ensures head <= text && ByteLen(head) == end
  {
    if end == 0 then ""
    else
      var rest := Take(text[1..], end - CharBytes(text[0]));
      assert ([text[0]] + rest)[1..] == rest;
      [text[0]] + rest
  }

  lemma {:induction false} PrefixesEndAtBoundaries(text: string, k: nat)
    requires k <= |text|
    ensures IsCharBoundary(text, ByteLen(text[..k]))
  {
    if k > 0 {
      assert text[..k][1..] == text[1..][..k - 1];
      PrefixesEndAtBoundaries(text[1..], k - 1);
    }
  }

  lemma {:induction false} LongerPrefixesAreLarger(text: string, j: nat, k: nat)
    requires j < k <= |text|
    ensures ByteLen(text[..j]) < ByteLen(text[..k])
  {
    if j > 0 {
      assert text[..j][1..] == text[1..][..j - 1] && text[..k][1..] == text[1..][..k - 1];
      LongerPrefixesAreLarger(text[1..], j - 1, k - 1);
    }
  }

  /** The longest prefix of at most `limit` bytes. */
  ghost predicate LongestWithin(text: string, limit: nat, kept: string) {
    && kept <= text && ByteLen(kept) <= limit
    && (forall k | |kept| < k <= |text| :: ByteLen(text[..k]) > limit)
  }

  /** Steps back from the limit to a character boundary and cuts there. */
  method Truncate(text: string, limit: nat) returns (kept: string)
    ensures LongestWithin(text, limit, kept)
  {
    var end: nat := if ByteLen(text) < limit then ByteLen(text) else limit;
    assert text[..|text|] == text;
    forall k | 0 <= k < |text| ensures ByteLen(text[..k]) < ByteLen(text) {
      LongerPrefixesAreLarger(text, k, |text|);
    }
    while !IsCharBoundary(text, end)
      invariant end <= limit
      invariant forall k | 0 <= k <= |text| && ByteLen(text[..k]) <= limit :: ByteLen(text[..k]) <= end
      decreases end
    {
      forall k | 0 <= k <= |text| && ByteLen(text[..k]) <= limit ensures ByteLen(text[..k]) < end {
        PrefixesEndAtBoundaries(text, k);
      }
      end := end - 1;
    }
    kept := Take(text, end);
    forall k | |kept| < k <= |text| ensures ByteLen(text[..k]) > limit {
      assert text[..|kept|] == kept;
      LongerPrefixesAreLarger(text, |kept|, k);
    }
  }

  /** The same cut as a function of the text. */
  function Truncated(text: string, limit: nat): (kept: string)
    ensures kept <= text && ByteLen(kept) <= limit
  {
    if text == [] || CharBytes(text[0]) > limit then ""
    else
      var rest := Truncated(text[1..], limit - CharBytes(text[0]));
      assert ([text[0]] + rest)[1..] == rest;
      [text[0]] + rest
  }

  lemma {:induction false} TruncatedIsLongest(text: string, limit: nat, kept: string)
    requires LongestWithin(text, limit, kept)
    ensures kept == Truncated(text, limit)
  {
    if text != [] {
      assert text[..1] == [text[0]] && [text[0]][1..] == [];
      if kept == [] {
        assert ByteLen(text[..1]) > limit;
      } else {
        forall k | |kept| - 1 < k <= |text[1..]| ensures ByteLen(text[1..][..k]) > limit - CharBytes(text[0]) {
          assert text[..k + 1][1..] == text[1..][..k];
          assert ByteLen(text[..k + 1]) > limit;
        }
        TruncatedIsLongest(text[1..], limit - CharBytes(text[0]), kept[1..]);
      }
    }
  }

  // Answers -----------------------------------------------------------------

  function FindTerminal(entries: seq<Entry>): (terminal: Option<Terminal>)
    ensures terminal.Some? <==> Ends(entries)
  {
    if entries == [] then None
    else if entries[0].event.kind.Terminated? then Some(entries[0].event.kind.terminal)
    else
      assert forall i | 0 < i < |entries| :: entries[i] == entries[1..][i - 1];
      FindTerminal(entries[1..])
  }

  /** The last assistant message the execution recorded. */
  function LastAssistantText(journal: seq<Entry>, task: Id, command: Id): string {
    if journal == [] then ""
    else
      var last := journal[|journal| - 1];
      if last.task == task && last.command == command && last.event.kind.AssistantMessage? then last.event.kind.text
      else LastAssistantText(journal[..|journal| - 1], task, command)
  }

  function AnswerText(t: Tables, task: Id, command: Id, terminal: Terminal): (Kind, string) {
    match terminal
    case Completed => (Reply, LastAssistantText(t.journal, task, command))
    case Failed(error) => (Failure, error)
    case Cancelled(reason) => (Failure, reason)
  }

  predicate IsRequest(command: Command) {
    command.origin.Some? && command.origin.value.kind.Request?
  }

  predicate IsAnswer(command: Command) {
    command.origin.Some? && !command.origin.value.kind.Request?
  }

  function AnswerCommand(t: Tables, task: Id, command: Id, asker: CommandRow, terminal: Terminal, replier: string): Command
    requires asker.task in t.tasks && task in t.tasks && command in t.commands && IsRequest(t.commands[command].command)
  {
    var (kind, text) := AnswerText(t, task, command, terminal);
    Command(t.tasks[asker.task].principal, AGENT_SURFACE, t.tasks[asker.task].target, Truncated(text, MAX_MESSAGE_BYTES),
            asker.command.quiet,
            Some(Origin(command, t.tasks[task].target, replier,
                        SaturatingNext(t.commands[command].command.origin.value.depth), kind)))
  }

  /** Admits the answer to `command` when the batch ended it and it was a request. */
  function AdmitReply(naming: Naming, t: Tables, task: Id, command: Id, appended: seq<Entry>, replier: string)
    : Result<Tables, Error>
  {
    match FindTerminal(appended)
    case None => Ok(t)
    case Some(terminal) =>
      if command !in t.commands then Err(StoreFailure)
      else if !IsRequest(t.commands[command].command) then Ok(t)
      else
        var asking := t.commands[command].command.origin.value.fromCommand;
        if asking !in t.commands then Ok(t)
        else
          var asker := t.commands[asking];
          if asker.task !in t.tasks || task !in t.tasks then Err(NotFound)
          else InsertCommand(t, naming.replyTo(command), asker.task, AnswerCommand(t, task, command, asker, terminal, replier))
  }

  /** A node publishes a batch; its ending and the answer commit together. */
  function Publish(
    naming: Naming, t: Tables, task: Id, command: Id, events: seq<ExecutionEvent>, replier: string): Result<Tables, Error>
  {
    var admitted :- AdmitBatch(t, task, command, events);
    AdmitReply(naming, admitted.0, task, command, admitted.1, replier)
  }

  // What an answer says -----------------------------------------------------

  /** The entry is an assistant message of that command's execution. */
  predicate Speaks(journal: seq<Entry>, task: Id, command: Id, k: nat) {
    k < |journal| && journal[k].task == task && journal[k].command == command && journal[k].event.kind.AssistantMessage?
  }

  /** And no later entry is one. */
  ghost predicate SpeaksLast(journal: seq<Entry>, task: Id, command: Id, k: nat) {
    Speaks(journal, task, command, k) && forall j: nat | j > k :: !Speaks(journal, task, command, j)
  }

  /** The text of the execution's latest assistant message, or nothing. */
  ghost predicate LatestWords(journal: seq<Entry>, task: Id, command: Id, words: string) {
    || (words == "" && forall k: nat :: !Speaks(journal, task, command, k))
    || (exists k: nat :: SpeaksLast(journal, task, command, k) && words == journal[k].event.kind.text)
  }

  lemma {:induction false} LatestIsLast(journal: seq<Entry>, task: Id, command: Id)
    ensures LatestWords(journal, task, command, LastAssistantText(journal, task, command))
  {
    if journal != [] {
      var before, last := journal[..|journal| - 1], |journal| - 1;
      if Speaks(journal, task, command, last) {
        assert SpeaksLast(journal, task, command, last);
      } else {
        LatestIsLast(before, task, command);
        LatestStays(before, journal, task, command, LastAssistantText(before, task, command));
      }
    }
  }

  /** Entries at the end that are no words of the command change nothing. */
  lemma LatestStays(before: seq<Entry>, journal: seq<Entry>, task: Id, command: Id, words: string)
    requires before <= journal && forall k: nat | k >= |before| :: !Speaks(journal, task, command, k)
    requires LatestWords(before, task, command, words)
    ensures LatestWords(journal, task, command, words)
  {
    assert forall k: nat :: Speaks(journal, task, command, k) <==> Speaks(before, task, command, k);
    if k: nat :| SpeaksLast(before, task, command, k) && words == before[k].event.kind.text {
      assert SpeaksLast(journal, task, command, k);
    }
  }

  /** There is only one latest text. */
  lemma LatestIsUnique(journal: seq<Entry>, task: Id, command: Id, a: string, b: string)
    requires LatestWords(journal, task, command, a) && LatestWords(journal, task, command, b)
    ensures a == b
  {
    if i: nat :| SpeaksLast(journal, task, command, i) && a == journal[i].event.kind.text {
      var j: nat :| SpeaksLast(journal, task, command, j) && b == journal[j].event.kind.text;
      assert i == j;
    }
  }

  /** What the answer to an execution with this journal and ending says: a completion is
      answered with its latest words, anything else as a failure with its reason. */
  ghost predicate Says(journal: seq<Entry>, task: Id, command: Id, terminal: Terminal, kind: Kind, text: string) {
    match terminal
    case Completed =>
      kind.Reply? && exists words :: LatestWords(journal, task, command, words) && LongestWithin(words, MAX_MESSAGE_BYTES, text)
    case Failed(error) => kind.Failure? && LongestWithin(error, MAX_MESSAGE_BYTES, text)
    case Cancelled(reason) => kind.Failure? && LongestWithin(reason, MAX_MESSAGE_BYTES, text)
  }

  /** The command answers the ending that the batch appended. */
  ghost predicate AnswersEnding(journal: seq<Entry>, task: Id, command: Id, appended: seq<Entry>, answer: Command) {
    && answer.origin.Some?
    && (exists i ::
      && 0 <= i < |appended| && appended[i].event.kind.Terminated?
      && Says(journal, task, command, appended[i].event.kind.terminal, answer.origin.value.kind, answer.text))
  }

  lemma {:induction false} TruncatedIsWithin(text: string, limit: nat)
    ensures LongestWithin(text, limit, Truncated(text, limit))
  {
    if text != [] && CharBytes(text[0]) <= limit {
      TruncatedIsWithin(text[1..], limit - CharBytes(text[0]));
      var kept := Truncated(text, limit);
      forall k | |kept| < k <= |text| ensures ByteLen(text[..k]) > limit {
        assert text[..k][1..] == text[1..][..k - 1];
      }
    } else {
      forall k | 0 < k <= |text| ensures ByteLen(text[..k]) > limit {
      }
    }
  }

  lemma AnswerSays(t: Tables, task: Id, command: Id, asker: CommandRow, terminal: Terminal, replier: string)
    requires asker.task in t.tasks && task in t.tasks && command in t.commands && IsRequest(t.commands[command].command)
    ensures var answer := AnswerCommand(t, task, command, asker, terminal, replier);
      answer.origin.Some? && Says(t.journal, task, command, terminal, answer.origin.value.kind, answer.text)
  {
    LatestIsLast(t.journal, task, command);
    TruncatedIsWithin(LastAssistantText(t.journal, task, command), MAX_MESSAGE_BYTES);
    if !terminal.Completed? {
      TruncatedIsWithin(if terminal.Failed? then terminal.error else terminal.reason, MAX_MESSAGE_BYTES);
    }
  }

  /** The terminal event a batch reports is its last event. */
  lemma {:induction false} TerminalIsLast(entries: seq<Entry>, terminal: Terminal)
    requires Ends(entries)
    requires forall i | 0 <= i < |entries| && entries[i].event.kind.Terminated? :: entries[i].event.kind.terminal == terminal
    ensures FindTerminal(entries) == Some(terminal)
  {
    if !entries[0].event.kind.Terminated? {
      var i :| 0 <= i < |entries| && entries[i].event.kind.Terminated?;
      assert entries[1..][i - 1] == entries[i];
      assert forall j | 0 <= j < |entries[1..]| :: entries[1..][j] == entries[j + 1];
      TerminalIsLast(entries[1..], terminal);
    }
  }

  lemma {:induction false} FoundInEntries(entries: seq<Entry>) returns (i: nat)
    requires FindTerminal(entries).Some?
    ensures i < |entries| && entries[i].event.kind == Terminated(FindTerminal(entries).value)
  {
    i := 0;
    if !entries[0].event.kind.Terminated? {
      i := FoundInEntries(entries[1..]);
      i := i + 1;
    }
  }
}
