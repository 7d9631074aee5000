/** What it means for a conversation to pair every tool call with its result. */
module Transcript {
  import opened Base
  import opened PendingTools
  import opened LoopTypes

  predicate Answers(call: ToolCall, message: Message) {
    message.Tool? && message.result.callId == call.id && message.result.name == call.name
  }

  /** The calls still owed a result after one more message, or `None` once a
      message arrives out of turn: a result nobody awaits, or a new user or
      assistant message while results are owed. */
  function Next(owed: Option<seq<ToolCall>>, message: Message): Option<seq<ToolCall>> {
    match owed
    case None => None
    case Some(calls) =>
      match message
      case User(_) => if calls == [] then Some([]) else None
      case Assistant(content, _, _) => if calls == [] then Some(Calls(content)) else None
      case Tool(_) => if calls != [] && Answers(calls[0], message) then Some(calls[1..]) else None
  }

  function OwedFrom(owed: Option<seq<ToolCall>>, messages: seq<Message>): Option<seq<ToolCall>>
    decreases |messages|
  {
    if messages == [] then owed else OwedFrom(Next(owed, messages[0]), messages[1..])
  }

  /** The calls a whole transcript leaves unanswered. */
  function Owed(messages: seq<Message>): Option<seq<ToolCall>> {
    OwedFrom(Some([]), messages)
  }

  lemma {:induction false} OwedFromConcat(owed: Option<seq<ToolCall>>, a: seq<Message>, b: seq<Message>)
    ensures OwedFrom(owed, a + b) == OwedFrom(OwedFrom(owed, a), b)
    decreases |a|
  {
    if a == [] {
      assert a + b == b;
    } else {
      assert (a + b)[1..] == a[1..] + b;
      OwedFromConcat(Next(owed, a[0]), a[1..], b);
    }
  }

  lemma {:induction false} OwedFromNone(messages: seq<Message>)
    ensures OwedFrom(None, messages) == None
  {
    if messages != [] {
      OwedFromNone(messages[1..]);
    }
  }

  /** Results that answer the owed calls in order settle exactly those calls. */
  lemma {:induction false} ResultsSettle(calls: seq<ToolCall>, messages: seq<Message>)
    requires |messages| <= |calls|
    requires forall i | 0 <= i < |messages| :: Answers(calls[i], messages[i])
    ensures OwedFrom(Some(calls), messages) == Some(calls[|messages|..])
  {
    if messages != [] {
      ResultsSettle(calls[1..], messages[1..]);
    }
  }

  lemma OwedPrefix(messages: seq<Message>, n: nat)
    requires n <= |messages| && Owed(messages).Some?
    ensures Owed(messages[..n]).Some?
    ensures OwedFrom(Owed(messages[..n]), messages[n..]) == Owed(messages)
  {
    assert messages == messages[..n] + messages[n..];
    OwedFromConcat(Some([]), messages[..n], messages[n..]);
    if Owed(messages[..n]).None? {
      OwedFromNone(messages[n..]);
    }
  }

  /** While `calls` are owed, the next messages are their results, in call order. */
  lemma {:induction false} OwedAreAnswered(calls: seq<ToolCall>, messages: seq<Message>, rest: seq<ToolCall>)
    requires OwedFrom(Some(calls), messages) == Some(rest)
    ensures forall k | 0 <= k < |calls| && k < |messages| :: Answers(calls[k], messages[k])
    ensures |messages| < |calls| ==> rest == calls[|messages|..]
    ensures |calls| < |messages| ==> !messages[|calls|].Tool?
  {
    if messages != [] {
      if calls == [] {
        if messages[0].Tool? {
          OwedFromNone(messages[1..]);
        }
      } else {
        if !Answers(calls[0], messages[0]) {
          OwedFromNone(messages[1..]);
        }
        OwedAreAnswered(calls[1..], messages[1..], rest);
        forall k | 0 <= k < |calls| && k < |messages| ensures Answers(calls[k], messages[k]) {
          if k > 0 {
            assert calls[1..][k - 1] == calls[k] && messages[1..][k - 1] == messages[k];
          }
        }
      }
    }
  }

  /** The assistant message at `i` is followed by one result per call, in call order
      and with the call's identity, and then by no further result; if the
      transcript ends before that, `rest` is exactly the calls without a result. */
  predicate Paired(messages: seq<Message>, rest: seq<ToolCall>, i: nat)
    requires i < |messages| && messages[i].Assistant?
  {
    var calls := Calls(messages[i].content);
    && (forall k | 0 <= k < |calls| && i + 1 + k < |messages| :: Answers(calls[k], messages[i + 1 + k]))
    && (i + 1 + |calls| < |messages| ==> !messages[i + 1 + |calls|].Tool?)
    && (|messages| < i + 1 + |calls| ==> rest == calls[|messages| - i - 1..])
  }

  /** In a transcript that owes `rest`, every assistant message is paired with its
      results, and an assistant message may lack some only while `rest` is not empty. */
  lemma EveryCallIsAnswered(messages: seq<Message>, rest: seq<ToolCall>, i: nat)
    requires Owed(messages) == Some(rest)
    requires i < |messages| && messages[i].Assistant?
    ensures Paired(messages, rest, i)
    ensures rest == [] ==> i + 1 + |Calls(messages[i].content)| <= |messages|
  {
    var calls := Calls(messages[i].content);
    OwedPrefix(messages, i);
    OwedPrefix(messages, i + 1);
    assert messages[..i + 1] == messages[..i] + [messages[i]];
    OwedFromConcat(Some([]), messages[..i], [messages[i]]);
    assert OwedFrom(Owed(messages[..i]), [messages[i]]) == Next(Owed(messages[..i]), messages[i]);
    assert Owed(messages[..i + 1]) == Some(calls);
    var tail := messages[i + 1..];
    OwedAreAnswered(calls, tail, rest);
    assert forall k | 0 <= k < |tail| :: tail[k] == messages[i + 1 + k];
  }

  /** No result is unsolicited: each answers a call of the assistant message before it. */
  lemma {:induction false} EveryResultWasCalled(messages: seq<Message>, j: nat)
    requires Owed(messages).Some?
    requires j < |messages| && messages[j].Tool?
    ensures exists i, k ::
      && 0 <= i < j && messages[i].Assistant? && k == j - i - 1
      && k < |Calls(messages[i].content)| && Answers(Calls(messages[i].content)[k], messages[j])
  {
    OwedPrefix(messages, j);
    OwedPrefix(messages, j + 1);
    assert messages[..j + 1] == messages[..j] + [messages[j]];
    OwedFromConcat(Some([]), messages[..j], [messages[j]]);
    assert OwedFrom(Owed(messages[..j]), [messages[j]]) == Next(Owed(messages[..j]), messages[j]);
    var before := messages[..j];
    var i := LastAssistant(before);
    assert before[i] == messages[i];
  }

  lemma {:induction false} LastAssistant(messages: seq<Message>) returns (i: nat)
    requires Owed(messages).Some? && Owed(messages).value != []
    ensures i < |messages| && messages[i].Assistant?
    ensures |messages| - i - 1 <= |Calls(messages[i].content)|
    ensures Owed(messages).value == Calls(messages[i].content)[|messages| - i - 1..]
  {
    var n := |messages| - 1;
    OwedPrefix(messages, n);
    assert messages == messages[..n] + [messages[n]];
    OwedFromConcat(Some([]), messages[..n], [messages[n]]);
    assert OwedFrom(Owed(messages[..n]), [messages[n]]) == Next(Owed(messages[..n]), messages[n]);
    if messages[n].Assistant? {
      i := n;
    } else {
      i := LastAssistant(messages[..n]);
    }
  }
}
