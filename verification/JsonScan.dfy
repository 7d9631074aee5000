/** Finding JSON inside a message: the scan for the end of an object or array, and
    the pass that replaces every one it finds. */
module JsonScan {
  import opened Base

  // The scan ----------------------------------------------------------------

  datatype Mode = Mode(depth: int, inString: bool, escape: bool)

  /** After some text: still open in a mode, or closed after so many characters. */
  datatype Fed = Open(mode: Mode) | Closed(length: nat)

  const OUTSIDE := Mode(0, false, false)

  function Next(m: Mode, c: char): Mode {
    if m.inString then
      if m.escape then m.(escape := false)
      else if c == '\\' then m.(escape := true)
      else if c == '"' then m.(inString := false)
      else m
    else if c == '"' then m.(inString := true)
    else if c == '{' || c == '[' then m.(depth := m.depth + 1)
    else if c == '}' || c == ']' then m.(depth := m.depth - 1)
    else m
  }

  predicate Closes(m: Mode, c: char) {
    !m.inString && (c == '}' || c == ']') && m.depth == 1
  }

  function Feed(m: Mode, text: string): Fed
    decreases |text|
  {
    if text == [] then Open(m)
    else if Closes(m, text[0]) then Closed(1)
    else match Feed(Next(m, text[0]), text[1..])
      case Open(after) => Open(after)
      case Closed(length) => Closed(length + 1)
  }

  /** Where the bracket opened at `start` closes, past its closing bracket. */
  function ScanEnd(text: string, start: nat): (end: Option<nat>)
    requires start < |text|
  {
    if text[start] != '{' && text[start] != '[' then None
    else match Feed(OUTSIDE, text[start..])
      case Open(_) => None
      case Closed(length) => Some(start + length)
  }

  lemma {:induction false} ClosedWithin(m: Mode, text: string)
    ensures Feed(m, text).Closed? ==> 1 <= Feed(m, text).length <= |text|
    decreases |text|
  {
    if text != [] {
      ClosedWithin(Next(m, text[0]), text[1..]);
    }
  }

  lemma {:induction false} FeedConcat(m: Mode, a: string, b: string)
    requires Feed(m, a).Open?
    ensures Feed(m, a + b) ==
      match Feed(Feed(m, a).mode, b)
      case Open(after) => Open(after)
      case Closed(length) => Closed(|a| + length)
    decreases |a|
  {
    if a == [] {
      assert a + b == b;
    } else {
      assert (a + b)[1..] == a[1..] + b;
      FeedConcat(Next(m, a[0]), a[1..], b);
    }
  }

  // JSON texts --------------------------------------------------------------

  datatype StringChar = Plain(c: char) | Escaped(c: char)

  /** A value and the white space around it, followed by more of them. */
  datatype Items = NoItems | Item(before: string, value: Json, after: string, rest: Items)

  datatype Members =
    | NoMembers
    | Member(before: string, key: seq<StringChar>, afterKey: string, beforeValue: string, value: Json, after: string, rest: Members)

  /** JSON with its white space; `Atom` is a number or a literal name. */
  datatype Json =
    | Atom(text: string)
    | Text(chars: seq<StringChar>)
    | Array(items: Items, space: string)
    | Object(members: Members, space: string)

  predicate Space(s: string) {
    forall c | c in s :: c == ' ' || c == '\t' || c == '\n' || c == '\r'
  }

  predicate AtomText(s: string) {
    forall c | c in s :: 'a' <= c <= 'z' || '0' <= c <= '9' || c == '+' || c == '-' || c == '.' || c == 'E'
  }

  predicate StringOk(chars: seq<StringChar>) {
    forall i | 0 <= i < |chars| && chars[i].Plain? :: chars[i].c != '"' && chars[i].c != '\\'
  }

  predicate Valid(j: Json) {
    match j
    case Atom(text) => AtomText(text)
    case Text(chars) => StringOk(chars)
    case Array(items, space) => ItemsValid(items) && Space(space)
    case Object(members, space) => MembersValid(members) && Space(space)
  }

  predicate ItemsValid(items: Items) {
    match items
    case NoItems => true
    case Item(before, value, after, rest) => Space(before) && Valid(value) && Space(after) && ItemsValid(rest)
  }

  predicate MembersValid(members: Members) {
    match members
    case NoMembers => true
    case Member(before, key, afterKey, beforeValue, value, after, rest) =>
      && Space(before) && StringOk(key) && Space(afterKey) && Space(beforeValue) && Valid(value) && Space(after)
      && MembersValid(rest)
  }

  function PrintChars(chars: seq<StringChar>): string {
    if chars == [] then ""
    else (if chars[0].Plain? then [chars[0].c] else ['\\', chars[0].c]) + PrintChars(chars[1..])
  }

  function PrintString(chars: seq<StringChar>): string {
    "\"" + PrintChars(chars) + "\""
  }

  function Print(j: Json): string {
    match j
    case Atom(text) => text
    case Text(chars) => PrintString(chars)
    case Array(items, space) => "[" + (PrintItems(items) + space) + "]"
    case Object(members, space) => "{" + (PrintMembers(members) + space) + "}"
  }

  function PrintItems(items: Items): string {
    match items
    case NoItems => ""
    case Item(before, value, after, rest) =>
      before + Print(value) + after + (if rest.NoItems? then "" else "," + PrintItems(rest))
  }

  function PrintMembers(members: Members): string {
    match members
    case NoMembers => ""
    case Member(before, key, afterKey, beforeValue, value, after, rest) =>
      before + PrintString(key) + afterKey + ":" + beforeValue + Print(value) + after
      + (if rest.NoMembers? then "" else "," + PrintMembers(rest))
  }

  // The scan follows the grammar --------------------------------------------

  /** Text that leaves the scan as it was, inside any open bracket. */
  ghost predicate Neutral(text: string) {
    forall depth | depth >= 1 :: Feed(Mode(depth, false, false), text) == Open(Mode(depth, false, false))
  }

  lemma NeutralConcat(a: string, b: string)
    requires Neutral(a) && Neutral(b)
    ensures Neutral(a + b)
  {
    forall depth | depth >= 1 ensures Feed(Mode(depth, false, false), a + b) == Open(Mode(depth, false, false)) {
      FeedConcat(Mode(depth, false, false), a, b);
    }
  }

  predicate Ordinary(c: char) {
    c != '"' && c != '{' && c != '[' && c != '}' && c != ']'
  }

  lemma {:induction false} OrdinaryIsNeutral(text: string)
    requires forall c | c in text :: Ordinary(c)
    ensures Neutral(text)
  {
    if text != [] {
      assert Ordinary(text[0]);
      OrdinaryIsNeutral(text[1..]);
      forall depth | depth >= 1 ensures Feed(Mode(depth, false, false), text) == Open(Mode(depth, false, false)) {
        assert Feed(Mode(depth, false, false), text[1..]) == Open(Mode(depth, false, false));
      }
    }
  }

  lemma {:induction false} CharsStayInString(chars: seq<StringChar>, depth: int)
    requires StringOk(chars)
    ensures Feed(Mode(depth, true, false), PrintChars(chars)) == Open(Mode(depth, true, false))
  {
    if chars != [] {
      var inside := Mode(depth, true, false);
      var head := if chars[0].Plain? then [chars[0].c] else ['\\', chars[0].c];
      if chars[0].Plain? {
        assert head[1..] == [];
      } else {
        assert head[1..] == [chars[0].c] && [chars[0].c][1..] == [];
        assert Feed(inside.(escape := true), [chars[0].c]) == Open(inside);
      }
      assert Feed(inside, head) == Open(inside);
      CharsStayInString(chars[1..], depth);
      FeedConcat(inside, head, PrintChars(chars[1..]));
    }
  }

  lemma StringIsNeutral(chars: seq<StringChar>)
    requires StringOk(chars)
    ensures Neutral(PrintString(chars))
  {
    var quote := "\"";
    assert quote[1..] == [];
    forall depth | depth >= 1
      ensures Feed(Mode(depth, false, false), PrintString(chars)) == Open(Mode(depth, false, false))
    {
      var outside, inside := Mode(depth, false, false), Mode(depth, true, false);
      CharsStayInString(chars, depth);
      assert Feed(outside, quote) == Open(inside);
      FeedConcat(outside, quote, PrintChars(chars));
      FeedConcat(outside, quote + PrintChars(chars), quote);
      assert Feed(inside, quote) == Open(outside);
    }
  }

  lemma BracketOpens(open: char, body: string, depth: int)
    requires (open == '{' || open == '[') && Neutral(body) && depth >= 0
    ensures Feed(Mode(depth, false, false), [open] + body) == Open(Mode(depth + 1, false, false))
  {
    assert [open][1..] == [];
    assert Feed(Mode(depth, false, false), [open]) == Open(Mode(depth + 1, false, false));
    FeedConcat(Mode(depth, false, false), [open], body);
  }

  lemma BracketCloses(close: char, depth: int)
    requires (close == '}' || close == ']') && depth >= 1
    ensures Feed(Mode(depth, false, false), [close]) == if depth == 1 then Closed(1) else Open(Mode(depth - 1, false, false))
  {
    assert [close][1..] == [];
  }

  lemma BracketReturns(open: char, body: string, close: char, depth: int)
    requires (open == '{' || open == '[') && (close == '}' || close == ']') && Neutral(body) && depth >= 0
    ensures Feed(Mode(depth, false, false), [open] + body + [close])
         == if depth == 0 then Closed(|body| + 2) else Open(Mode(depth, false, false))
  {
    BracketOpens(open, body, depth);
    BracketCloses(close, depth + 1);
    FeedConcat(Mode(depth, false, false), [open] + body, [close]);
  }

  /** A bracket around neutral text is neutral itself. */
  lemma BracketIsNeutral(open: char, body: string, close: char)
    requires (open == '{' || open == '[') && (close == '}' || close == ']') && Neutral(body)
    ensures Neutral([open] + body + [close])
  {
    var text := [open] + body + [close];
    forall depth | depth >= 1 ensures Feed(Mode(depth, false, false), text) == Open(Mode(depth, false, false)) {
      BracketReturns(open, body, close, depth);
    }
  }

  lemma {:induction false} ValueIsNeutral(j: Json)
    requires Valid(j)
    ensures Neutral(Print(j))
  {
    match j
    case Atom(text) => OrdinaryIsNeutral(text);
    case Text(chars) => StringIsNeutral(chars);
    case Array(items, space) =>
      ItemsAreNeutral(items);
      OrdinaryIsNeutral(space);
      NeutralConcat(PrintItems(items), space);
      BracketIsNeutral('[', PrintItems(items) + space, ']');
    case Object(members, space) =>
      MembersAreNeutral(members);
      OrdinaryIsNeutral(space);
      NeutralConcat(PrintMembers(members), space);
      BracketIsNeutral('{', PrintMembers(members) + space, '}');
  }

  lemma {:induction false} ItemsAreNeutral(items: Items)
    requires ItemsValid(items)
    ensures Neutral(PrintItems(items))
  {
    match items
    case NoItems => OrdinaryIsNeutral("");
    case Item(before, value, after, rest) =>
      var tail := if rest.NoItems? then "" else "," + PrintItems(rest);
      OrdinaryIsNeutral(before);
      ValueIsNeutral(value);
      OrdinaryIsNeutral(after);
      ItemsAreNeutral(rest);
      OrdinaryIsNeutral(",");
      OrdinaryIsNeutral("");
      NeutralConcat(",", PrintItems(rest));
      NeutralConcat(before, Print(value));
      NeutralConcat(before + Print(value), after);
      NeutralConcat(before + Print(value) + after, tail);
  }

  lemma {:induction false} MembersAreNeutral(members: Members)
    requires MembersValid(members)
    ensures Neutral(PrintMembers(members))
  {
    match members
    case NoMembers => OrdinaryIsNeutral("");
    case Member(before, key, afterKey, beforeValue, value, after, rest) =>
      var tail := if rest.NoMembers? then "" else "," + PrintMembers(rest);
      OrdinaryIsNeutral(before);
      StringIsNeutral(key);
      OrdinaryIsNeutral(afterKey);
      OrdinaryIsNeutral(":");
      OrdinaryIsNeutral(beforeValue);
      ValueIsNeutral(value);
      OrdinaryIsNeutral(after);
      MembersAreNeutral(rest);
      OrdinaryIsNeutral(",");
      OrdinaryIsNeutral("");
      NeutralConcat(",", PrintMembers(rest));
      NeutralConcat(before, PrintString(key));
      NeutralConcat(before + PrintString(key), afterKey);
      NeutralConcat(before + PrintString(key) + afterKey, ":");
      NeutralConcat(before + PrintString(key) + afterKey + ":", beforeValue);
      NeutralConcat(before + PrintString(key) + afterKey + ":" + beforeValue, Print(value));
      NeutralConcat(before + PrintString(key) + afterKey + ":" + beforeValue + Print(value), after);
      NeutralConcat(before + PrintString(key) + afterKey + ":" + beforeValue + Print(value) + after, tail);
  }

  lemma {:induction false} ClosedStays(m: Mode, a: string, b: string)
    requires Feed(m, a).Closed?
    ensures Feed(m, a + b) == Feed(m, a)
    decreases |a|
  {
    assert (a + b)[1..] == a[1..] + b;
    if !Closes(m, a[0]) {
      ClosedStays(Next(m, a[0]), a[1..], b);
    }
  }

  lemma ContainerCloses(j: Json)
    requires Valid(j) && (j.Array? || j.Object?)
    ensures Feed(OUTSIDE, Print(j)) == Closed(|Print(j)|)
  {
    match j
    case Array(items, space) =>
      ItemsAreNeutral(items);
      OrdinaryIsNeutral(space);
      NeutralConcat(PrintItems(items), space);
      BracketReturns('[', PrintItems(items) + space, ']', 0);
    case Object(members, space) =>
      MembersAreNeutral(members);
      OrdinaryIsNeutral(space);
      NeutralConcat(PrintMembers(members), space);
      BracketReturns('{', PrintMembers(members) + space, '}', 0);
  }

  /** For every JSON object or array, after any text and before any suffix, the scan
      started at its opening bracket stops exactly at its closing bracket. */
  lemma ScanFindsTheEnd(prefix: string, j: Json, suffix: string)
    requires Valid(j) && (j.Array? || j.Object?)
    ensures ScanEnd(prefix + Print(j) + suffix, |prefix|) == Some(|prefix| + |Print(j)|)
  {
    var text := prefix + Print(j) + suffix;
    ContainerCloses(j);
    ClosedStays(OUTSIDE, Print(j), suffix);
    assert text[|prefix|..] == Print(j) + suffix;
    assert text[|prefix|] == Print(j)[0];
  }

  // Parsing and replacing ---------------------------------------------------

  /** Foreign functions: what `JSON.parse` accepts, and a value printed redacted. */
  datatype Codec<!V> = Codec(parse: string -> Option<V>, redacted: V -> string)

  function ParsedAt<V>(codec: Codec<V>, text: string, start: nat): (parsed: Option<(V, nat)>)
    requires start < |text|
    ensures parsed.Some? ==> start < parsed.value.1 <= |text|
  {
    ClosedWithin(OUTSIDE, text[start..]);
    match ScanEnd(text, start)
    case None => None
    case Some(end) =>
      (match codec.parse(text[start..end])
       case None => None
       case Some(value) => Some((value, end)))
  }

  /** The scan as a loop over an index, a depth and two flags. */
  method ParseJsonAt<V>(codec: Codec<V>, text: string, start: nat) returns (parsed: Option<(V, nat)>)
    requires start < |text|
    ensures parsed == ParsedAt(codec, text, start)
  {
    if text[start] != '{' && text[start] != '[' {
      return None;
    }
    var depth, inString, escape := 0, false, false;
    var index := start;
    while index < |text|
      invariant start <= index <= |text|
      invariant Feed(OUTSIDE, text[start..]) ==
        match Feed(Mode(depth, inString, escape), text[index..])
        case Open(after) => Open(after)
        case Closed(length) => Closed(index - start + length)
    {
      var character := text[index];
      assert text[index..][1..] == text[index + 1..];
      if inString {
        if escape {
          escape := false;
        } else if character == '\\' {
          escape := true;
        } else if character == '"' {
          inString := false;
        }
      } else if character == '"' {
        inString := true;
      } else if character == '{' || character == '[' {
        depth := depth + 1;
      } else if character == '}' || character == ']' {
        depth := depth - 1;
        if depth == 0 {
          var value := codec.parse(text[start..index + 1]);
          return if value.Some? then Some((value.value, index + 1)) else None;
        }
      }
      index := index + 1;
    }
    return None;
  }

  /** What the pass does with the text: a character kept, or a slice replaced. */
  datatype Piece<V> = Kept(c: char) | Replaced(slice: string, value: V)

  function Pieces<V>(codec: Codec<V>, text: string, index: nat): seq<Piece<V>>
    requires index <= |text|
    decreases |text| - index
  {
    if index == |text| then []
    else match ParsedAt(codec, text, index)
      case Some((value, end)) => [Replaced(text[index..end], value)] + Pieces(codec, text, end)
      case None => [Kept(text[index])] + Pieces(codec, text, index + 1)
  }

  function Source<V>(pieces: seq<Piece<V>>): string {
    if pieces == [] then ""
    else (match pieces[0] case Kept(c) => [c] case Replaced(slice, _) => slice) + Source(pieces[1..])
  }

  function Output<V>(codec: Codec<V>, pieces: seq<Piece<V>>): string {
    if pieces == [] then ""
    else (match pieces[0] case Kept(c) => [c] case Replaced(_, value) => codec.redacted(value)) + Output(codec, pieces[1..])
  }

  /** Every character of the input is in exactly one piece, in order. */
  lemma {:induction false} PiecesCoverTheText<V>(codec: Codec<V>, text: string, index: nat)
    requires index <= |text|
    ensures Source(Pieces(codec, text, index)) == text[index..]
    decreases |text| - index
  {
    if index < |text| {
      var pieces := Pieces(codec, text, index);
      match ParsedAt(codec, text, index)
      case Some((_, end)) =>
        PiecesCoverTheText(codec, text, end);
        assert pieces[1..] == Pieces(codec, text, end);
        assert text[index..] == text[index..end] + text[end..];
      case None =>
        PiecesCoverTheText(codec, text, index + 1);
        assert pieces[1..] == Pieces(codec, text, index + 1);
        assert text[index..] == [text[index]] + text[index + 1..];
    }
  }

  lemma {:induction false} OutputConcat<V>(codec: Codec<V>, a: seq<Piece<V>>, b: seq<Piece<V>>)
    ensures Output(codec, a + b) == Output(codec, a) + Output(codec, b)
  {
    if a == [] {
      assert a + b == b;
    } else {
      assert (a + b)[1..] == a[1..] + b;
      OutputConcat(codec, a[1..], b);
    }
  }

  /** The piece at `index` and where the next one starts. */
  function PieceAt<V>(codec: Codec<V>, text: string, index: nat): (next: (Piece<V>, nat))
    requires index < |text|
    ensures index < next.1 <= |text|
  {
    match ParsedAt(codec, text, index)
    case Some((value, end)) => (Replaced(text[index..end], value), end)
    case None => (Kept(text[index]), index + 1)
  }

  lemma TakePiece<V>(codec: Codec<V>, text: string, index: nat, taken: seq<Piece<V>>)
    requires index < |text|
    ensures var (piece, next) := PieceAt(codec, text, index);
      && taken + Pieces(codec, text, index) == (taken + [piece]) + Pieces(codec, text, next)
      && Output(codec, taken + [piece]) == Output(codec, taken)
           + match piece case Kept(c) => [c] case Replaced(_, value) => codec.redacted(value)
  {
    var (piece, next) := PieceAt(codec, text, index);
    OutputConcat(codec, taken, [piece]);
    assert [piece][1..] == [];
    assert Pieces(codec, text, index) == [piece] + Pieces(codec, text, next);
  }

  /** The pass over a message that is not itself JSON. */
  method RedactEmbedded<V>(codec: Codec<V>, text: string) returns (output: string)
    ensures output == Output(codec, Pieces(codec, text, 0))
  {
    output := "";
    var index := 0;
    ghost var taken: seq<Piece<V>> := [];
    while index < |text|
      invariant index <= |text|
      invariant taken + Pieces(codec, text, index) == Pieces(codec, text, 0)
      invariant output == Output(codec, taken)
    {
      var parsed := ParseJsonAt(codec, text, index);
      TakePiece(codec, text, index, taken);
      taken := taken + [PieceAt(codec, text, index).0];
      if parsed.Some? {
        output := output + codec.redacted(parsed.value.0);
        index := parsed.value.1;
      } else {
        output := output + [text[index]];
        index := index + 1;
      }
    }
    assert taken + Pieces(codec, text, |text|) == taken;
  }

  lemma EmbeddedJsonIsParsed<V>(codec: Codec<V>, prefix: string, j: Json, suffix: string)
    requires Valid(j) && (j.Array? || j.Object?) && codec.parse(Print(j)).Some?
    ensures var text := prefix + Print(j) + suffix;
      && |prefix| < |text|
      && ParsedAt(codec, text, |prefix|) == Some((codec.parse(Print(j)).value, |prefix| + |Print(j)|))
  {
    var text := prefix + Print(j) + suffix;
    ScanFindsTheEnd(prefix, j, suffix);
    assert text[|prefix|..|prefix| + |Print(j)|] == Print(j);
  }

  /** From `index` the pass comes to stand at `target`: no replaced piece spans it. */
  predicate ComesTo<V>(codec: Codec<V>, text: string, index: nat, target: nat)
    requires index <= target <= |text|
    decreases target - index
  {
    index == target || (PieceAt(codec, text, index).1 <= target && ComesTo(codec, text, PieceAt(codec, text, index).1, target))
  }

  /** The pieces before `target` when the pass comes to stand there. */
  function PiecesTo<V>(codec: Codec<V>, text: string, index: nat, target: nat): seq<Piece<V>>
    requires index <= target <= |text| && ComesTo(codec, text, index, target)
    decreases target - index
  {
    if index == target then []
    else
      var (piece, next) := PieceAt(codec, text, index);
      [piece] + PiecesTo(codec, text, next, target)
  }

  lemma PiecesOf<V>(codec: Codec<V>, text: string, index: nat)
    requires index < |text|
    ensures var (piece, next) := PieceAt(codec, text, index);
      && Pieces(codec, text, index) == [piece] + Pieces(codec, text, next)
      && (match piece case Kept(c) => [c] case Replaced(slice, _) => slice) == text[index..next]
  {
  }

  lemma {:induction false} PiecesSplit<V>(codec: Codec<V>, text: string, index: nat, target: nat)
    requires index <= target <= |text| && ComesTo(codec, text, index, target)
    ensures Pieces(codec, text, index) == PiecesTo(codec, text, index, target) + Pieces(codec, text, target)
    decreases target - index
  {
    if index < target {
      var (piece, next) := PieceAt(codec, text, index);
      PiecesSplit(codec, text, next, target);
      PiecesOf(codec, text, index);
      assert [piece] + (PiecesTo(codec, text, next, target) + Pieces(codec, text, target))
          == ([piece] + PiecesTo(codec, text, next, target)) + Pieces(codec, text, target);
    }
  }

  lemma {:induction false} PiecesToCover<V>(codec: Codec<V>, text: string, index: nat, target: nat)
    requires index <= target <= |text| && ComesTo(codec, text, index, target)
    ensures Source(PiecesTo(codec, text, index, target)) == text[index..target]
    decreases target - index
  {
    if index < target {
      var (piece, next) := PieceAt(codec, text, index);
      PiecesToCover(codec, text, next, target);
      PiecesOf(codec, text, index);
      assert PiecesTo(codec, text, index, target)[1..] == PiecesTo(codec, text, next, target);
      assert text[index..target] == text[index..next] + text[next..target];
    }
  }

  /** Where pieces end in the text, the pass stands. */
  lemma {:induction false} PiecesStand<V>(codec: Codec<V>, text: string, index: nat, target: nat, before: seq<Piece<V>>)
    requires index <= target <= |text| && before <= Pieces(codec, text, index) && Source(before) == text[index..target]
    ensures ComesTo(codec, text, index, target)
    decreases target - index
  {
    if index < target {
      var (piece, next) := PieceAt(codec, text, index);
      PiecesOf(codec, text, index);
      assert before != [];
      assert before[0] == piece;
      assert before[1..] <= Pieces(codec, text, next);
      SourceAfter(text, index, next, target, before);
      PiecesStand(codec, text, next, target, before[1..]);
    }
  }

  lemma SourceAfter<V>(text: string, index: nat, next: nat, target: nat, before: seq<Piece<V>>)
    requires index < next <= |text| && index <= target <= |text| && before != [] && Source(before) == text[index..target]
    requires (match before[0] case Kept(c) => [c] case Replaced(slice, _) => slice) == text[index..next]
    ensures next <= target && Source(before[1..]) == text[next..target]
  {
    assert Source(before) == text[index..next] + Source(before[1..]);
    assert |Source(before)| == target - index;
    assert Source(before[1..]) == Source(before)[next - index..];
  }

  /** The text from `start` to `end` is one replaced piece of the pass, after pieces that
      make up what precedes it and before the pieces of what follows. */
  ghost predicate IsReplaced<V>(codec: Codec<V>, text: string, before: seq<Piece<V>>, start: nat, end: nat, value: V) {
    && start <= end <= |text| && Source(before) == text[0..start]
    && Pieces(codec, text, 0) == before + ([Replaced(text[start..end], value)] + Pieces(codec, text, end))
  }

  ghost predicate ReplacedWhole<V(!new)>(codec: Codec<V>, text: string, start: nat, end: nat, value: V) {
    exists before :: IsReplaced(codec, text, before, start, end, value)
  }

  lemma ReplacedExactly<V(!new)>(codec: Codec<V>, text: string, start: nat, end: nat, value: V)
    requires start < |text| && ParsedAt(codec, text, start) == Some((value, end))
    ensures ComesTo(codec, text, 0, start) <==> ReplacedWhole(codec, text, start, end, value)
  {
    if ComesTo(codec, text, 0, start) {
      PiecesSplit(codec, text, 0, start);
      PiecesToCover(codec, text, 0, start);
      PiecesOf(codec, text, start);
      assert IsReplaced(codec, text, PiecesTo(codec, text, 0, start), start, end, value);
    }
    if before :| IsReplaced(codec, text, before, start, end, value) {
      PiecesStand(codec, text, 0, start, before);
    }
  }

  /** A JSON object or array in a message is one replaced piece exactly when no piece
      that starts before it reaches into it. */
  lemma EmbeddedJsonIsReplaced<V(!new)>(codec: Codec<V>, prefix: string, j: Json, suffix: string)
    requires Valid(j) && (j.Array? || j.Object?) && codec.parse(Print(j)).Some?
    ensures var text, start, value := prefix + Print(j) + suffix, |prefix|, codec.parse(Print(j)).value;
      ComesTo(codec, text, 0, start) <==> ReplacedWhole(codec, text, start, start + |Print(j)|, value)
  {
    EmbeddedJsonIsParsed(codec, prefix, j, suffix);
    ReplacedExactly(codec, prefix + Print(j) + suffix, |prefix|, |prefix| + |Print(j)|, codec.parse(Print(j)).value);
  }

  /** A prefix without opening brackets is always passed character by character. */
  lemma {:induction false} PlainPrefixIsPassed<V>(codec: Codec<V>, text: string, index: nat, target: nat)
    requires index <= target <= |text|
    requires forall i | index <= i < target :: text[i] != '{' && text[i] != '['
    ensures ComesTo(codec, text, index, target)
    decreases target - index
  {
    if index < target {
      PlainPrefixIsPassed(codec, text, index + 1, target);
    }
  }

  lemma {:induction false} ComesThrough<V>(codec: Codec<V>, text: string, index: nat, middle: nat, target: nat)
    requires index <= middle <= target <= |text| && ComesTo(codec, text, index, middle) && ComesTo(codec, text, index, target)
    ensures ComesTo(codec, text, middle, target)
    decreases middle - index
  {
    if index < middle {
      ComesThrough(codec, text, PieceAt(codec, text, index).1, middle, target);
    }
  }

  /** Where the pass reaches one object or array, it never stands inside it: what looks
      like another one in there, even one that goes on beyond it, is not replaced whole. */
  lemma InsideIsPassedOver<V>(codec: Codec<V>, prefix: string, j: Json, suffix: string, inside: nat)
    requires Valid(j) && (j.Array? || j.Object?) && codec.parse(Print(j)).Some?
    requires ComesTo(codec, prefix + Print(j) + suffix, 0, |prefix|)
    requires |prefix| < inside < |prefix| + |Print(j)|
    ensures !ComesTo(codec, prefix + Print(j) + suffix, 0, inside)
  {
    var text := prefix + Print(j) + suffix;
    EmbeddedJsonIsParsed(codec, prefix, j, suffix);
    if ComesTo(codec, text, 0, inside) {
      ComesThrough(codec, text, 0, |prefix|, inside);
    }
  }
}
