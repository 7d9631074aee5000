/** Attributed context of one user message: which entries are accepted, how they
    are rendered, and that the rendering can be read back. */
module TurnContext {
  import opened Base

  const PLUGIN_SOURCE := "plugin:"
  const SURFACE_SOURCE := "surface"
  const MAX_SOURCE_BYTES: nat := 64
  const MAX_TEXT_BYTES: nat := 256
  const MAX_TOTAL_TEXT_BYTES: nat := 1024

  datatype Error = InvalidSource | InvalidText | DuplicateSource | TooLarge

  datatype Entry = Entry(source: string, text: string)

  // Accepting ---------------------------------------------------------------

  predicate LowerOrDigit(c: char) {
    'a' <= c <= 'z' || '0' <= c <= '9'
  }

  predicate PluginName(name: string) {
    && name != [] && LowerOrDigit(name[0])
    && (forall c | c in name :: LowerOrDigit(c) || c == '.' || c == '_' || c == '-')
  }

  predicate SourceOk(source: string) {
    || source == SURFACE_SOURCE
    || (PLUGIN_SOURCE <= source && ByteLen(source) <= MAX_SOURCE_BYTES && PluginName(source[|PLUGIN_SOURCE|..]))
  }

  predicate IsControl(c: char) {
    c as int < 0x20 || 0x7F <= c as int < 0xA0
  }

  predicate TextOk(text: string) {
    !Blank(text) && ByteLen(text) <= MAX_TEXT_BYTES && forall c | c in text :: IsControl(c) ==> c == '\n'
  }

  function NewEntry(source: string, text: string): Result<Entry, Error> {
    if !SourceOk(source) then Err(InvalidSource)
    else if !TextOk(text) then Err(InvalidText)
    else Ok(Entry(source, text))
  }

  function TotalBytes(entries: seq<Entry>): nat {
    if entries == [] then 0 else TotalBytes(entries[..|entries| - 1]) + ByteLen(entries[|entries| - 1].text)
  }

  predicate DistinctSources(entries: seq<Entry>) {
    forall i, j | 0 <= i < j < |entries| :: entries[i].source != entries[j].source
  }

  /** Entries that can be admitted together. */
  predicate Accepted(entries: seq<Entry>) {
    && (forall i | 0 <= i < |entries| :: NewEntry(entries[i].source, entries[i].text).Ok?)
    && DistinctSources(entries) && TotalBytes(entries) <= MAX_TOTAL_TEXT_BYTES
  }

  /** Checks sources with a growing set, then the total size. */
  method NewContext(entries: seq<Entry>) returns (error: Option<Error>)
    ensures error == if !DistinctSources(entries) then Some(DuplicateSource)
                     else if TotalBytes(entries) > MAX_TOTAL_TEXT_BYTES then Some(TooLarge) else None
  {
    var sources: set<string> := {};
    for i := 0 to |entries|
      invariant forall source :: source in sources <==> exists j :: 0 <= j < i && entries[j].source == source
      invariant DistinctSources(entries[..i])
    {
      if entries[i].source in sources {
        return Some(DuplicateSource);
      }
      sources := sources + {entries[i].source};
    }
    assert entries[..|entries|] == entries;
    var total := 0;
    for i := 0 to |entries|
      invariant total == TotalBytes(entries[..i])
    {
      assert entries[..i + 1][..i] == entries[..i];
      total := total + ByteLen(entries[i].text);
    }
    return if total > MAX_TOTAL_TEXT_BYTES then Some(TooLarge) else None;
  }

  // Escaping ----------------------------------------------------------------

  function Replace(text: string, from: char, to: string): string {
    if text == [] then [] else (if text[0] == from then to else [text[0]]) + Replace(text[1..], from, to)
  }

  const AMP := "&amp;"
  const LT := "&lt;"
  const GT := "&gt;"

  /** Three replacements, one after the other. */
  function Escape(text: string): string {
    Replace(Replace(Replace(text, '&', AMP), '<', LT), '>', GT)
  }

  function EscapeChar(c: char): string {
    if c == '&' then AMP else if c == '<' then LT else if c == '>' then GT else [c]
  }

  function EscapeEach(text: string): string {
    if text == [] then [] else EscapeChar(text[0]) + EscapeEach(text[1..])
  }

  lemma {:induction false} ReplaceConcat(a: string, b: string, from: char, to: string)
    ensures Replace(a + b, from, to) == Replace(a, from, to) + Replace(b, from, to)
  {
    if a == [] {
      assert a + b == b;
    } else {
      assert (a + b)[1..] == a[1..] + b;
      ReplaceConcat(a[1..], b, from, to);
    }
  }

  lemma {:induction false} ReplaceAbsent(text: string, from: char, to: string)
    requires from !in text
    ensures Replace(text, from, to) == text
  {
    if text != [] {
      ReplaceAbsent(text[1..], from, to);
    }
  }

  lemma ReplaceOne(c: char, from: char, to: string)
    ensures Replace([c], from, to) == if c == from then to else [c]
  {
    assert [c][1..] == [];
    assert to + [] == to;
  }

  lemma EscapeOneChar(c: char)
    ensures Escape([c]) == EscapeChar(c)
  {
    ReplaceOne(c, '&', AMP);
    ReplaceOne(c, '<', LT);
    ReplaceOne(c, '>', GT);
    ReplaceAbsent(AMP, '<', LT);
    ReplaceAbsent(AMP, '>', GT);
    ReplaceAbsent(LT, '>', GT);
  }

  /** The three replacements in sequence are one replacement per character. */
  lemma {:induction false} EscapeIsPerCharacter(text: string)
    ensures Escape(text) == EscapeEach(text)
  {
    if text != [] {
      var head, tail := [text[0]], text[1..];
      assert text == head + tail;
      EscapeOneChar(text[0]);
      EscapeIsPerCharacter(tail);
      ReplaceConcat(head, tail, '&', AMP);
      ReplaceConcat(Replace(head, '&', AMP), Replace(tail, '&', AMP), '<', LT);
      ReplaceConcat(Replace(Replace(head, '&', AMP), '<', LT), Replace(Replace(tail, '&', AMP), '<', LT), '>', GT);
    }
  }

  /** Escaped text can open or close no tag. */
  lemma {:induction false} EscapedHasNoBrackets(text: string)
    ensures '<' !in EscapeEach(text) && '>' !in EscapeEach(text)
  {
    if text != [] {
      EscapedHasNoBrackets(text[1..]);
    }
  }

  /** Reads escaped text back, or refuses what no escape produces. */
  function Unescape(text: string): Option<string>
    decreases |text|
  {
    if text == [] then Some([])
    else
      var (c, n) :=
        if AMP <= text then ('&', |AMP|) else if LT <= text then ('<', |LT|) else if GT <= text then ('>', |GT|)
        else (text[0], 1);
      if c == '&' && n == 1 then None
      else match Unescape(text[n..])
        case None => None
        case Some(rest) => Some([c] + rest)
  }

  lemma {:induction false} UnescapeUndoes(text: string)
    ensures Unescape(EscapeEach(text)) == Some(text)
  {
    if text != [] {
      UnescapeUndoes(text[1..]);
      var head, rest := EscapeChar(text[0]), EscapeEach(text[1..]);
      assert (head + rest)[|head|..] == rest;
      assert text == [text[0]] + text[1..];
      UnescapeHead(text[0], rest);
    }
  }

  lemma UnescapeHead(c: char, rest: string)
    requires Unescape(rest).Some?
    ensures Unescape(EscapeChar(c) + rest) == Some([c] + Unescape(rest).value)
  {
    var text := EscapeChar(c) + rest;
    assert text[|EscapeChar(c)|..] == rest;
    if c == '&' {
      assert AMP <= text;
    } else if c == '<' {
      assert text[1] == 'l' && LT <= text;
    } else if c == '>' {
      assert text[1] == 'g' && GT <= text;
    } else {
      assert text[0] == c;
    }
  }

  // Rendering ---------------------------------------------------------------

  /** The fixed text around entries. */
  datatype Tags = Tags(head: string, open: string, mid: string, close: string, tail: string)

  const TAGS := Tags("<turn_context>", "\n<context source=\"", "\">\n", "</context>", "\n</turn_context>")

  /** What makes a rendering readable. */
  predicate Separates(tags: Tags) {
    && tags.open != [] && !(tags.open <= tags.tail)
    && tags.mid != [] && tags.mid[0] == '"'
    && tags.close != [] && tags.close[0] == '<'
  }

  lemma TagsSeparate()
    ensures Separates(TAGS)
  {
    assert TAGS.open[2] == 'c' && TAGS.tail[2] == '/';
  }

  function RenderEntry(tags: Tags, entry: Entry): string {
    tags.open + entry.source + tags.mid + (Escape(entry.text) + "\n") + tags.close
  }

  function RenderEntries(tags: Tags, entries: seq<Entry>): string {
    if entries == [] then tags.tail else RenderEntry(tags, entries[0]) + RenderEntries(tags, entries[1..])
  }

  function Render(tags: Tags, entries: seq<Entry>): string {
    tags.head + RenderEntries(tags, entries)
  }

  /** Appends entry by entry to one string. */
  method ModelContext(tags: Tags, entries: seq<Entry>) returns (rendered: string)
    ensures rendered == Render(tags, entries)
  {
    rendered := tags.head;
    for i := 0 to |entries|
      invariant rendered + RenderEntries(tags, entries[i..]) == Render(tags, entries)
    {
      assert entries[i..][1..] == entries[i + 1..];
      RenderNext(tags, entries[i], RenderEntries(tags, entries[i + 1..]), rendered);
      rendered := rendered + tags.open;
      rendered := rendered + entries[i].source;
      rendered := rendered + tags.mid;
      rendered := rendered + Escape(entries[i].text);
      rendered := rendered + "\n" + tags.close;
    }
    rendered := rendered + tags.tail;
  }

  lemma RenderNext(tags: Tags, entry: Entry, rest: string, done: string)
    ensures done + (RenderEntry(tags, entry) + rest)
         == (done + tags.open + entry.source + tags.mid + Escape(entry.text) + "\n" + tags.close) + rest
  {
  }

  // Reading back ------------------------------------------------------------

  /** How many characters come before the first `c`. */
  function Until(text: string, c: char): (n: nat)
    ensures n <= |text| && c !in text[..n] && (n < |text| ==> text[n] == c)
  {
    if text == [] || text[0] == c then 0
    else
      var n := 1 + Until(text[1..], c);
      assert text[..n] == [text[0]] + text[1..][..n - 1];
      n
  }

  /** The source of an entry and what follows its opening tag. */
  function SplitSource(tags: Tags, text: string): (split: Option<(string, string)>)
    ensures split.Some? ==> |split.value.1| <= |text|
  {
    if !(tags.open <= text) then None
    else
      var named := text[|tags.open|..];
      var n := Until(named, '"');
      if !(tags.mid <= named[n..]) then None else Some((named[..n], named[n..][|tags.mid|..]))
  }

  /** The text of an entry and what follows its closing tag. */
  function SplitText(tags: Tags, text: string): (split: Option<(string, string)>)
    requires tags.close != []
    ensures split.Some? ==> |split.value.1| < |text|
  {
    var n := Until(text, '<');
    if n == 0 || text[n - 1] != '\n' || !(tags.close <= text[n..]) then None
    else match Unescape(text[..n - 1])
      case None => None
      case Some(content) => Some((content, text[n..][|tags.close|..]))
  }

  function ParseEntries(tags: Tags, text: string): Option<seq<Entry>>
    requires Separates(tags)
    decreases |text|
  {
    if text == tags.tail then Some([])
    else match SplitSource(tags, text)
      case None => None
      case Some((source, filled)) =>
        (match SplitText(tags, filled)
         case None => None
         case Some((content, rest)) =>
           (match ParseEntries(tags, rest)
            case None => None
            case Some(entries) => Some([Entry(source, content)] + entries)))
  }

  function Parse(tags: Tags, text: string): Option<seq<Entry>>
    requires Separates(tags)
  {
    if tags.head <= text then ParseEntries(tags, text[|tags.head|..]) else None
  }

  lemma UntilAt(a: string, b: string, c: char)
    requires c !in a && b != [] && b[0] == c
    ensures Until(a + b, c) == |a|
  {
    var text := a + b;
    assert text[|a|] == c;
    assert forall i | 0 <= i < |a| :: text[i] == a[i] && a[i] in a;
    forall k | |a| < k <= |text| ensures c in text[..k] {
      assert text[..k][|a|] == c;
    }
  }

  lemma SourceSplits(tags: Tags, source: string, rest: string)
    requires Separates(tags) && '"' !in source
    ensures SplitSource(tags, tags.open + (source + (tags.mid + rest))) == Some((source, rest))
  {
    var marked := tags.mid + rest;
    var named := source + marked;
    var text := tags.open + named;
    assert text[|tags.open|..] == named;
    UntilAt(source, marked, '"');
    assert named[..|source|] == source && named[|source|..] == marked;
    assert marked[|tags.mid|..] == rest;
  }

  lemma TextSplits(tags: Tags, content: string, rest: string)
    requires Separates(tags)
    ensures SplitText(tags, (EscapeEach(content) + "\n") + (tags.close + rest)) == Some((content, rest))
  {
    var body, closed := EscapeEach(content) + "\n", tags.close + rest;
    EscapedHasNoBrackets(content);
    UntilAt(body, closed, '<');
    var text := body + closed;
    assert text[..|body| - 1] == EscapeEach(content) && text[|body| - 1] == '\n';
    assert text[|body|..] == closed && closed[|tags.close|..] == rest;
    UnescapeUndoes(content);
  }

  lemma RenderShape(tags: Tags, entry: Entry, rest: string)
    ensures RenderEntry(tags, entry) + rest
         == tags.open + (entry.source + (tags.mid + ((EscapeEach(entry.text) + "\n") + (tags.close + rest))))
  {
    EscapeIsPerCharacter(entry.text);
  }

  lemma ParseShape(tags: Tags, text: string, entry: Entry, filled: string, rest: string)
    requires Separates(tags) && tags.open <= text && ParseEntries(tags, rest).Some?
    requires SplitSource(tags, text) == Some((entry.source, filled))
    requires SplitText(tags, filled) == Some((entry.text, rest))
    ensures ParseEntries(tags, text) == Some([entry] + ParseEntries(tags, rest).value)
  {
  }

  lemma ParseFirst(tags: Tags, entry: Entry, rest: string)
    requires Separates(tags) && '"' !in entry.source && ParseEntries(tags, rest).Some?
    ensures ParseEntries(tags, RenderEntry(tags, entry) + rest) == Some([entry] + ParseEntries(tags, rest).value)
  {
    var filled := (EscapeEach(entry.text) + "\n") + (tags.close + rest);
    RenderShape(tags, entry, rest);
    SourceSplits(tags, entry.source, filled);
    TextSplits(tags, entry.text, rest);
    ParseShape(tags, tags.open + (entry.source + (tags.mid + filled)), entry, filled, rest);
  }

  lemma {:induction false} ParseRendered(tags: Tags, entries: seq<Entry>)
    requires Separates(tags) && forall i | 0 <= i < |entries| :: '"' !in entries[i].source
    ensures ParseEntries(tags, RenderEntries(tags, entries)) == Some(entries)
  {
    if entries != [] {
      ParseRendered(tags, entries[1..]);
      ParseFirst(tags, entries[0], RenderEntries(tags, entries[1..]));
      assert [entries[0]] + entries[1..] == entries;
    }
  }

  lemma SourceHasNoQuote(source: string)
    requires SourceOk(source)
    ensures '"' !in source
  {
    if source != SURFACE_SOURCE {
      assert source == PLUGIN_SOURCE + source[|PLUGIN_SOURCE|..];
    }
  }

  /** The rendering of every accepted context reads back to the same sources and
      texts, in order. */
  lemma RenderingIsReadable(entries: seq<Entry>)
    requires Accepted(entries)
    ensures Separates(TAGS) && Parse(TAGS, Render(TAGS, entries)) == Some(entries)
  {
    TagsSeparate();
    forall i | 0 <= i < |entries| ensures '"' !in entries[i].source {
      SourceHasNoQuote(entries[i].source);
    }
    ParseRendered(TAGS, entries);
    ParseHead(TAGS, RenderEntries(TAGS, entries));
  }

  lemma ParseHead(tags: Tags, rest: string)
    requires Separates(tags)
    ensures Parse(tags, tags.head + rest) == ParseEntries(tags, rest)
  {
    assert (tags.head + rest)[|tags.head|..] == rest;
  }
}
