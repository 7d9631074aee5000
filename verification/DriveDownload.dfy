/** Downloading a file in ranges: reading a bounded body, checking a partial
    response, and following the offsets until the file is complete. */
module DriveDownload {
  import opened Base

  newtype byte = n: int | 0 <= n < 256

  const MAX_SAFE: nat := 9007199254740991

  // Reading a body ----------------------------------------------------------

  /** One result of a stream reader; `NoValue` carries no bytes object. */
  datatype Read = Data(bytes: seq<byte>) | NoValue

  function BytesOf(read: Read): seq<byte> {
    if read.Data? then read.bytes else []
  }

  /** Everything a stream delivers. */
  function Flat(parts: seq<Read>): seq<byte> {
    if parts == [] then [] else BytesOf(parts[0]) + Flat(parts[1..])
  }

  /** Whether a read remains once `limit` bytes are taken. */
  predicate MoreAfter(parts: seq<Read>, limit: nat) {
    if limit == 0 then parts != []
    else if parts == [] then false
    else |BytesOf(parts[0])| > limit || MoreAfter(parts[1..], limit - |BytesOf(parts[0])|)
  }

  function Head(bytes: seq<byte>, limit: nat): (head: seq<byte>)
    ensures head <= bytes && |head| == if |bytes| < limit then |bytes| else limit
  {
    if |bytes| < limit then bytes else bytes[..limit]
  }

  lemma {:induction false} FlatConcat(a: seq<Read>, b: seq<Read>)
    ensures Flat(a + b) == Flat(a) + Flat(b)
  {
    if a == [] {
      assert a + b == b;
    } else {
      assert (a + b)[1..] == a[1..] + b;
      FlatConcat(a[1..], b);
    }
  }

  /** More remains when the body is longer than the limit, and not when it is shorter;
      only a body of exactly that length can be followed by empty reads. */
  lemma {:induction false} MoreMeansLonger(parts: seq<Read>, limit: nat)
    ensures |Flat(parts)| > limit ==> MoreAfter(parts, limit)
    ensures |Flat(parts)| < limit ==> !MoreAfter(parts, limit)
    ensures (forall i | 0 <= i < |parts| :: BytesOf(parts[i]) != []) ==> (MoreAfter(parts, limit) <==> |Flat(parts)| > limit)
  {
    if parts != [] {
      if |BytesOf(parts[0])| <= limit {
        MoreMeansLonger(parts[1..], limit - |BytesOf(parts[0])|);
      }
      assert forall i | 0 <= i < |parts[1..]| :: parts[1..][i] == parts[i + 1];
    }
  }

  /** Copies the chunks into one array. */
  method Join(chunks: seq<seq<byte>>, length: nat) returns (bytes: array<byte>)
    requires length == |Concat(chunks)|
    ensures fresh(bytes) && bytes[..] == Concat(chunks)
  {
    bytes := new byte[length];
    var offset := 0;
    for i := 0 to |chunks|
      invariant offset == |Concat(chunks[..i])| <= length
      invariant bytes[..offset] == Concat(chunks[..i])
    {
      var chunk := chunks[i];
      ConcatOne(chunks, i);
      ConcatPrefix(chunks, i + 1);
      for k := 0 to |chunk|
        invariant bytes[..offset] == Concat(chunks[..i])
        invariant forall j | 0 <= j < k :: bytes[offset + j] == chunk[j]
      {
        bytes[offset + k] := chunk[k];
      }
      assert bytes[..offset + |chunk|] == bytes[..offset] + chunk;
      offset := offset + |chunk|;
    }
    assert chunks[..|chunks|] == chunks;
    assert bytes[..] == bytes[..length];
  }

  function Concat(chunks: seq<seq<byte>>): seq<byte> {
    if chunks == [] then [] else Concat(chunks[..|chunks| - 1]) + chunks[|chunks| - 1]
  }

  lemma ConcatOne(chunks: seq<seq<byte>>, i: nat)
    requires i < |chunks|
    ensures Concat(chunks[..i + 1]) == Concat(chunks[..i]) + chunks[i]
  {
    assert chunks[..i + 1][..i] == chunks[..i];
  }

  lemma {:induction false} ConcatPrefix(chunks: seq<seq<byte>>, n: nat)
    requires n <= |chunks|
    ensures |Concat(chunks[..n])| <= |Concat(chunks)|
    decreases |chunks| - n
  {
    if n < |chunks| {
      ConcatOne(chunks, n);
      ConcatPrefix(chunks, n + 1);
    } else {
      assert chunks[..n] == chunks;
    }
  }

  lemma FlatOne(part: Read)
    ensures Flat([part]) == BytesOf(part)
  {
    assert [part][1..] == [];
  }

  lemma FlatPrefix(parts: seq<Read>, i: nat)
    requires i <= |parts|
    ensures Flat(parts[..i]) <= Flat(parts)
  {
    assert parts == parts[..i] + parts[i..];
    FlatConcat(parts[..i], parts[i..]);
  }

  lemma FlatAt(parts: seq<Read>, i: nat)
    requires i < |parts|
    ensures Flat(parts[..i + 1]) == Flat(parts[..i]) + BytesOf(parts[i])
  {
    assert parts[..i + 1] == parts[..i] + [parts[i]];
    FlatConcat(parts[..i], [parts[i]]);
    FlatOne(parts[i]);
  }

  lemma HeadOfLonger(whole: seq<byte>, read: seq<byte>, extra: seq<byte>, limit: nat)
    requires read + extra <= whole && |read| <= limit && |extra| > limit - |read|
    ensures read + extra[..limit - |read|] == Head(whole, limit)
  {
    assert whole[..|read| + |extra|] == read + extra;
  }

  lemma MoreStep(parts: seq<Read>, i: nat, remaining: nat)
    requires i < |parts| && remaining > 0
    ensures MoreAfter(parts[i..], remaining) <==>
      |BytesOf(parts[i])| > remaining || MoreAfter(parts[i + 1..], remaining - |BytesOf(parts[i])|)
  {
    assert parts[i..][1..] == parts[i + 1..];
  }

  lemma ConcatAppend(chunks: seq<seq<byte>>, chunk: seq<byte>)
    ensures Concat(chunks + [chunk]) == Concat(chunks) + chunk
  {
    assert (chunks + [chunk])[..|chunks|] == chunks;
  }

  /** What the reading loop has kept before read `i`. */
  ghost predicate Collected(parts: seq<Read>, limit: nat, chunks: seq<seq<byte>>, length: nat, i: nat) {
    && i <= |parts| && length == |Concat(chunks)| <= limit
    && Concat(chunks) == Flat(parts[..i]) <= Flat(parts)
    && (MoreAfter(parts, limit) <==> MoreAfter(parts[i..], limit - length))
  }

  lemma CollectsAll(parts: seq<Read>, limit: nat, chunks: seq<seq<byte>>, length: nat, i: nat)
    requires Collected(parts, limit, chunks, length, i) && length < limit && i < |parts|
    requires length + |BytesOf(parts[i])| <= limit
    ensures Collected(parts, limit, if parts[i].Data? then chunks + [parts[i].bytes] else chunks, length + |BytesOf(parts[i])|, i + 1)
  {
    FlatAt(parts, i);
    FlatPrefix(parts, i + 1);
    MoreStep(parts, i, limit - length);
    if parts[i].Data? {
      ConcatAppend(chunks, parts[i].bytes);
    }
  }

  lemma CollectsHead(parts: seq<Read>, limit: nat, chunks: seq<seq<byte>>, length: nat, i: nat)
    requires Collected(parts, limit, chunks, length, i) && length < limit && i < |parts|
    requires length + |BytesOf(parts[i])| > limit
    ensures Concat(chunks + [Head(BytesOf(parts[i]), limit - length)]) == Head(Flat(parts), limit) && MoreAfter(parts, limit)
  {
    FlatAt(parts, i);
    FlatPrefix(parts, i + 1);
    MoreStep(parts, i, limit - length);
    ConcatAppend(chunks, Head(BytesOf(parts[i]), limit - length));
    HeadOfLonger(Flat(parts), Concat(chunks), BytesOf(parts[i]), limit);
  }

  lemma CollectsEnd(parts: seq<Read>, limit: nat, chunks: seq<seq<byte>>, length: nat, i: nat)
    requires Collected(parts, limit, chunks, length, i) && (length == limit || i == |parts|)
    ensures Concat(chunks) == Head(Flat(parts), limit) && (MoreAfter(parts, limit) <==> length == limit && i < |parts|)
  {
    assert i == |parts| ==> parts[..i] == parts;
  }

  lemma CollectsNone(parts: seq<Read>, limit: nat)
    ensures Collected(parts, limit, [], 0, 0)
  {
    assert parts[..0] == [] && parts[0..] == parts;
  }

  /** The reading loop: the chunks kept, their length, and whether more was there. */
  method Collect(parts: seq<Read>, limit: nat) returns (chunks: seq<seq<byte>>, length: nat, truncated: bool)
    ensures length == |Concat(chunks)| && Concat(chunks) == Head(Flat(parts), limit)
    ensures truncated <==> MoreAfter(parts, limit)
  {
    chunks, length, truncated := [], 0, false;
    var i := 0;
    CollectsNone(parts, limit);
    while length < limit && i < |parts|
      invariant Collected(parts, limit, chunks, length, i)
      decreases |parts| - i
    {
      if parts[i].Data? {
        var retained := Head(parts[i].bytes, limit - length);
        if |retained| < |parts[i].bytes| {
          CollectsHead(parts, limit, chunks, length, i);
          return chunks + [retained], length + |retained|, true;
        }
        CollectsAll(parts, limit, chunks, length, i);
        chunks, length := chunks + [retained], length + |retained|;
      } else {
        CollectsAll(parts, limit, chunks, length, i);
      }
      i := i + 1;
    }
    CollectsEnd(parts, limit, chunks, length, i);
    truncated := length == limit && i < |parts|;
  }

  /** Reads at most `limit` bytes into one array, and whether the stream had more to say. */
  method ReadAtMost(parts: seq<Read>, limit: nat) returns (bytes: array<byte>, truncated: bool)
    ensures fresh(bytes) && bytes[..] == Head(Flat(parts), limit)
    ensures truncated <==> MoreAfter(parts, limit)
  {
    var chunks, length, more := Collect(parts, limit);
    bytes := Join(chunks, length);
    truncated := more;
  }

  // One chunk ---------------------------------------------------------------

  /** A `bytes start-end/total` header; the total may be unknown. */
  datatype ContentRange = ContentRange(start: nat, end: nat, total: Option<nat>)

  /** What the server answers: the whole file, a part, or a refusal. */
  datatype Response =
    | Whole(parts: seq<Read>)
    | Partial(range: Option<ContentRange>, parts: seq<Read>)
    | Refusal

  /** The total of a partial response that is what was asked for. */
  function RequireContentRange(range: Option<ContentRange>, requestedStart: nat, received: nat, truncated: bool)
    : Result<Option<nat>, ()>
  {
    match range
    case None => Err(())
    case Some(ContentRange(start, end, total)) =>
      if start > MAX_SAFE || end > MAX_SAFE || start != requestedStart || end < start || end - start + 1 != received || truncated
      then Err(())
      else if total.Some? && (total.value > MAX_SAFE || total.value <= end) then Err(())
      else Ok(total)
  }

  datatype Chunk = Chunk(bytes: seq<byte>, complete: bool)

  function Slice(bytes: seq<byte>, from: nat, length: nat): seq<byte> {
    if from >= |bytes| then [] else Head(bytes[from..], length)
  }

  function ChunkOf(response: Response, offset: nat, maxBytes: nat): Result<Chunk, ()> {
    match response
    case Refusal => Err(())
    case Partial(range, parts) =>
      var received := Head(Flat(parts), maxBytes + 1);
      var total :- RequireContentRange(range, offset, |received|, MoreAfter(parts, maxBytes + 1));
      var bytes := Head(received, maxBytes);
      Ok(Chunk(bytes, total.Some? && offset + |bytes| >= total.value))
    case Whole(parts) =>
      var received := Head(Flat(parts), offset + maxBytes + 1);
      var bytes := Slice(received, offset, maxBytes);
      Ok(Chunk(bytes, !MoreAfter(parts, offset + maxBytes + 1) && |received| <= offset + |bytes|))
  }

  /** One request: the body is read, checked and cut. */
  method DownloadChunk(response: Response, offset: nat, maxBytes: nat) returns (chunk: Result<Chunk, ()>)
    ensures chunk == ChunkOf(response, offset, maxBytes)
  {
    match response
    case Refusal => return Err(());
    case Partial(range, parts) =>
      var received, truncated := ReadAtMost(parts, maxBytes + 1);
      var total := RequireContentRange(range, offset, received.Length, truncated);
      if total.Err? {
        return Err(());
      }
      var bytes := Head(received[..], maxBytes);
      return Ok(Chunk(bytes, total.value.Some? && offset + |bytes| >= total.value.value));
    case Whole(parts) =>
      var received, truncated := ReadAtMost(parts, offset + maxBytes + 1);
      var bytes := Slice(received[..], offset, maxBytes);
      return Ok(Chunk(bytes, !truncated && received.Length <= offset + |bytes|));
  }

  // Following the offsets ---------------------------------------------------

  /** A server that tells the truth about one file: the whole of it, a non-empty
      part that starts where asked, or a refusal past its end. Totals may be unknown. */
  ghost predicate Honest(file: seq<byte>, offset: nat, maxBytes: nat, response: Response) {
    match response
    case Whole(parts) => Flat(parts) == file
    case Partial(range, parts) =>
      && range.Some? && range.value.start == offset <= range.value.end < |file|
      && range.value.end < offset + maxBytes
      && Flat(parts) == file[offset..range.value.end + 1]
      && (range.value.total.Some? ==> range.value.total.value == |file|)
    case Refusal => offset >= |file|
  }

  predicate UnknownTotal(response: Response) {
    response.Partial? && response.range.Some? && response.range.value.total.None?
  }

  /** An honest answer extends what was read, and is complete exactly when the file
      is read to its end and its length was known. */
  lemma ChunkExtends(file: seq<byte>, offset: nat, maxBytes: nat, response: Response)
    requires Honest(file, offset, maxBytes, response) && !response.Refusal?
    requires offset <= |file| <= MAX_SAFE && maxBytes >= 1
    ensures var chunk := ChunkOf(response, offset, maxBytes);
      && chunk.Ok?
      && offset + |chunk.value.bytes| <= |file|
      && chunk.value.bytes == file[offset..offset + |chunk.value.bytes|]
      && (chunk.value.complete <==> offset + |chunk.value.bytes| == |file| && !UnknownTotal(response))
      && (!chunk.value.complete ==> |chunk.value.bytes| >= 1)
  {
    match response
    case Partial(range, parts) =>
      assert Head(Flat(parts), maxBytes + 1) == Flat(parts);
      assert Head(Flat(parts), maxBytes) == Flat(parts);
      MoreMeansLonger(parts, maxBytes + 1);
    case Whole(parts) =>
      MoreMeansLonger(parts, offset + maxBytes + 1);
      WholeExtends(file, parts, offset, maxBytes);
  }

  lemma WholeExtends(file: seq<byte>, parts: seq<Read>, offset: nat, maxBytes: nat)
    requires Flat(parts) == file && offset <= |file|
    ensures var received := Head(file, offset + maxBytes + 1);
      var bytes := Slice(received, offset, maxBytes);
      && |bytes| == (if |file| - offset < maxBytes then |file| - offset else maxBytes)
      && bytes == file[offset..offset + |bytes|]
  {
    var received := Head(file, offset + maxBytes + 1);
    if offset < |received| {
      assert received[offset..] <= file[offset..];
    }
  }

  type Server = (nat, nat, nat) -> Response

  /** The answer to request `k` for any offset and page size is honest. */
  ghost predicate HonestServer(file: seq<byte>, server: Server) {
    forall k, offset, maxBytes | maxBytes >= 1 :: Honest(file, offset, maxBytes, server(k, offset, maxBytes))
  }

  /** What following the offsets read, whether the last answer was complete, and how
      many requests it took. */
  datatype Walk = Walk(joined: seq<byte>, complete: bool, requests: nat)

  type PageSize = n: nat | n >= 1 witness 1

  /** From request `k` and what is joined so far; `sizes(k)` is the page size of request `k`. */
  ghost function Follow(file: seq<byte>, server: Server, sizes: nat -> PageSize, k: nat, joined: seq<byte>): Walk
    requires |joined| <= |file| <= MAX_SAFE && HonestServer(file, server)
    decreases |file| - |joined|
  {
    var response := server(k, |joined|, sizes(k));
    if response.Refusal? then Walk(joined, false, k + 1)
    else
      ChunkExtends(file, |joined|, sizes(k), response);
      var chunk := ChunkOf(response, |joined|, sizes(k)).value;
      if chunk.complete then Walk(joined + chunk.bytes, true, k + 1)
      else Follow(file, server, sizes, k + 1, joined + chunk.bytes)
  }

  /** Whatever mix of whole and partial answers and page sizes: the walk ends within
      one request per byte and one more, and has joined exactly the file. */
  lemma {:induction false} WalkReadsTheFile(file: seq<byte>, server: Server, sizes: nat -> PageSize, k: nat, joined: seq<byte>)
    requires |file| <= MAX_SAFE && HonestServer(file, server) && joined <= file
    ensures var walk := Follow(file, server, sizes, k, joined);
      && walk.joined == file
      && k < walk.requests <= k + |file| - |joined| + 1
    decreases |file| - |joined|
  {
    var response := server(k, |joined|, sizes(k));
    if response.Refusal? {
      assert joined == file;
    } else {
      ChunkExtends(file, |joined|, sizes(k), response);
      var chunk := ChunkOf(response, |joined|, sizes(k)).value;
      assert joined + chunk.bytes == file[..|joined| + |chunk.bytes|];
      if !chunk.complete {
        WalkReadsTheFile(file, server, sizes, k + 1, joined + chunk.bytes);
      } else {
        assert file[..|file|] == file;
      }
    }
  }

  // How a walk ends ---------------------------------------------------------

  /** Where an answer to a request for `size` bytes at `offset` takes the walk, read off
      the answer alone: a whole file is cut to the page, a part goes to its range's end. */
  function EndOf(file: seq<byte>, offset: nat, size: nat, response: Response): nat {
    match response
    case Whole(_) => if offset + size <= |file| then offset + size else |file|
    case Partial(Some(range), _) => range.end + 1
    case _ => offset
  }

  /** The walk stops at a refusal, and at the end of a file whose length the answer gives. */
  predicate Stops(file: seq<byte>, offset: nat, size: nat, response: Response) {
    response.Refusal? || (EndOf(file, offset, size, response) == |file| && !UnknownTotal(response))
  }

  /** Where request `n` of a walk starts whose request `k` starts at `offset`, if it is made. */
  function OffsetOf(file: seq<byte>, server: Server, sizes: nat -> PageSize, k: nat, offset: nat, n: nat): Option<nat>
    requires k <= n
    decreases n - k
  {
    var response := server(k, offset, sizes(k));
    if n == k then Some(offset)
    else if Stops(file, offset, sizes(k), response) then None
    else OffsetOf(file, server, sizes, k + 1, EndOf(file, offset, sizes(k), response), n)
  }

  /** Request `n` is made at the end of the file, and refused. */
  ghost predicate RefusedAtEnd(file: seq<byte>, server: Server, sizes: nat -> PageSize, k: nat, offset: nat, n: nat) {
    k <= n && OffsetOf(file, server, sizes, k, offset, n) == Some(|file|) && server(n, |file|, sizes(n)).Refusal?
  }

  ghost predicate EndsRefused(file: seq<byte>, server: Server, sizes: nat -> PageSize, k: nat, offset: nat) {
    exists n :: RefusedAtEnd(file, server, sizes, k, offset, n)
  }

  /** The walk and the offsets read off the answers agree. */
  lemma StepFollows(file: seq<byte>, offset: nat, size: PageSize, response: Response)
    requires offset <= |file| <= MAX_SAFE && Honest(file, offset, size, response) && !response.Refusal?
    ensures var chunk := ChunkOf(response, offset, size);
      && chunk.Ok? && offset + |chunk.value.bytes| == EndOf(file, offset, size, response)
      && (chunk.value.complete <==> Stops(file, offset, size, response))
  {
    ChunkExtends(file, offset, size, response);
    match response
    case Whole(parts) => WholeExtends(file, parts, offset, size);
    case Partial(range, parts) => assert Head(Flat(parts), size + 1) == Flat(parts);
  }

  /** One step of the walk, by the offsets. */
  lemma ChunkFollows(file: seq<byte>, server: Server, size: PageSize, k: nat, joined: seq<byte>)
    requires |file| <= MAX_SAFE && HonestServer(file, server) && joined <= file && !server(k, |joined|, size).Refusal?
    ensures var response := server(k, |joined|, size);
      var chunk, end := ChunkOf(response, |joined|, size), EndOf(file, |joined|, size, response);
      && chunk.Ok? && |joined| <= end <= |file| && joined + chunk.value.bytes == file[..end]
      && (chunk.value.complete <==> Stops(file, |joined|, size, response))
      && (!chunk.value.complete ==> |joined| < end)
  {
    var response := server(k, |joined|, size);
    assert Honest(file, |joined|, size, response);
    ChunkExtends(file, |joined|, size, response);
    StepFollows(file, |joined|, size, response);
    var chunk := ChunkOf(response, |joined|, size).value;
    assert joined + chunk.bytes == file[..|joined| + |chunk.bytes|];
  }

  lemma FollowsOnce(file: seq<byte>, server: Server, sizes: nat -> PageSize, k: nat, joined: seq<byte>)
    requires |file| <= MAX_SAFE && HonestServer(file, server) && joined <= file && !server(k, |joined|, sizes(k)).Refusal?
    ensures var response, walk := server(k, |joined|, sizes(k)), Follow(file, server, sizes, k, joined);
      var end := EndOf(file, |joined|, sizes(k), response);
      && (Stops(file, |joined|, sizes(k), response) ==> walk.complete)
      && (!Stops(file, |joined|, sizes(k), response) ==>
            |joined| < end <= |file| && walk == Follow(file, server, sizes, k + 1, file[..end]))
  {
    ChunkFollows(file, server, sizes(k), k, joined);
  }

  lemma {:induction false} IncompleteExactlyFrom(
    file: seq<byte>, server: Server, sizes: nat -> PageSize, k: nat, joined: seq<byte>)
    requires |file| <= MAX_SAFE && HonestServer(file, server) && joined <= file
    ensures !Follow(file, server, sizes, k, joined).complete <==> EndsRefused(file, server, sizes, k, |joined|)
    decreases |file| - |joined|
  {
    var response := server(k, |joined|, sizes(k));
    if response.Refusal? {
      assert Honest(file, |joined|, sizes(k), response);
      assert RefusedAtEnd(file, server, sizes, k, |joined|, k);
    } else {
      FollowsOnce(file, server, sizes, k, joined);
      if Stops(file, |joined|, sizes(k), response) {
        RefusalsStop(file, server, sizes, k, |joined|);
      } else {
        IncompleteExactlyFrom(file, server, sizes, k + 1, file[..EndOf(file, |joined|, sizes(k), response)]);
        RefusalsShift(file, server, sizes, k, |joined|);
      }
    }
  }

  /** A step that does not stop leaves the later requests as they are. */
  lemma RefusalsShift(file: seq<byte>, server: Server, sizes: nat -> PageSize, k: nat, offset: nat)
    requires !Stops(file, offset, sizes(k), server(k, offset, sizes(k)))
    ensures EndsRefused(file, server, sizes, k, offset) <==>
      EndsRefused(file, server, sizes, k + 1, EndOf(file, offset, sizes(k), server(k, offset, sizes(k))))
  {
    var next, end := k + 1, EndOf(file, offset, sizes(k), server(k, offset, sizes(k)));
    if EndsRefused(file, server, sizes, k, offset) {
      var n :| RefusedAtEnd(file, server, sizes, k, offset, n);
      assert RefusedAtEnd(file, server, sizes, next, end, n);
    }
    if EndsRefused(file, server, sizes, next, end) {
      var n :| RefusedAtEnd(file, server, sizes, next, end, n);
      assert RefusedAtEnd(file, server, sizes, k, offset, n);
    }
  }

  lemma RefusalsStop(file: seq<byte>, server: Server, sizes: nat -> PageSize, k: nat, offset: nat)
    requires Stops(file, offset, sizes(k), server(k, offset, sizes(k))) && !server(k, offset, sizes(k)).Refusal?
    ensures !EndsRefused(file, server, sizes, k, offset)
  {
  }

  /** Request `n` is the first one, or the answer before it reached the end of the file
      without saying so. */
  predicate AsksPastEnd(file: seq<byte>, server: Server, sizes: nat -> PageSize, k: nat, offset: nat, n: nat) {
    || (n == k && offset == |file|)
    || (k < n && ReachesEndUnsaid(file, server, sizes, k, offset, n - 1))
  }

  predicate ReachesEndUnsaid(file: seq<byte>, server: Server, sizes: nat -> PageSize, k: nat, offset: nat, n: nat)
    requires k <= n
  {
    match OffsetOf(file, server, sizes, k, offset, n)
    case None => false
    case Some(before) =>
      var response := server(n, before, sizes(n));
      before < |file| && UnknownTotal(response) && response.range.value.end + 1 == |file|
  }

  lemma {:induction false} ArrivesUnsaid(file: seq<byte>, server: Server, sizes: nat -> PageSize, k: nat, offset: nat, n: nat)
    requires HonestServer(file, server) && offset <= |file| && k <= n
    ensures OffsetOf(file, server, sizes, k, offset, n) == Some(|file|) <==> AsksPastEnd(file, server, sizes, k, offset, n)
    decreases n - k
  {
    if k < n {
      var response := server(k, offset, sizes(k));
      assert Honest(file, offset, sizes(k), response);
      if !Stops(file, offset, sizes(k), response) {
        ArrivesUnsaid(file, server, sizes, k + 1, EndOf(file, offset, sizes(k), response), n);
      }
    }
  }

  /** A download ends incomplete exactly when some request is made past the end of the
      file and refused: the first request for an empty file, or the one after an answer
      that reached the end with an unknown total. */
  lemma IncompleteExactly(file: seq<byte>, server: Server, sizes: nat -> PageSize)
    requires |file| <= MAX_SAFE && HonestServer(file, server)
    ensures !Follow(file, server, sizes, 0, []).complete <==>
      exists n :: AsksPastEnd(file, server, sizes, 0, 0, n) && server(n, |file|, sizes(n)).Refusal?
  {
    IncompleteExactlyFrom(file, server, sizes, 0, []);
    forall n: nat ensures RefusedAtEnd(file, server, sizes, 0, 0, n) <==>
      AsksPastEnd(file, server, sizes, 0, 0, n) && server(n, |file|, sizes(n)).Refusal?
    {
      ArrivesUnsaid(file, server, sizes, 0, 0, n);
    }
  }

  /** A server of a one-byte file that never says the total. */
  function Reticent(k: nat, offset: nat, maxBytes: nat): Response {
    if offset == 0 then Partial(Some(ContentRange(0, 0, None)), [Data([7])]) else Refusal
  }

  lemma ReticentIsHonest()
    ensures HonestServer([7], Reticent)
  {
    FlatOne(Data([7]));
    forall k, offset, maxBytes | maxBytes >= 1 ensures Honest([7], offset, maxBytes, Reticent(k, offset, maxBytes)) {
      assert [7 as byte][0..1] == [7];
    }
  }

  /** The whole file is read, in two requests, and the walk does not end complete. */
  lemma ReticentEndsIncomplete(sizes: nat -> PageSize)
    ensures HonestServer([7], Reticent)
    ensures Follow([7], Reticent, sizes, 0, []) == Walk([7], false, 2)
  {
    ReticentIsHonest();
    ChunkExtends([7], 0, sizes(0), Reticent(0, 0, sizes(0)));
    StepFollows([7], 0, sizes(0), Reticent(0, 0, sizes(0)));
    var chunk := ChunkOf(Reticent(0, 0, sizes(0)), 0, sizes(0)).value;
    assert [] + chunk.bytes == [7 as byte] && !chunk.complete;
    assert Reticent(1, 1, sizes(1)).Refusal?;
    assert Follow([7], Reticent, sizes, 1, [7]) == Walk([7], false, 2);
  }
}
