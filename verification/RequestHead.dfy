/** Reading a request head up to its blank line (section 2.1 of RFC 9112), scanning only new bytes. */
module RequestHead {
  import opened Basics
  import opened Octets
  import opened Streams

  const MAX_HEADER: nat := 8 * 1024
  const CHUNK: nat := 1024

  /** CR LF CR LF. */
  const TERMINATOR: Bytes := [13, 10, 13, 10]

  predicate TerminatorAt(b: Bytes, i: nat) { i + 4 <= |b| && b[i..i + 4] == TERMINATOR }

  /** A scan of the whole buffer. */
  ghost predicate Terminated(b: Bytes) { exists i :: TerminatorAt(b, i) }

  /** windows(4).any(...) from an offset. */
  method ScanFrom(b: Bytes, from: nat) returns (found: bool)
    requires from <= |b|
    ensures found <==> exists i :: from <= i && TerminatorAt(b, i)
  {
    var i := from;
    while i + 4 <= |b|
      invariant from <= i
      invariant forall k :: from <= k < i ==> !TerminatorAt(b, k)
      decreases |b| - i
    {
      if b[i..i + 4] == TERMINATOR {
        assert TerminatorAt(b, i);
        return true;
      }
      i := i + 1;
    }
    return false;
  }

  function Overlap(n: nat): nat { if n >= 3 then n - 3 else 0 }

  /** With no terminator before, going back three bytes is enough to find one in the longer buffer. */
  lemma OverlapSuffices(a: Bytes, c: Bytes)
    requires !Terminated(a)
    ensures Terminated(a + c) <==> exists i :: Overlap(|a|) <= i && TerminatorAt(a + c, i)
  {
    forall i: nat | TerminatorAt(a + c, i) ensures Overlap(|a|) <= i {
      assert i + 4 <= |a| ==> (a + c)[i..i + 4] == a[i..i + 4];
      assert !TerminatorAt(a, i);
    }
  }

  datatype Outcome = Head(bytes: Bytes) | TooLarge | ReadFailed

  /** Reading with a full rescan after every read: stop at a terminator, at a buffer over the limit, at
      the end of the stream, or where it breaks. */
  ghost function FullRescan(chunks: seq<Bytes>, breaks: bool, buf: Bytes): (Outcome, seq<Bytes>)
    requires NonEmpty(chunks)
    decreases |Concat(chunks)|
  {
    if Terminated(buf) then (Head(buf), chunks)
    else if |buf| > MAX_HEADER then (TooLarge, chunks)
    else if chunks == [] then (if breaks then ReadFailed else Head(buf), chunks)
    else
      ReadSplits(chunks, CHUNK);
      FullRescan(AfterRead(chunks, CHUNK), breaks, buf + FirstRead(chunks, CHUNK))
  }

  /** read_request_head agrees with the full rescan, outcome and rest of the stream, for every chunking. */
  method ReadRequestHead(stream: Stream) returns (out: Outcome)
    requires stream.Valid()
    modifies stream
    ensures stream.Valid() && (out, stream.chunks) == FullRescan(old(stream.chunks), stream.breaks, [])
  {
    var buf: Bytes := [];
    var from: nat := 0;
    while true
      invariant stream.Valid() && from <= |buf|
      invariant Terminated(buf) <==> exists i :: from <= i && TerminatorAt(buf, i)
      invariant FullRescan(stream.chunks, stream.breaks, buf) == FullRescan(old(stream.chunks), stream.breaks, [])
      decreases |stream.Contents()|
    {
      var found := ScanFrom(buf, from);
      if found { return Head(buf); }
      if |buf| > MAX_HEADER { return TooLarge; }
      from := Overlap(|buf|);
      var more, ok := stream.Read(CHUNK);
      if !ok { return ReadFailed; }
      if more == [] { return Head(buf); }
      OverlapSuffices(buf, more);
      buf := buf + more;
    }
  }

  /** What the reader returns: a prefix of the stream that, with the rest, is the whole stream; no longer
      than the limit plus one read; and terminated, unless the stream ended first. */
  lemma {:induction false} HeadIs(chunks: seq<Bytes>, breaks: bool, buf: Bytes)
    requires NonEmpty(chunks) && |buf| <= MAX_HEADER + CHUNK
    ensures var (out, rest) := FullRescan(chunks, breaks, buf);
      && NonEmpty(rest)
      && (out.Head? ==> out.bytes + Concat(rest) == buf + Concat(chunks) && |out.bytes| <= MAX_HEADER + CHUNK)
      && (out.Head? ==> Terminated(out.bytes) || (rest == [] && !breaks))
      && (out.ReadFailed? ==> breaks && rest == [] && !Terminated(buf + Concat(chunks)))
      && (out.TooLarge? ==> |buf + Concat(chunks)| > MAX_HEADER && |Concat(rest)| < |buf + Concat(chunks)| - MAX_HEADER)
    decreases |Concat(chunks)|
  {
    assert chunks == [] ==> buf + Concat(chunks) == buf;
    if !Terminated(buf) && |buf| <= MAX_HEADER && chunks != [] {
      ReadSplits(chunks, CHUNK);
      HeadIs(AfterRead(chunks, CHUNK), breaks, buf + FirstRead(chunks, CHUNK));
      assert buf + FirstRead(chunks, CHUNK) + Concat(AfterRead(chunks, CHUNK)) == buf + Concat(chunks);
    }
  }

  /** A head is not read past the read that completes its terminator: without that last read there is none. */
  lemma {:induction false} StopsAtFirst(chunks: seq<Bytes>, breaks: bool, buf: Bytes) returns (before: Bytes)
    requires NonEmpty(chunks) && !Terminated(buf) && |buf| <= MAX_HEADER + CHUNK
    ensures var (out, _) := FullRescan(chunks, breaks, buf);
      out.Head? && Terminated(out.bytes) ==>
        before < out.bytes && |out.bytes| - |before| <= CHUNK && !Terminated(before)
    decreases |Concat(chunks)|
  {
    before := buf;
    if |buf| <= MAX_HEADER && chunks != [] {
      ReadSplits(chunks, CHUNK);
      var longer := buf + FirstRead(chunks, CHUNK);
      if !Terminated(longer) { before := StopsAtFirst(AfterRead(chunks, CHUNK), breaks, longer); }
    }
  }

  /** The head is peeked and then replayed in front of the rest: the handshake sees the stream as it was. */
  method PeekAndReplay(stream: Stream) returns (out: Outcome, replay: PrefixedStream?)
    requires stream.Valid()
    modifies stream
    ensures out.Head? <==> replay != null
    ensures replay != null ==> fresh(replay) && replay.Valid() && replay.Contents() == old(stream.Contents())
    ensures out.Head? ==> out.bytes <= old(stream.Contents()) && |out.bytes| <= MAX_HEADER + CHUNK
  {
    ghost var chunks := stream.chunks;
    out := ReadRequestHead(stream);
    HeadIs(chunks, stream.breaks, []);
    assert [] + Concat(chunks) == Concat(chunks);
    replay := null;
    if out.Head? {
      replay := new PrefixedStream(out.bytes, stream);
      assert out.bytes + stream.Contents() == Concat(chunks);
    }
  }
}
