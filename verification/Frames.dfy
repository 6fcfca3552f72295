/** Length-delimited frames on the worker stream. */
module Frames {
  import opened Basics
  import opened Octets
  import opened Streams

  const MAX_FRAME: nat := 1024 * 1024

  predicate InRange(n: nat) { 0 < n <= MAX_FRAME }

  datatype Parsed = Frame(bytes: Bytes) | UnexpectedEof | Broken | InvalidData

  /** Too few bytes: the stream ended, or broke. */
  function Short(breaks: bool): Parsed { if breaks then Broken else UnexpectedEof }

  /** One frame off the front of a byte string, and what is left. */
  function Parse(b: Bytes, breaks: bool): (Parsed, Bytes)
  {
    if |b| < 4 then (Short(breaks), [])
    else
      var len := Number(b[..4]);
      if !InRange(len) then (InvalidData, b[4..])
      else if |b| < 4 + len then (Short(breaks), [])
      else (Frame(b[4..4 + len]), b[4 + len..])
  }

  /** read_len_frame over any chunking reads exactly what is parsed off the byte string. */
  method ReadLenFrame(r: Stream) returns (out: Parsed)
    requires r.Valid()
    modifies r
    ensures r.Valid() && (out, r.Contents()) == Parse(old(r.Contents()), r.breaks)
  {
    ghost var all := r.Contents();
    var head := r.ReadExact(4);
    if head.None? { return Short(r.breaks); }
    var len := Number(head.value);
    if len == 0 || len > MAX_FRAME { return InvalidData; }
    var frame := r.ReadExact(len);
    if frame.None? { return Short(r.breaks); }
    assert all[4..][..len] == all[4..4 + len] && all[4..][len..] == all[4 + len..];
    return Frame(frame.value);
  }

  function Wire(frame: Bytes): Bytes { BigEndian(|frame|, 4) + frame }

  /** write_len_frame: refuses an empty or oversized frame and then writes nothing. */
  method WriteLenFrame(sink: Bytes, frame: Bytes) returns (ok: bool, after: Bytes)
    ensures ok <==> 1 <= |frame| <= 1024 * 1024
    ensures after == if ok then sink + Wire(frame) else sink
  {
    if |frame| == 0 || |frame| > MAX_FRAME { return false, sink; }
    after := sink + BigEndian(|frame|, 4);
    after := after + frame;
    assert sink + BigEndian(|frame|, 4) + frame == sink + (BigEndian(|frame|, 4) + frame);
    ok := true;
  }

  /** A written frame is read back whole, and reading it takes exactly its own bytes. */
  lemma ParseWritten(frame: Bytes, tail: Bytes, breaks: bool)
    requires InRange(|frame|)
    ensures Parse(Wire(frame) + tail, breaks) == (Frame(frame), tail)
  {
    var b := Wire(frame) + tail;
    assert |frame| < Pow256(4) by { assert Pow256(1) == 256 && Pow256(2) == 65536 && Pow256(4) == 65536 * Pow256(2); }
    NumberOf(|frame|, 4);
    assert b[..4] == BigEndian(|frame|, 4);
    assert b[4..4 + |frame|] == frame && b[4 + |frame|..] == tail;
  }

  lemma ParseShortens(b: Bytes, breaks: bool)
    ensures Parse(b, breaks).0.Frame? ==> |Parse(b, breaks).1| < |b|
  {
  }

  /** Exactly a length of zero or above a megabyte is refused; any other length waits for that many bytes. */
  lemma ParseExactly(b: Bytes, breaks: bool)
    ensures Parse(b, breaks).0 == InvalidData <==> |b| >= 4 && !(1 <= Number(b[..4]) <= 1024 * 1024)
    ensures Parse(b, breaks).0.Frame? <==>
      |b| >= 4 && 1 <= Number(b[..4]) <= 1024 * 1024 && |b| - 4 >= Number(b[..4])
    ensures Parse(b, breaks).0 == Broken ==> breaks
  {
  }

  /** Reading frames until something else comes. */
  function ReadAll(b: Bytes, breaks: bool): (seq<Bytes>, Parsed)
    decreases |b|
  {
    var (p, rest) := Parse(b, breaks);
    if p.Frame? then ParseShortens(b, breaks); var (frames, end) := ReadAll(rest, breaks); ([p.bytes] + frames, end)
    else ([], p)
  }

  function WriteAll(frames: seq<Bytes>): Bytes
  {
    if frames == [] then [] else Wire(frames[0]) + WriteAll(frames[1..])
  }

  /** Everything written is read back, in order, and then the end of the stream or its break. */
  lemma {:induction false} RoundTrip(frames: seq<Bytes>, breaks: bool)
    requires forall i :: 0 <= i < |frames| ==> InRange(|frames[i]|)
    ensures ReadAll(WriteAll(frames), breaks) == (frames, Short(breaks))
    decreases |frames|
  {
    if frames != [] {
      RoundTrip(frames[1..], breaks);
      ParseWritten(frames[0], WriteAll(frames[1..]), breaks);
      assert frames == [frames[0]] + frames[1..];
    }
  }

  /** A frame is read only off bytes that some writer could have written: the reader inverts the writer. */
  lemma ParsedWasWritten(b: Bytes, breaks: bool)
    requires Parse(b, breaks).0.Frame?
    ensures var (p, rest) := Parse(b, breaks); InRange(|p.bytes|) && b == Wire(p.bytes) + rest
  {
    var frame := Parse(b, breaks).0.bytes;
    NumberBack(b[..4]);
    assert b == b[..4] + b[4..4 + |frame|] + b[4 + |frame|..];
  }

  lemma {:induction false} NumberBack(b: Bytes)
    ensures BigEndian(Number(b), |b|) == b
    decreases |b|
  {
    if b != [] {
      NumberBack(b[..|b| - 1]);
      assert Number(b) / 256 == Number(b[..|b| - 1]) && Number(b) % 256 == b[|b| - 1];
      assert b == b[..|b| - 1] + [b[|b| - 1]];
    }
  }
}
