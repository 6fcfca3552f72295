/** Byte streams that arrive in arbitrary chunks, exact reads over them, and the stream that replays
    bytes already read. */
module Streams {
  import opened Basics
  import opened Octets

  ghost predicate NonEmpty(chunks: seq<Bytes>) { forall i :: 0 <= i < |chunks| ==> chunks[i] != [] }

  /** What one read takes, and what it leaves: at most `most` bytes of the chunk at hand. */
  function FirstRead(chunks: seq<Bytes>, most: nat): Bytes
  {
    if chunks == [] then [] else chunks[0][..Min(most, |chunks[0]|)]
  }

  function AfterRead(chunks: seq<Bytes>, most: nat): seq<Bytes>
  {
    if chunks == [] then []
    else if most >= |chunks[0]| then chunks[1..]
    else [chunks[0][most..]] + chunks[1..]
  }

  lemma ReadSplits(chunks: seq<Bytes>, most: nat)
    requires NonEmpty(chunks) && most > 0
    ensures Concat(chunks) == FirstRead(chunks, most) + Concat(AfterRead(chunks, most))
    ensures NonEmpty(AfterRead(chunks, most))
    ensures FirstRead(chunks, most) == [] <==> chunks == []
    ensures |FirstRead(chunks, most)| <= most
  {
    if chunks == [] {
    } else if most < |chunks[0]| {
      SplitChunk(chunks[0], chunks[1..], most);
    } else {
      assert chunks[0][..|chunks[0]|] == chunks[0];
    }
  }

  lemma SplitChunk(chunk: Bytes, rest: seq<Bytes>, most: nat)
    requires most < |chunk|
    ensures chunk + Concat(rest) == chunk[..most] + Concat([chunk[most..]] + rest)
  {
  }

  /** The chunks still to come; after the last one a read reports the end of the stream or, if it
      breaks, an error. */
  class Stream {
    var chunks: seq<Bytes>
    const breaks: bool

    ghost predicate Valid()
      reads this
    {
      NonEmpty(chunks)
    }

    ghost function Contents(): Bytes
      reads this
    {
      Concat(chunks)
    }

    constructor (chunks: seq<Bytes>, breaks: bool)
      requires NonEmpty(chunks)
      ensures Valid() && this.chunks == chunks && this.breaks == breaks
    {
      this.chunks, this.breaks := chunks, breaks;
    }

    /** One read: empty only at the end of the stream, where it may fail instead. */
    method Read(most: nat) returns (out: Bytes, ok: bool)
      requires Valid() && most > 0
      modifies this
      ensures Valid() && old(Contents()) == out + Contents() && |out| <= most
      ensures (out == [] <==> old(chunks) == []) && (ok <==> !(old(chunks) == [] && breaks))
      ensures out == FirstRead(old(chunks), most) && chunks == AfterRead(old(chunks), most)
    {
      ReadSplits(chunks, most);
      ok := true;
      if |chunks| == 0 { return [], !breaks; }
      var n := Min(most, |chunks[0]|);
      out := chunks[0][..n];
      chunks := if n == |chunks[0]| then chunks[1..] else [chunks[0][n..]] + chunks[1..];
    }

    /** read_exact: n bytes whatever the chunk boundaries, or None at a premature end or a broken stream,
        with nothing left. */
    method ReadExact(n: nat) returns (out: Option<Bytes>)
      requires Valid()
      modifies this
      ensures Valid()
      ensures |old(Contents())| >= n ==> out == Some(old(Contents())[..n]) && Contents() == old(Contents())[n..]
      ensures |old(Contents())| < n ==> out == None && Contents() == []
    {
      ghost var all := Contents();
      var got: Bytes := [];
      while |got| < n
        invariant Valid() && |got| <= n && all == got + Contents()
        decreases n - |got|
      {
        ghost var left := Contents();
        var more, ok := Read(n - |got|);
        if !ok || more == [] { return None; }
        assert all == (got + more) + Contents() by { assert left == more + Contents(); }
        got := got + more;
      }
      out := Some(got);
    }
  }

  /** A stream that yields bytes already consumed before the live ones. */
  class PrefixedStream {
    const prefix: Bytes
    var pos: nat
    const inner: Stream

    ghost predicate Valid()
      reads this, inner
    {
      pos <= |prefix| && inner.Valid()
    }

    ghost function Contents(): Bytes
      requires Valid()
      reads this, inner
    {
      prefix[pos..] + inner.Contents()
    }

    constructor (prefix: Bytes, inner: Stream)
      requires inner.Valid()
      ensures this.prefix == prefix && this.inner == inner && pos == 0 && Valid() &&
        Contents() == prefix + inner.Contents()
    {
      this.prefix, this.inner, pos := prefix, inner, 0;
    }

    /** poll_read: what it delivers is always the next part of prefix and stream together. */
    method Read(most: nat) returns (out: Bytes, ok: bool)
      requires Valid() && most > 0
      modifies this, inner
      ensures Valid() && old(Contents()) == out + Contents() && |out| <= most
      ensures (out == [] ==> old(Contents()) == []) && (ok <==> !(out == [] && inner.breaks))
    {
      ok := true;
      if pos < |prefix| {
        var n := Min(|prefix| - pos, most);
        out := prefix[pos..pos + n];
        pos := pos + n;
      } else {
        out, ok := inner.Read(most);
      }
    }
  }
}
