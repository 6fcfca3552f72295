/** The hash-chained audit log: the length-prefixed encoding, verification, and what an equal tip
    says about two tables. The digest is an arbitrary function to 32 bytes; nothing is assumed of it. */
module HashChain {
  import opened Basics
  import opened Octets

  type Digest = Bytes -> Bytes

  ghost predicate Is32(h: Digest) { forall x: Bytes :: |h(x)| == 32 }

  const ZERO16: Bytes := [0, 0, 0, 0, 0, 0, 0, 0, 0, 0, 0, 0, 0, 0, 0, 0]
  const ZERO32: Bytes := ZERO16 + ZERO16

  // ---- the encoding -----------------------------------------------------------------------------

  /** A length that fits the 64-bit prefix. */
  ghost predicate Sized(b: Bytes) { |b| < Pow256(8) }

  function Field(b: Bytes): Bytes { BigEndian(|b|, 8) + b }

  /** Reads a field off the front: the bytes it holds and what follows. */
  function ReadField(b: Bytes): Option<(Bytes, Bytes)>
  {
    if |b| < 8 then None
    else
      var n := Number(b[..8]);
      if |b| < 8 + n then None else Some((b[8..8 + n], b[8 + n..]))
  }

  lemma ReadWritten(a: Bytes, rest: Bytes)
    requires Sized(a)
    ensures ReadField(Field(a) + rest) == Some((a, rest))
  {
    var s := Field(a) + rest;
    assert s[..8] == BigEndian(|a|, 8);
    NumberOf(|a|, 8);
    assert s[8..8 + |a|] == a && s[8 + |a|..] == rest;
  }

  /** Sixteen bytes; all zero stands for no actor. */
  type Uuid = u: Bytes | |u| == 16 witness [0, 0, 0, 0, 0, 0, 0, 0, 0, 0, 0, 0, 0, 0, 0, 0]

  const NIL: Uuid := [0, 0, 0, 0, 0, 0, 0, 0, 0, 0, 0, 0, 0, 0, 0, 0]

  function Digit(d: int): Byte
    requires 0 <= d < 16
  {
    if d < 10 then 48 + d else 87 + d
  }

  function Hex(b: Bytes): (t: Bytes)
    ensures |t| == 2 * |b|
  {
    if b == [] then [] else [Digit(b[0] / 16), Digit(b[0] % 16)] + Hex(b[1..])
  }

  lemma {:induction false} HexInjective(a: Bytes, b: Bytes)
    requires Hex(a) == Hex(b)
    ensures a == b
  {
    assert |a| == |b|;
    if a != [] {
      assert Hex(a)[0] == Digit(a[0] / 16) && Hex(a)[1] == Digit(a[0] % 16);
      assert Hex(b)[0] == Digit(b[0] / 16) && Hex(b)[1] == Digit(b[0] % 16);
      assert Hex(a)[2..] == Hex(a[1..]) && Hex(b)[2..] == Hex(b[1..]);
      HexInjective(a[1..], b[1..]);
      assert a == [a[0]] + a[1..] && b == [b[0]] + b[1..];
    }
  }

  const DASH: Bytes := [45]

  function UuidText(u: Uuid): (t: Bytes)
    ensures |t| == 36
  {
    Hex(u[..4]) + DASH + Hex(u[4..6]) + DASH + Hex(u[6..8]) + DASH + Hex(u[8..10]) + DASH + Hex(u[10..])
  }

  lemma UuidTextInjective(u: Uuid, v: Uuid)
    requires UuidText(u) == UuidText(v)
    ensures u == v
  {
    var s, t := UuidText(u), UuidText(v);
    assert s[..8] == Hex(u[..4]) && t[..8] == Hex(v[..4]);
    assert s[9..13] == Hex(u[4..6]) && t[9..13] == Hex(v[4..6]);
    assert s[14..18] == Hex(u[6..8]) && t[14..18] == Hex(v[6..8]);
    assert s[19..23] == Hex(u[8..10]) && t[19..23] == Hex(v[8..10]);
    assert s[24..] == Hex(u[10..]) && t[24..] == Hex(v[10..]);
    HexInjective(u[..4], v[..4]);
    HexInjective(u[4..6], v[4..6]);
    HexInjective(u[6..8], v[6..8]);
    HexInjective(u[8..10], v[8..10]);
    HexInjective(u[10..], v[10..]);
    UuidParts(u);
    UuidParts(v);
  }

  lemma UuidParts(u: Uuid)
    ensures u == u[..4] + u[4..6] + u[6..8] + u[8..10] + u[10..]
  {
  }

  datatype Event = Event(kind: Bytes, actor: Uuid, subject: Bytes, details: Bytes)

  function ActorText(actor: Uuid): Bytes { if actor == NIL then [] else UuidText(actor) }

  ghost predicate EventSized(e: Event) { Sized(e.kind) && Sized(e.subject) && Sized(e.details) }

  /** What computeHash feeds the digest. */
  function Encode(prev: Bytes, e: Event): Bytes
  {
    prev + (Field(e.kind) + (Field(ActorText(e.actor)) + (Field(e.subject) + Field(e.details))))
  }

  lemma ActorSized(actor: Uuid)
    ensures Sized(ActorText(actor))
  {
  }

  datatype Decoded = Decoded(prev: Bytes, kind: Bytes, actor: Bytes, subject: Bytes, details: Bytes)

  /** A reader for the digest's input: 32 bytes of previous hash, then type, actor, subject and details. */
  function Decode(b: Bytes): Option<Decoded>
  {
    if |b| < 32 then None
    else
      var kind := ReadField(b[32..]);
      if kind.None? then None
      else
        var actor := ReadField(kind.value.1);
        if actor.None? then None
        else
          var subject := ReadField(actor.value.1);
          if subject.None? then None
          else
            var details := ReadField(subject.value.1);
            if details.None? || details.value.1 != [] then None
            else Some(Decoded(b[..32], kind.value.0, actor.value.0, subject.value.0, details.value.0))
  }

  /** What is hashed can be read back field by field. */
  lemma DecodeEncode(prev: Bytes, e: Event)
    requires |prev| == 32 && EventSized(e)
    ensures Decode(Encode(prev, e)) == Some(Decoded(prev, e.kind, ActorText(e.actor), e.subject, e.details))
  {
    var b := Encode(prev, e);
    var x3 := Field(e.details);
    var x2 := Field(e.subject) + x3;
    var x1 := Field(ActorText(e.actor)) + x2;
    assert b[..32] == prev && b[32..] == Field(e.kind) + x1;
    ActorSized(e.actor);
    ReadWritten(e.kind, x1);
    ReadWritten(ActorText(e.actor), x2);
    ReadWritten(e.subject, x3);
    assert x3 + [] == x3;
    ReadWritten(e.details, []);
  }

  /** So it determines the previous hash and the event. */
  lemma EncodeInjective(p: Bytes, e: Event, q: Bytes, f: Event)
    requires |p| == 32 && |q| == 32 && EventSized(e) && EventSized(f) && Encode(p, e) == Encode(q, f)
    ensures p == q && e == f
  {
    DecodeEncode(p, e);
    DecodeEncode(q, f);
    if e.actor != NIL && f.actor != NIL { UuidTextInjective(e.actor, f.actor); }
  }

  type Hasher = (Bytes, Event) -> Bytes

  /** computeHash. */
  function ComputeHash(h: Digest): Hasher { (prev: Bytes, e: Event) => h(Encode(prev, e)) }

  // ---- the chain --------------------------------------------------------------------------------

  datatype Row = Row(seqno: nat, event: Event, prev: Bytes, hash: Bytes)

  type Log = seq<Row>

  /** The hash entry i must chain from. */
  function PrevOf(log: Log, i: nat): Bytes
    requires i <= |log|
  {
    if i == 0 then ZERO32 else log[i - 1].hash
  }

  predicate RowHashOk(d: Hasher, log: Log, i: nat)
    requires i < |log|
  {
    d(PrevOf(log, i), log[i].event) == log[i].hash
  }

  predicate RowPrevOk(log: Log, i: nat)
    requires i < |log|
  {
    PrevOf(log, i) == log[i].prev
  }

  ghost predicate Chained(d: Hasher, log: Log)
  {
    forall i :: 0 <= i < |log| ==> RowHashOk(d, log, i) && RowPrevOk(log, i)
  }

  datatype Fault = BrokenHash(at: nat) | PrevMismatch(at: nat)

  /** The fault at a row, the hash being checked first. */
  function FaultAt(d: Hasher, log: Log, i: nat): Option<Fault>
    requires i < |log|
  {
    if !RowHashOk(d, log, i) then Some(BrokenHash(i)) else if !RowPrevOk(log, i) then Some(PrevMismatch(i)) else None
  }

  /** Verify passes exactly on chained tables, and otherwise reports the first faulty row. */
  method Verify(h: Digest, log: Log) returns (fault: Option<Fault>)
    ensures fault.None? <==> Chained(ComputeHash(h), log)
    ensures fault.Some? ==>
      fault.value.at < |log| && Chained(ComputeHash(h), log[..fault.value.at]) &&
        FaultAt(ComputeHash(h), log, fault.value.at) == fault
  {
    var prev := ZERO32;
    var i := 0;
    while i < |log|
      invariant 0 <= i <= |log| && prev == PrevOf(log, i)
      invariant Chained(ComputeHash(h), log[..i])
    {
      var want := ComputeHash(h)(prev, log[i].event);
      if want != log[i].hash {
        assert !RowHashOk(ComputeHash(h), log, i);
        return Some(BrokenHash(i));
      }
      if prev != log[i].prev {
        assert !RowPrevOk(log, i);
        return Some(PrevMismatch(i));
      }
      ChainedExtends(ComputeHash(h), log, i);
      prev := log[i].hash;
      i := i + 1;
    }
    assert log[..|log|] == log;
    return None;
  }

  lemma ChainedExtends(d: Hasher, log: Log, i: nat)
    requires i < |log| && Chained(d, log[..i]) && RowHashOk(d, log, i) && RowPrevOk(log, i)
    ensures Chained(d, log[..i + 1])
  {
    var more := log[..i + 1];
    forall k | 0 <= k < |more| ensures RowHashOk(d, more, k) && RowPrevOk(more, k) {
      assert PrevOf(more, k) == PrevOf(log, k);
      if k < i {
        assert RowHashOk(d, log[..i], k) && RowPrevOk(log[..i], k);
        assert PrevOf(log[..i], k) == PrevOf(log, k);
      }
    }
  }

  lemma ChainedPrefix(d: Hasher, log: Log, n: nat)
    requires n <= |log| && Chained(d, log)
    ensures Chained(d, log[..n])
  {
    forall k | 0 <= k < n ensures RowHashOk(d, log[..n], k) && RowPrevOk(log[..n], k) {
      assert PrevOf(log[..n], k) == PrevOf(log, k);
      assert RowHashOk(d, log, k) && RowPrevOk(log, k);
    }
  }

  // ---- tamper evidence ----------------------------------------------------------------------------

  /** What a forger must have had. */
  datatype Evidence = Same | Collision(x: Bytes, y: Bytes) | ZeroPreimage(z: Bytes)

  ghost predicate Proves(h: Digest, ev: Evidence)
  {
    match ev
    case Same => true
    case Collision(x, y) => x != y && h(x) == h(y)
    case ZeroPreimage(z) => h(z) == ZERO32
  }

  ghost predicate AllSized(log: Log)
  {
    forall i :: 0 <= i < |log| ==> EventSized(log[i].event)
  }

  /** Same event, same hashes: everything but the sequence number. */
  predicate SameEntry(r: Row, q: Row) { r.event == q.event && r.prev == q.prev && r.hash == q.hash }

  ghost predicate SameHistory(a: Log, b: Log)
  {
    |a| == |b| && forall i :: 0 <= i < |a| ==> SameEntry(a[i], b[i])
  }

  function Input(log: Log, i: nat): Bytes
    requires i < |log|
  {
    Encode(PrevOf(log, i), log[i].event)
  }

  lemma PrevIs32(h: Digest, log: Log, i: nat)
    requires Is32(h) && Chained(ComputeHash(h), log) && i <= |log|
    ensures |PrevOf(log, i)| == 32
  {
    if i > 0 {
      assert RowHashOk(ComputeHash(h), log, i - 1);
      assert log[i - 1].hash == h(Input(log, i - 1));
    }
  }

  /** Equal digests at two rows: equal inputs, so equal rows with equal predecessors, or a collision. */
  lemma LastRows(h: Digest, a: Log, b: Log)
    requires Is32(h) && Chained(ComputeHash(h), a) && Chained(ComputeHash(h), b) && AllSized(a) && AllSized(b) &&
      a != [] && b != []
    requires a[|a| - 1].hash == b[|b| - 1].hash
    ensures h(Input(a, |a| - 1)) == h(Input(b, |b| - 1))
    ensures Input(a, |a| - 1) == Input(b, |b| - 1) ==>
      SameEntry(a[|a| - 1], b[|b| - 1]) && PrevOf(a, |a| - 1) == PrevOf(b, |b| - 1)
  {
    var m, n := |a| - 1, |b| - 1;
    assert RowHashOk(ComputeHash(h), a, m) && RowHashOk(ComputeHash(h), b, n) && RowPrevOk(a, m) && RowPrevOk(b, n);
    if Input(a, m) == Input(b, n) {
      PrevIs32(h, a, m);
      PrevIs32(h, b, n);
      EncodeInjective(PrevOf(a, m), a[m].event, PrevOf(b, n), b[n].event);
    }
  }

  lemma TipDigest(h: Digest, a: Log)
    requires Chained(ComputeHash(h), a) && a != []
    ensures h(Input(a, |a| - 1)) == PrevOf(a, |a|)
  {
    assert RowHashOk(ComputeHash(h), a, |a| - 1);
  }

  lemma WithoutLast(h: Digest, a: Log)
    requires Chained(ComputeHash(h), a) && AllSized(a) && a != []
    ensures var r := a[..|a| - 1]; Chained(ComputeHash(h), r) && AllSized(r) && PrevOf(r, |r|) == PrevOf(a, |a| - 1)
  {
    ChainedPrefix(ComputeHash(h), a, |a| - 1);
  }

  lemma SameHistoryExtends(a: Log, b: Log)
    requires a != [] && b != [] && SameHistory(a[..|a| - 1], b[..|b| - 1]) && SameEntry(a[|a| - 1], b[|b| - 1])
    ensures SameHistory(a, b)
  {
  }

  /** Two tables that pass verification and share their tip hash hold the same history, or the proof
      hands over a collision or a preimage of the genesis value. */
  lemma {:induction false} TipPinsHistory(h: Digest, a: Log, b: Log) returns (ev: Evidence)
    requires Is32(h) && Chained(ComputeHash(h), a) && Chained(ComputeHash(h), b) && AllSized(a) && AllSized(b)
    requires PrevOf(a, |a|) == PrevOf(b, |b|)
    ensures Proves(h, ev) && (ev.Same? ==> SameHistory(a, b))
    decreases |a| + |b|
  {
    if a == [] && b == [] {
      ev := Same;
    } else if a == [] {
      TipDigest(h, b);
      ev := ZeroPreimage(Input(b, |b| - 1));
    } else if b == [] {
      TipDigest(h, a);
      ev := ZeroPreimage(Input(a, |a| - 1));
    } else {
      LastRows(h, a, b);
      if Input(a, |a| - 1) != Input(b, |b| - 1) {
        ev := Collision(Input(a, |a| - 1), Input(b, |b| - 1));
      } else {
        WithoutLast(h, a);
        WithoutLast(h, b);
        ev := TipPinsHistory(h, a[..|a| - 1], b[..|b| - 1]);
        if ev.Same? { SameHistoryExtends(a, b); }
      }
    }
  }

  // ---- checking against an anchor ------------------------------------------------------------------

  /** Sequence numbers increase along the table, as ORDER BY seq and UNIQUE(seq) give them. */
  ghost predicate Ordered(log: Log)
  {
    forall i, j :: 0 <= i < j < |log| ==> log[i].seqno < log[j].seqno
  }

  predicate HasEntry(log: Log, seqno: nat, hash: Bytes)
  {
    exists i :: 0 <= i < |log| && log[i].seqno == seqno && log[i].hash == hash
  }

  method EntryHashAt(log: Log, seqno: nat) returns (hash: Option<Bytes>)
    requires Ordered(log)
    ensures hash.None? <==> forall i :: 0 <= i < |log| ==> log[i].seqno != seqno
    ensures hash.Some? ==> forall x :: HasEntry(log, seqno, x) <==> x == hash.value
  {
    var i := 0;
    while i < |log|
      invariant 0 <= i <= |log|
      invariant forall k :: 0 <= k < i ==> log[k].seqno != seqno
    {
      if log[i].seqno == seqno {
        assert HasEntry(log, seqno, log[i].hash);
        return Some(log[i].hash);
      }
      i := i + 1;
    }
    return None;
  }

  /** VerifyTipAtLeast: passes exactly if the anchored row is still there with the anchored hash. */
  method VerifyTipAtLeast(log: Log, seqno: nat, hash: Bytes) returns (ok: bool)
    requires Ordered(log)
    ensures ok <==> HasEntry(log, seqno, hash)
  {
    if log == [] { return false; }
    if log[|log| - 1].seqno < seqno { return false; }
    var got := EntryHashAt(log, seqno);
    if got.None? { return false; }
    return got.value == hash;
  }

  /** Verify and VerifyTipAtLeast together pin the whole history up to the anchored row: the live table
      begins with the table that was anchored, or the proof hands over a collision or a zero preimage. */
  lemma AnchorPins(h: Digest, anchored: Log, live: Log, seqno: nat) returns (ev: Evidence, n: nat)
    requires Is32(h) && anchored != [] && Chained(ComputeHash(h), anchored) && Chained(ComputeHash(h), live) &&
      AllSized(anchored) && AllSized(live)
    requires HasEntry(live, seqno, anchored[|anchored| - 1].hash)
    ensures Proves(h, ev) && n <= |live| && (ev.Same? ==> SameHistory(anchored, live[..n]))
    ensures 0 < n && live[n - 1].seqno == seqno
  {
    var i :| 0 <= i < |live| && live[i].seqno == seqno && live[i].hash == anchored[|anchored| - 1].hash;
    n := i + 1;
    ChainedPrefix(ComputeHash(h), live, n);
    ev := TipPinsHistory(h, anchored, live[..n]);
  }

  /** Cutting the tail off a table is caught: no proper prefix has the anchored row. */
  lemma TruncationCaught(log: Log, n: nat)
    requires Ordered(log) && n < |log|
    ensures !HasEntry(log[..n], log[|log| - 1].seqno, log[|log| - 1].hash)
  {
  }

  // ---- appending -----------------------------------------------------------------------------------

  /** appendLocked's insert. */
  function Append(d: Hasher, log: Log, e: Event, seqno: nat): Log
  {
    log + [Row(seqno, e, PrevOf(log, |log|), d(PrevOf(log, |log|), e))]
  }

  lemma AppendChained(d: Hasher, log: Log, e: Event, seqno: nat)
    requires Chained(d, log)
    ensures Chained(d, Append(d, log, e, seqno))
  {
    var more := Append(d, log, e, seqno);
    forall k | 0 <= k < |more| ensures RowHashOk(d, more, k) && RowPrevOk(more, k) {
      assert PrevOf(more, k) == PrevOf(log, k);
      if k < |log| { assert RowHashOk(d, log, k) && RowPrevOk(log, k); }
    }
  }
}
