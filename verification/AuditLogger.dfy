/** The audit logger's methods over its two tables: append, enqueue, drain a batch, drain it all. */
module AuditLogger {
  import opened Basics
  import opened Octets
  import opened HashChain
  import opened Outbox
  import opened OutboxSafety
  import opened OutboxOrigins

  type Queue = map<nat, Event>

  /** Chaining the rows with these seqs one after the other. */
  function AppendRows(d: Hasher, log: Log, queue: Queue, seqs: seq<nat>, next: nat): (r: Log)
    requires forall i :: 0 <= i < |seqs| ==> seqs[i] in queue
    decreases |seqs|
  {
    if seqs == [] then log
    else Append(d, AppendRows(d, log, queue, seqs[..|seqs| - 1], next), queue[seqs[|seqs| - 1]], next + |seqs| - 1)
  }

  predicate Records(log: Log, i: nat, e: Event, seqno: nat) { i < |log| && log[i].event == e && log[i].seqno == seqno }

  /** The events land in order behind the log as it was, numbered consecutively. */
  lemma {:induction false} AppendRowsIs(d: Hasher, log: Log, queue: Queue, seqs: seq<nat>, next: nat)
    requires forall i :: 0 <= i < |seqs| ==> seqs[i] in queue
    ensures log <= AppendRows(d, log, queue, seqs, next) && |AppendRows(d, log, queue, seqs, next)| == |log| + |seqs|
    ensures forall i :: 0 <= i < |seqs| ==>
      Records(AppendRows(d, log, queue, seqs, next), |log| + i, queue[seqs[i]], next + i)
    decreases |seqs|
  {
    if seqs != [] {
      var rest := seqs[..|seqs| - 1];
      AppendRowsIs(d, log, queue, rest, next);
      var r := AppendRows(d, log, queue, seqs, next);
      forall i | 0 <= i < |seqs| ensures Records(r, |log| + i, queue[seqs[i]], next + i) {
        if i < |rest| { assert Records(AppendRows(d, log, queue, rest, next), |log| + i, queue[rest[i]], next + i); }
      }
    }
  }

  lemma {:induction false} AppendRowsChained(d: Hasher, log: Log, queue: Queue, seqs: seq<nat>, next: nat)
    requires Chained(d, log) && forall i :: 0 <= i < |seqs| ==> seqs[i] in queue
    ensures Chained(d, AppendRows(d, log, queue, seqs, next))
    decreases |seqs|
  {
    if seqs != [] {
      var rest := seqs[..|seqs| - 1];
      AppendRowsChained(d, log, queue, rest, next);
      AppendChained(d, AppendRows(d, log, queue, rest, next), queue[seqs[|seqs| - 1]], next + |seqs| - 1);
    }
  }

  /** Two batches in a row; the second read from a queue that agrees on its rows. */
  lemma {:induction false} AppendRowsConcat(d: Hasher, log: Log, queue: Queue, a: seq<nat>, later: Queue,
      b: seq<nat>, next: nat)
    requires forall i :: 0 <= i < |a| ==> a[i] in queue
    requires forall i :: 0 <= i < |b| ==> b[i] in later && b[i] in queue && later[b[i]] == queue[b[i]]
    ensures forall i :: 0 <= i < |a + b| ==> (a + b)[i] in queue
    ensures AppendRows(d, log, queue, a + b, next)
      == AppendRows(d, AppendRows(d, log, queue, a, next), later, b, next + |a|)
    decreases |b|
  {
    if b == [] {
      assert a + b == a;
    } else {
      AppendRowsConcat(d, log, queue, a, later, b[..|b| - 1], next);
      assert (a + b)[..|a + b| - 1] == a + b[..|b| - 1];
    }
  }

  const MAX_INT32: nat := 0x7fff_ffff
  const BATCH: nat := 256

  function Normalized(norm: Normalizer, e: Event): Event
  {
    if norm(e.details).Some? then e.(details := norm(e.details).value) else e
  }

  /** The event's details are JSON and its entry hash is new. */
  predicate Chainable(d: Hasher, norm: Normalizer, log: Log, e: Event)
  {
    norm(e.details).Some? && !HashTaken(log, d(PrevOf(log, |log|), Normalized(norm, e)))
  }

  /** The row an append leaves behind the log: type, actor and subject as given, the details in canonical
      form, the tail's hash, and the digest of both. */
  lemma AppendedRow(d: Hasher, norm: Normalizer, log: Log, e: Event, next: nat)
    requires norm(e.details).Some?
    ensures var log' := Append(d, log, Normalized(norm, e), next);
      && |log'| == |log| + 1 && log'[..|log|] == log
      && var row := log'[|log|];
         && row.event.kind == e.kind && row.event.actor == e.actor && row.event.subject == e.subject
         && Some(row.event.details) == norm(e.details) && row.seqno == next
         && row.prev == PrevOf(log, |log|) && row.hash == d(row.prev, row.event)
  {
  }

  /** The drain loop after i rows. */
  ghost predicate DrainedSoFar(d: Hasher, before: Log, queue: Queue, rows: seq<nat>, i: nat, first: nat, log: Log,
      outbox: Queue)
  {
    && Increasing(rows) && i <= |rows| && (forall k :: 0 <= k < |rows| ==> rows[k] in queue)
    && log == AppendRows(d, before, queue, rows[..i], first)
    && outbox == Without(queue, rows[..i])
  }

  lemma DrainedStep(d: Hasher, before: Log, queue: Queue, rows: seq<nat>, i: nat, first: nat, log: Log, outbox: Queue)
    requires DrainedSoFar(d, before, queue, rows, i, first, log, outbox) && i < |rows|
    ensures rows[i] in outbox && outbox[rows[i]] == queue[rows[i]]
    ensures DrainedSoFar(d, before, queue, rows, i + 1, first, Append(d, log, queue[rows[i]], first + i),
      outbox - {rows[i]})
  {
    assert rows[i] !in rows[..i];
    assert rows[..i + 1] == rows[..i] + [rows[i]] && rows[..i + 1][..i] == rows[..i];
    assert Without(queue, rows[..i + 1]) == outbox - {rows[i]};
  }

  /** The listing loop: what is listed is below what is left. */
  ghost predicate ListedSoFar(outbox: Queue, seqs: seq<nat>, left: set<nat>)
  {
    && Increasing(seqs) && left <= outbox.Keys
    && (forall q :: q in outbox ==> (q in left <==> q !in seqs))
    && (forall i :: 0 <= i < |seqs| ==> seqs[i] in outbox)
    && (forall i, q :: 0 <= i < |seqs| && q in left ==> seqs[i] < q)
  }

  lemma ListedStep(outbox: Queue, seqs: seq<nat>, left: set<nat>, q: nat)
    requires ListedSoFar(outbox, seqs, left) && q in left && forall p :: p in left ==> q <= p
    ensures ListedSoFar(outbox, seqs + [q], left - {q})
  {
  }

  class Logger {
    const d: Hasher
    const norm: Normalizer
    var outbox: Queue
    var log: Log
    var nextOut: nat
    var nextLog: nat

    ghost predicate Valid()
      reads this
    {
      forall q :: q in outbox ==> q < nextOut && Normal(norm, outbox[q])
    }

    constructor (d: Hasher, norm: Normalizer)
      ensures Valid() && this.d == d && this.norm == norm && outbox == map[] && log == []
    {
      this.d, this.norm := d, norm;
      outbox, log, nextOut, nextLog := map[], [], 1, 1;
    }

    /** appendLocked: fails without effect on text that is not JSON or on a duplicate entry hash,
        otherwise chains the normalized event. */
    method AppendLocked(e: Event) returns (ok: bool)
      modifies this`log, this`nextLog
      ensures ok <==> Chainable(d, norm, old(log), e)
      ensures ok ==> log == Append(d, old(log), Normalized(norm, e), old(nextLog)) && nextLog == old(nextLog) + 1
      ensures !ok ==> log == old(log) && nextLog == old(nextLog)
    {
      var text := norm(e.details);
      if text.None? { return false; }
      var x := e.(details := text.value);
      var prev := PrevOf(log, |log|);
      var hash := d(prev, x);
      if HashTaken(log, hash) { return false; }
      log := log + [Row(nextLog, x, prev, hash)];
      nextLog := nextLog + 1;
      return true;
    }

    /** Enqueue: one more outbox row, at the next seq. */
    method Enqueue(kind: Bytes, actor: Uuid, subject: Bytes, details: Option<Bytes>) returns (ok: bool)
      requires Valid() && Idempotent(norm)
      modifies this`outbox, this`nextOut
      ensures Valid()
      ensures ok <==> norm(DetailsText(details)).Some?
      ensures ok ==>
        && old(nextOut) in outbox && outbox == old(outbox)[old(nextOut) := outbox[old(nextOut)]]
        && nextOut == old(nextOut) + 1
        && outbox[old(nextOut)].kind == kind && outbox[old(nextOut)].actor == actor
        && outbox[old(nextOut)].subject == subject && Some(outbox[old(nextOut)].details) == norm(DetailsText(details))
      ensures !ok ==> outbox == old(outbox) && nextOut == old(nextOut)
    {
      var e := Normalize(norm, kind, actor, subject, details);
      if e.None? { return false; }
      NormalizeNormal(norm, kind, actor, subject, details);
      outbox := outbox[nextOut := e.value];
      nextOut := nextOut + 1;
      return true;
    }

    /** ListUndrainedOutbox. */
    method ListOldest(limit: nat) returns (seqs: seq<nat>)
      ensures Oldest(outbox, limit, seqs)
    {
      seqs := [];
      var left := outbox.Keys;
      while left != {} && |seqs| < limit
        invariant ListedSoFar(outbox, seqs, left) && |seqs| <= limit
        decreases |left|
      {
        var q := LeastKey(left);
        ListedStep(outbox, seqs, left, q);
        seqs := seqs + [q];
        left := left - {q};
      }
    }

    /** Chains one outbox row, then deletes it. */
    method ChainRow(q: nat) returns (ok: bool)
      requires Valid() && q in outbox
      modifies this`outbox, this`log, this`nextLog
      ensures Valid()
      ensures ok ==> log == Append(d, old(log), old(outbox)[q], old(nextLog)) && nextLog == old(nextLog) + 1
      ensures ok ==> outbox == old(outbox) - {q}
      ensures !ok ==> outbox == old(outbox) && log == old(log) && nextLog == old(nextLog)
    {
      assert Normalized(norm, outbox[q]) == outbox[q] by { assert Normal(norm, outbox[q]); }
      ok := AppendLocked(outbox[q]);
      if ok { outbox := outbox - {q}; }
    }

    /** The drain loop: all the rows in order, or some of them and a failure. */
    method ChainRows(rows: seq<nat>) returns (ok: bool)
      requires Valid() && Increasing(rows) && forall k :: 0 <= k < |rows| ==> rows[k] in outbox
      modifies this`outbox, this`log, this`nextLog
      ensures Valid()
      ensures ok ==> DrainedSoFar(d, old(log), old(outbox), rows, |rows|, old(nextLog), log, outbox)
      ensures ok ==> nextLog == old(nextLog) + |rows|
    {
      ghost var before, queue, first := log, outbox, nextLog;
      assert Without(queue, rows[..0]) == queue;
      var i := 0;
      while i < |rows|
        invariant 0 <= i <= |rows| && Valid() && nextLog == first + i
        invariant DrainedSoFar(d, before, queue, rows, i, first, log, outbox)
      {
        DrainedStep(d, before, queue, rows, i, first, log, outbox);
        ok := ChainRow(rows[i]);
        if !ok { return; }
        i := i + 1;
      }
      return true;
    }

    /** DrainOnce: chains the oldest rows in seq order and removes exactly them, or changes no table. */
    method DrainOnce(batch: int) returns (n: Option<nat>, ghost seqs: seq<nat>)
      requires Valid()
      modifies this`outbox, this`log, this`nextLog
      ensures Valid() && Oldest(old(outbox), if 0 <= batch <= 0x7fff_ffff then batch else 0x7fff_ffff, seqs)
      ensures n.None? ==> outbox == old(outbox) && log == old(log)
      ensures n.Some? ==> n.value == |seqs| && outbox == Without(old(outbox), seqs)
      ensures n.Some? ==> log == AppendRows(d, old(log), old(outbox), seqs, old(nextLog))
      ensures n.Some? ==> nextLog == old(nextLog) + |seqs|
    {
      var limit := batch;
      if limit < 0 || limit > MAX_INT32 { limit := MAX_INT32; }
      var rows := ListOldest(limit);
      seqs := rows;
      var before, queue := log, outbox;
      var ok := ChainRows(rows);
      if !ok {
        log, outbox := before, queue;
        return None, seqs;
      }
      assert rows[..|rows|] == rows;
      return Some(|rows|), seqs;
    }

    /** One batch of a tick that started at (log0, queue0) and has taken seqs so far. */
    method DrainBatch(ghost log0: Log, ghost queue0: Queue, ghost first: nat, ghost seqs: seq<nat>)
      returns (n: Option<nat>, ghost more: seq<nat>)
      requires Valid() && nextLog == first + |seqs|
      requires TickedSoFar(d, log0, queue0, seqs, first, log, outbox)
      modifies this`outbox, this`log, this`nextLog
      ensures Valid()
      ensures n.Some? ==> TickedSoFar(d, log0, queue0, more, first, log, outbox) && nextLog == first + |more|
      ensures n.Some? && n.value < BATCH ==> outbox == map[] && forall q :: q in queue0 <==> q in more
      ensures n.Some? && n.value >= BATCH ==> |outbox| < |old(outbox)|
    {
      ghost var queue, before := outbox, log;
      ghost var batch;
      n, batch := DrainOnce(BATCH);
      more := seqs + batch;
      BatchEffect(d, log0, queue0, seqs, first, before, queue, batch);
    }

    /** One tick of the drainer: batch after batch until one comes up short. Unless a batch fails, the
        outbox ends up empty and all its rows are chained in seq order. */
    method DrainAll() returns (ok: bool, ghost seqs: seq<nat>)
      requires Valid()
      modifies this`outbox, this`log, this`nextLog
      ensures Valid()
      ensures ok ==> outbox == map[] && forall q :: q in old(outbox) <==> q in seqs
      ensures ok ==> TickedSoFar(d, old(log), old(outbox), seqs, old(nextLog), log, outbox)
    {
      seqs := [];
      assert Without(outbox, []) == outbox;
      while true
        invariant Valid() && nextLog == old(nextLog) + |seqs|
        invariant TickedSoFar(d, old(log), old(outbox), seqs, old(nextLog), log, outbox)
        decreases |outbox|
      {
        var n;
        n, seqs := DrainBatch(old(log), old(outbox), old(nextLog), seqs);
        if n.None? { return false, seqs; }
        if n.value < BATCH { return true, seqs; }
      }
    }
  }

  /** The tick loop after some batches: what is taken is below what is left. */
  ghost predicate TakenSoFar(queue: Queue, seqs: seq<nat>, outbox: Queue)
  {
    && Increasing(seqs) && (forall i :: 0 <= i < |seqs| ==> seqs[i] in queue)
    && outbox == Without(queue, seqs)
    && (forall i, q :: 0 <= i < |seqs| && q in outbox ==> seqs[i] < q)
  }

  lemma TakenStep(queue: Queue, seqs: seq<nat>, outbox: Queue, batch: seq<nat>, limit: nat)
    requires TakenSoFar(queue, seqs, outbox) && Oldest(outbox, limit, batch)
    ensures TakenSoFar(queue, seqs + batch, Without(outbox, batch))
  {
  }

  ghost predicate TickedSoFar(d: Hasher, before: Log, queue: Queue, seqs: seq<nat>, first: nat, log: Log, outbox: Queue)
  {
    TakenSoFar(queue, seqs, outbox) && log == AppendRows(d, before, queue, seqs, first)
  }

  lemma TickedStep(d: Hasher, before: Log, queue: Queue, seqs: seq<nat>, first: nat, log: Log, outbox: Queue,
      batch: seq<nat>, limit: nat)
    requires TickedSoFar(d, before, queue, seqs, first, log, outbox) && Oldest(outbox, limit, batch)
    ensures TickedSoFar(d, before, queue, seqs + batch, first, AppendRows(d, log, outbox, batch, first + |seqs|),
      Without(outbox, batch))
  {
    TakenStep(queue, seqs, outbox, batch, limit);
    AppendRowsConcat(d, before, queue, seqs, outbox, batch, first);
  }

  /** A short batch was everything there was. */
  lemma ShortBatch(queue: Queue, seqs: seq<nat>, outbox: Queue, batch: seq<nat>, limit: nat)
    requires TakenSoFar(queue, seqs, outbox) && Oldest(outbox, limit, batch) && |batch| < limit
    ensures Without(outbox, batch) == map[] && forall q :: q in queue <==> q in seqs + batch
  {
  }

  /** One batch of a tick: what it adds, and that it either finishes the queue or shortens it. */
  lemma BatchEffect(d: Hasher, before: Log, queue: Queue, seqs: seq<nat>, first: nat, log: Log, outbox: Queue,
      batch: seq<nat>)
    requires TickedSoFar(d, before, queue, seqs, first, log, outbox) && Oldest(outbox, BATCH, batch)
    ensures TickedSoFar(d, before, queue, seqs + batch, first, AppendRows(d, log, outbox, batch, first + |seqs|),
      Without(outbox, batch))
    ensures |batch| < BATCH ==> Without(outbox, batch) == map[] && forall q :: q in queue <==> q in seqs + batch
    ensures |batch| >= BATCH ==> |Without(outbox, batch)| < |outbox|
  {
    TickedStep(d, before, queue, seqs, first, log, outbox, batch, BATCH);
    WithoutCount(outbox, batch);
    if |batch| < BATCH { ShortBatch(queue, seqs, outbox, batch, BATCH); }
  }

  lemma {:induction false} WithoutCount(outbox: Queue, seqs: seq<nat>)
    requires Increasing(seqs) && forall i :: 0 <= i < |seqs| ==> seqs[i] in outbox
    ensures |Without(outbox, seqs)| == |outbox| - |seqs|
    decreases |seqs|
  {
    if seqs == [] {
      assert Without(outbox, seqs) == outbox;
    } else {
      var rest, q := seqs[..|seqs| - 1], seqs[|seqs| - 1];
      WithoutCount(outbox, rest);
      assert q in Without(outbox, rest);
      assert Without(outbox, seqs) == Without(outbox, rest) - {q};
    }
  }
}
