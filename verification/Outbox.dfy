/** The transactional outbox and the drain into the hash chain, as a machine of interleaved
    transactions: events enqueued inside domain transactions that commit in any order, direct
    appends, drains of a batch, and rollbacks at any point. */
module Outbox {
  import opened Basics
  import opened Octets
  import opened HashChain

  // ---- tables and transactions ------------------------------------------------------------------

  /** Identifies one occurrence of an event; two equal events get two tags. */
  type Tag = nat

  datatype Item = Item(tag: Tag, event: Event)

  /** audit_outbox by its seq column. */
  type Pending = map<nat, Item>

  /** `tags[i]` is the occurrence that row i of the log records. */
  datatype Tables = Tables(outbox: Pending, log: Log, tags: seq<Tag>)

  datatype Job = AppendJob(item: Item) | DrainJob(limit: nat)

  /** A domain transaction with its uncommitted outbox rows; a job waiting for the advisory lock, and
      holding it; and a job chaining its items onto its own copy of the log. */
  datatype Txn =
    | Domain(rows: Pending)
    | Waiting(job: Job)
    | Locked(job: Job)
    | Chaining(seqs: seq<nat>, items: seq<Item>, done: nat, log: Log)

  predicate HoldsLock(t: Txn) { t.Locked? || t.Chaining? }

  type Txns = map<Id, Txn>

  /** `history` holds every occurrence committed so far, `used` every tag drawn. */
  datatype State = State(db: Tables, txns: Txns, nextOut: nat, nextLog: nat, history: set<Item>, used: set<Tag>)

  /** NormalizeJSON: None for text that is not JSON. */
  type Normalizer = Bytes -> Option<Bytes>

  ghost predicate Idempotent(norm: Normalizer)
  {
    forall b :: norm(b).Some? ==> norm(norm(b).value) == norm(b)
  }

  const BRACES: Bytes := [123, 125]

  /** Missing details are an empty object. */
  function Normalize(norm: Normalizer, kind: Bytes, actor: Uuid, subject: Bytes, details: Option<Bytes>): Option<Event>
  {
    match norm(if details.Some? then details.value else BRACES)
    case None => None
    case Some(text) => Some(Event(kind, actor, subject, text))
  }

  datatype Action =
    | BeginDomain(tid: Id)
    | Enqueue(tid: Id, tag: Tag, kind: Bytes, actor: Uuid, subject: Bytes, details: Option<Bytes>)
    | BeginAppend(tid: Id, tag: Tag, kind: Bytes, actor: Uuid, subject: Bytes, details: Option<Bytes>)
    | BeginDrain(tid: Id, limit: nat)
    | Advance(tid: Id, seqs: seq<nat>)
    | Rollback(tid: Id)

  // ---- steps --------------------------------------------------------------------------------------

  function Put(s: State, tid: Id, t: Txn): State { s.(txns := s.txns[tid := t]) }
  function Drop(s: State, tid: Id): State { s.(txns := s.txns - {tid}) }

  ghost predicate LockHeld(txns: Txns) { exists t :: t in txns && HoldsLock(txns[t]) }

  function EnqueueStep(norm: Normalizer, s: State, a: Action): State
    requires a.Enqueue?
  {
    if a.tid !in s.txns || !s.txns[a.tid].Domain? || a.tag in s.used then s
    else
      match Normalize(norm, a.kind, a.actor, a.subject, a.details)
      case None => Drop(s, a.tid)
      case Some(e) =>
        Put(s.(nextOut := s.nextOut + 1, used := s.used + {a.tag}), a.tid,
          Domain(s.txns[a.tid].rows[s.nextOut := Item(a.tag, e)]))
  }

  function BeginAppendStep(norm: Normalizer, s: State, a: Action): State
    requires a.BeginAppend?
  {
    if a.tid in s.txns || a.tag in s.used then s
    else
      match Normalize(norm, a.kind, a.actor, a.subject, a.details)
      case None => s
      case Some(e) => Put(s.(used := s.used + {a.tag}), a.tid, Waiting(AppendJob(Item(a.tag, e))))
  }

  ghost predicate Increasing(seqs: seq<nat>)
  {
    forall i, j :: 0 <= i < j < |seqs| ==> seqs[i] < seqs[j]
  }

  /** The limit oldest rows in seq order. */
  ghost predicate Oldest<T>(outbox: map<nat, T>, limit: nat, seqs: seq<nat>)
  {
    && Increasing(seqs) && |seqs| <= limit
    && (forall i :: 0 <= i < |seqs| ==> seqs[i] in outbox)
    && (forall q :: q in outbox && q !in seqs ==> |seqs| == limit && forall i :: 0 <= i < |seqs| ==> seqs[i] < q)
  }

  function ItemsAt<T>(outbox: map<nat, T>, seqs: seq<nat>): (items: seq<T>)
    requires forall i :: 0 <= i < |seqs| ==> seqs[i] in outbox
    ensures |items| == |seqs| && forall i :: 0 <= i < |seqs| ==> items[i] == outbox[seqs[i]]
  {
    seq(|seqs|, i requires 0 <= i < |seqs| => outbox[seqs[i]])
  }

  /** The first statement after the lock: the drain reads its batch. */
  ghost function StartChaining(s: State, tid: Id, job: Job, seqs: seq<nat>): State
  {
    match job
    case AppendJob(item) => Put(s, tid, Chaining([], [item], 0, s.db.log))
    case DrainJob(limit) =>
      if Oldest(s.db.outbox, limit, seqs)
      then Put(s, tid, Chaining(seqs, ItemsAt(s.db.outbox, seqs), 0, s.db.log)) else s
  }

  predicate HashTaken(log: Log, hash: Bytes) { exists i :: 0 <= i < |log| && log[i].hash == hash }

  function TagsOf(items: seq<Item>): (tags: seq<Tag>)
    ensures |tags| == |items|
  {
    seq(|items|, i requires 0 <= i < |items| => items[i].tag)
  }

  function Without<T>(outbox: map<nat, T>, seqs: seq<nat>): map<nat, T>
  {
    map q | q in outbox && q !in seqs :: outbox[q]
  }

  function RowItems(rows: Pending): set<Item> { set q | q in rows :: rows[q] }

  function ItemSet(items: seq<Item>): set<Item> { set x | x in items }

  /** The next insert would violate UNIQUE(entry_hash). */
  predicate Collides(d: Hasher, t: Txn)
    requires t.Chaining? && t.done < |t.items|
  {
    HashTaken(t.log, d(PrevOf(t.log, |t.log|), t.items[t.done].event))
  }

  /** Chain one more item, or commit once all are chained. */
  function ChainStep(d: Hasher, s: State, tid: Id, t: Txn): State
    requires t.Chaining?
  {
    if t.done < |t.items| then
      if Collides(d, t) then Drop(s.(nextLog := s.nextLog + 1), tid)
      else Put(s.(nextLog := s.nextLog + 1), tid,
        t.(done := t.done + 1, log := Append(d, t.log, t.items[t.done].event, s.nextLog)))
    else
      Drop(s, tid).(db := Tables(Without(s.db.outbox, t.seqs), t.log, s.db.tags + TagsOf(t.items)),
                    history := s.history + ItemSet(t.items))
  }

  ghost function AdvanceStep(d: Hasher, s: State, tid: Id, seqs: seq<nat>): State
    requires tid in s.txns
  {
    match s.txns[tid]
    case Domain(rows) => Drop(s, tid).(db := s.db.(outbox := s.db.outbox + rows), history := s.history + RowItems(rows))
    case Waiting(job) => if LockHeld(s.txns) then s else Put(s, tid, Locked(job))
    case Locked(job) => StartChaining(s, tid, job, seqs)
    case Chaining(_, _, _, _) => ChainStep(d, s, tid, s.txns[tid])
  }

  ghost function Step(d: Hasher, norm: Normalizer, s: State, a: Action): State
  {
    match a
    case BeginDomain(tid) => if tid in s.txns then s else Put(s, tid, Domain(map[]))
    case Enqueue(_, _, _, _, _, _) => EnqueueStep(norm, s, a)
    case BeginAppend(_, _, _, _, _, _) => BeginAppendStep(norm, s, a)
    case BeginDrain(tid, limit) => if tid in s.txns then s else Put(s, tid, Waiting(DrainJob(limit)))
    case Advance(tid, seqs) => if tid in s.txns then AdvanceStep(d, s, tid, seqs) else s
    case Rollback(tid) => Drop(s, tid)
  }

  ghost function Run(d: Hasher, norm: Normalizer, s: State, actions: seq<Action>): State
    decreases |actions|
  {
    if actions == [] then s else Run(d, norm, Step(d, norm, s, actions[0]), actions[1..])
  }

  const START := State(Tables(map[], [], []), map[], 1, 1, {}, {})
}
