/** Every event committed to the audit trail is recorded exactly once, and the log verifies at all times. */
module OutboxSafety {
  import opened Basics
  import opened Octets
  import opened HashChain
  import opened Outbox

  // ---- invariants ---------------------------------------------------------------------------------

  ghost predicate Normal(norm: Normalizer, e: Event) { norm(e.details) == Some(e.details) }

  ghost predicate DistinctHashes(log: Log)
  {
    forall i, j :: 0 <= i < j < |log| ==> log[i].hash != log[j].hash
  }

  ghost predicate Below(log: Log, next: nat) { forall i :: 0 <= i < |log| ==> log[i].seqno < next }

  ghost predicate AllNormal(norm: Normalizer, log: Log) { forall i :: 0 <= i < |log| ==> Normal(norm, log[i].event) }

  ghost predicate LogOk(d: Hasher, norm: Normalizer, log: Log, next: nat)
  {
    Chained(d, log) && Ordered(log) && Below(log, next) && DistinctHashes(log) && AllNormal(norm, log)
  }

  /** The places an occurrence can be. */
  ghost predicate InOutbox(db: Tables, x: Item) { exists q :: q in db.outbox && db.outbox[q] == x }

  ghost predicate LogItem(db: Tables, i: nat, x: Item)
  {
    i < |db.log| && i < |db.tags| && db.tags[i] == x.tag && db.log[i].event == x.event
  }

  ghost predicate InLog(db: Tables, x: Item) { exists i :: LogItem(db, i, x) }

  /** No tag occurs twice, in one table or across both. */
  ghost predicate TagsOnce(db: Tables)
  {
    && (forall p, q :: p in db.outbox && q in db.outbox && p != q ==> db.outbox[p].tag != db.outbox[q].tag)
    && (forall i, j :: 0 <= i < j < |db.tags| ==> db.tags[i] != db.tags[j])
    && (forall q, i :: q in db.outbox && 0 <= i < |db.tags| ==> db.outbox[q].tag != db.tags[i])
  }

  /** Exactly the committed occurrences are in the tables. */
  ghost predicate Conserved(db: Tables, history: set<Item>)
  {
    && |db.tags| == |db.log|
    && (forall q :: q in db.outbox ==> db.outbox[q] in history)
    && (forall i :: 0 <= i < |db.log| ==> Item(db.tags[i], db.log[i].event) in history)
    && (forall x :: x in history ==> InOutbox(db, x) || InLog(db, x))
  }

  datatype Claim = LockClaim | TagClaim(tag: Tag) | SeqClaim(q: nat)

  function JobClaims(job: Job): set<Claim>
  {
    match job case AppendJob(item) => {TagClaim(item.tag)} case DrainJob(_) => {}
  }

  function Claims(t: Txn): set<Claim>
  {
    match t
    case Domain(rows) => (set q | q in rows :: SeqClaim(q)) + (set q | q in rows :: TagClaim(rows[q].tag))
    case Waiting(job) => JobClaims(job)
    case Locked(job) => {LockClaim} + JobClaims(job)
    case Chaining(seqs, items, _, _) => {LockClaim} + (if seqs == [] then set x | x in items :: TagClaim(x.tag) else {})
  }

  ghost predicate Exclusive(txns: Txns)
  {
    forall t, u :: t in txns && u in txns && t != u ==> Claims(txns[t]) !! Claims(txns[u])
  }

  ghost predicate Fresh(history: set<Item>, used: set<Tag>, tag: Tag)
  {
    tag in used && forall x :: x in history ==> x.tag != tag
  }

  ghost predicate FreshItem(norm: Normalizer, history: set<Item>, used: set<Tag>, x: Item)
  {
    Fresh(history, used, x.tag) && Normal(norm, x.event)
  }

  ghost predicate RowsOk(norm: Normalizer, s: State, rows: Pending)
  {
    && (forall q :: q in rows ==> q < s.nextOut && q !in s.db.outbox && FreshItem(norm, s.history, s.used, rows[q]))
    && (forall p, q :: p in rows && q in rows && p != q ==> rows[p].tag != rows[q].tag)
  }

  ghost predicate JobOk(norm: Normalizer, s: State, job: Job)
  {
    job.AppendJob? ==> FreshItem(norm, s.history, s.used, job.item)
  }

  /** A job's own log is the committed one followed by what it has chained so far. */
  ghost predicate Extends(base: Log, log: Log, items: seq<Item>, done: nat)
  {
    && done <= |items| && |log| == |base| + done && base <= log
    && forall i :: 0 <= i < done ==> log[|base| + i].event == items[i].event
  }

  /** What a job is chaining: one fresh item, or the outbox rows it read, in increasing seq order. */
  ghost predicate BatchOk(norm: Normalizer, s: State, seqs: seq<nat>, items: seq<Item>)
  {
    if seqs == [] then |items| <= 1 && forall x :: x in items ==> FreshItem(norm, s.history, s.used, x)
    else
      && Increasing(seqs) && |items| == |seqs|
      && forall i :: 0 <= i < |seqs| ==>
        seqs[i] in s.db.outbox && items[i] == s.db.outbox[seqs[i]] && Normal(norm, items[i].event)
  }

  ghost predicate StageOk(d: Hasher, norm: Normalizer, s: State, t: Txn)
  {
    match t
    case Domain(rows) => RowsOk(norm, s, rows)
    case Waiting(job) => JobOk(norm, s, job)
    case Locked(job) => JobOk(norm, s, job)
    case Chaining(seqs, items, done, log) =>
      BatchOk(norm, s, seqs, items) && Extends(s.db.log, log, items, done) && LogOk(d, norm, log, s.nextLog)
  }

  ghost predicate StagesOk(d: Hasher, norm: Normalizer, s: State)
  {
    forall t :: t in s.txns ==> StageOk(d, norm, s, s.txns[t])
  }

  ghost predicate OutboxOk(norm: Normalizer, s: State)
  {
    && (forall q :: q in s.db.outbox ==> q < s.nextOut && Normal(norm, s.db.outbox[q].event))
    && (forall x :: x in s.history ==> x.tag in s.used)
  }

  ghost predicate Inv(d: Hasher, norm: Normalizer, s: State)
  {
    && LogOk(d, norm, s.db.log, s.nextLog) && TagsOnce(s.db) && Conserved(s.db, s.history) && OutboxOk(norm, s)
    && Exclusive(s.txns) && StagesOk(d, norm, s)
  }

  // ---- steps that commit nothing ----------------------------------------------------------------------

  lemma DropKeeps(d: Hasher, norm: Normalizer, s: State, tid: Id)
    requires Inv(d, norm, s)
    ensures Inv(d, norm, Drop(s, tid))
  {
  }

  ghost predicate Uncontended(txns: Txns, tid: Id, want: set<Claim>)
  {
    forall t :: t in txns && t != tid ==> Claims(txns[t]) !! want
  }

  /** Drawing a tag, a seq or a log number disturbs nobody. */
  lemma StageDraws(d: Hasher, norm: Normalizer, s: State, s': State, t: Txn)
    requires StageOk(d, norm, s, t)
    requires s'.db == s.db && s'.history == s.history && s.used <= s'.used && s.nextOut <= s'.nextOut &&
      s.nextLog <= s'.nextLog
    ensures StageOk(d, norm, s', t)
  {
  }

  lemma PutKeeps(d: Hasher, norm: Normalizer, s: State, s': State, tid: Id, t: Txn)
    requires Inv(d, norm, s)
    requires s' == Put(s.(nextOut := s'.nextOut, nextLog := s'.nextLog, used := s'.used), tid, t)
    requires s.used <= s'.used && s.nextOut <= s'.nextOut && s.nextLog <= s'.nextLog
    requires Uncontended(s.txns, tid, Claims(t)) && StageOk(d, norm, s', t)
    ensures Inv(d, norm, s')
  {
    forall u | u in s'.txns ensures StageOk(d, norm, s', s'.txns[u]) {
      if u != tid { StageDraws(d, norm, s, s', s.txns[u]); }
    }
  }

  lemma NormalizeNormal(norm: Normalizer, kind: Bytes, actor: Uuid, subject: Bytes, details: Option<Bytes>)
    requires Idempotent(norm) && Normalize(norm, kind, actor, subject, details).Some?
    ensures Normal(norm, Normalize(norm, kind, actor, subject, details).value)
  {
  }

  /** Tags never drawn are claimed by nobody. */
  lemma FreshTag(d: Hasher, norm: Normalizer, s: State, tid: Id, tag: Tag)
    requires StagesOk(d, norm, s) && tag !in s.used
    ensures Uncontended(s.txns, tid, {TagClaim(tag)})
  {
  }

  lemma FreshSeq(d: Hasher, norm: Normalizer, s: State, tid: Id)
    requires StagesOk(d, norm, s)
    ensures Uncontended(s.txns, tid, {SeqClaim(s.nextOut)})
  {
  }

  lemma OwnClaims(txns: Txns, tid: Id)
    requires Exclusive(txns) && tid in txns
    ensures Uncontended(txns, tid, Claims(txns[tid]))
  {
  }

  lemma EnqueueKeeps(d: Hasher, norm: Normalizer, s: State, a: Action)
    requires Inv(d, norm, s) && Idempotent(norm) && a.Enqueue?
    ensures Inv(d, norm, EnqueueStep(norm, s, a))
  {
    var s' := EnqueueStep(norm, s, a);
    if s' == s {
    } else if s' == Drop(s, a.tid) {
      DropKeeps(d, norm, s, a.tid);
    } else {
      NormalizeNormal(norm, a.kind, a.actor, a.subject, a.details);
      var e := Normalize(norm, a.kind, a.actor, a.subject, a.details).value;
      EnqueuedKeeps(d, norm, s, a.tid, Item(a.tag, e));
    }
  }

  lemma EnqueuedKeeps(d: Hasher, norm: Normalizer, s: State, tid: Id, x: Item)
    requires Inv(d, norm, s) && tid in s.txns && s.txns[tid].Domain? && x.tag !in s.used && Normal(norm, x.event)
    ensures Inv(d, norm,
      Put(s.(nextOut := s.nextOut + 1, used := s.used + {x.tag}), tid, Domain(s.txns[tid].rows[s.nextOut := x])))
  {
    var t := s.txns[tid];
    var t' := Domain(t.rows[s.nextOut := x]);
    var s' := Put(s.(nextOut := s.nextOut + 1, used := s.used + {x.tag}), tid, t');
    assert StageOk(d, norm, s, t);
    OwnClaims(s.txns, tid);
    FreshTag(d, norm, s, tid, x.tag);
    FreshSeq(d, norm, s, tid);
    assert Claims(t') <= Claims(t) + {TagClaim(x.tag)} + {SeqClaim(s.nextOut)};
    assert RowsOk(norm, s', t'.rows);
    PutKeeps(d, norm, s, s', tid, t');
  }

  lemma BeginAppendKeeps(d: Hasher, norm: Normalizer, s: State, a: Action)
    requires Inv(d, norm, s) && Idempotent(norm) && a.BeginAppend?
    ensures Inv(d, norm, BeginAppendStep(norm, s, a))
  {
    var s' := BeginAppendStep(norm, s, a);
    if s' != s {
      NormalizeNormal(norm, a.kind, a.actor, a.subject, a.details);
      var e := Normalize(norm, a.kind, a.actor, a.subject, a.details).value;
      FreshTag(d, norm, s, a.tid, a.tag);
      PutKeeps(d, norm, s, s', a.tid, Waiting(AppendJob(Item(a.tag, e))));
    }
  }

  lemma LockKeeps(d: Hasher, norm: Normalizer, s: State, tid: Id, job: Job)
    requires Inv(d, norm, s) && tid in s.txns && s.txns[tid] == Waiting(job) && !LockHeld(s.txns)
    ensures Inv(d, norm, Put(s, tid, Locked(job)))
  {
    assert StageOk(d, norm, s, s.txns[tid]);
    OwnClaims(s.txns, tid);
    assert Uncontended(s.txns, tid, {LockClaim}) by {
      forall t | t in s.txns ensures LockClaim !in Claims(s.txns[t]) { assert !HoldsLock(s.txns[t]); }
    }
    assert Claims(Locked(job)) == {LockClaim} + Claims(s.txns[tid]);
    PutKeeps(d, norm, s, Put(s, tid, Locked(job)), tid, Locked(job));
  }

  lemma StartKeeps(d: Hasher, norm: Normalizer, s: State, tid: Id, job: Job, seqs: seq<nat>)
    requires Inv(d, norm, s) && tid in s.txns && s.txns[tid] == Locked(job)
    ensures Inv(d, norm, StartChaining(s, tid, job, seqs))
  {
    var s' := StartChaining(s, tid, job, seqs);
    if s' != s {
      assert StageOk(d, norm, s, s.txns[tid]);
      OwnClaims(s.txns, tid);
      var t := s'.txns[tid];
      assert Claims(t) <= Claims(s.txns[tid]);
      assert BatchOk(norm, s', t.seqs, t.items);
      PutKeeps(d, norm, s, s', tid, t);
    }
  }

  // ---- chaining one item ------------------------------------------------------------------------------

  lemma AppendLogOk(d: Hasher, norm: Normalizer, log: Log, e: Event, next: nat)
    requires LogOk(d, norm, log, next) && Normal(norm, e) && !HashTaken(log, d(PrevOf(log, |log|), e))
    ensures LogOk(d, norm, Append(d, log, e, next), next + 1)
  {
    AppendChained(d, log, e, next);
  }

  lemma BatchNormal(norm: Normalizer, s: State, seqs: seq<nat>, items: seq<Item>, i: nat)
    requires BatchOk(norm, s, seqs, items) && i < |items|
    ensures Normal(norm, items[i].event)
  {
    assert items[i] in items;
  }

  lemma ExtendsOne(d: Hasher, base: Log, t: Txn, next: nat)
    requires t.Chaining? && t.done < |t.items| && Extends(base, t.log, t.items, t.done)
    ensures Extends(base, Append(d, t.log, t.items[t.done].event, next), t.items, t.done + 1)
  {
  }

  lemma ChainedStage(d: Hasher, norm: Normalizer, s: State, s': State, t: Txn)
    requires StageOk(d, norm, s, t) && t.Chaining? && t.done < |t.items|
    requires !Collides(d, t)
    requires s'.db == s.db && s'.history == s.history && s'.used == s.used && s'.nextLog == s.nextLog + 1
    ensures StageOk(d, norm, s', t.(done := t.done + 1, log := Append(d, t.log, t.items[t.done].event, s.nextLog)))
  {
    BatchNormal(norm, s, t.seqs, t.items, t.done);
    AppendLogOk(d, norm, t.log, t.items[t.done].event, s.nextLog);
    ExtendsOne(d, s.db.log, t, s.nextLog);
    assert BatchOk(norm, s', t.seqs, t.items);
  }

  lemma ChainOneKeeps(d: Hasher, norm: Normalizer, s: State, tid: Id, t: Txn)
    requires Inv(d, norm, s) && tid in s.txns && s.txns[tid] == t && t.Chaining? && t.done < |t.items|
    requires !Collides(d, t)
    ensures Inv(d, norm, ChainStep(d, s, tid, t))
  {
    OwnClaims(s.txns, tid);
    var s' := ChainStep(d, s, tid, t);
    ChainedStage(d, norm, s, s', t);
    assert Claims(s'.txns[tid]) == Claims(t);
    PutKeeps(d, norm, s, s', tid, s'.txns[tid]);
  }

  lemma SkipNumberKeeps(d: Hasher, norm: Normalizer, s: State, tid: Id)
    requires Inv(d, norm, s)
    ensures Inv(d, norm, Drop(s.(nextLog := s.nextLog + 1), tid))
  {
    var s' := s.(nextLog := s.nextLog + 1);
    forall t | t in s'.txns ensures StageOk(d, norm, s', s'.txns[t]) { StageDraws(d, norm, s, s', s.txns[t]); }
    DropKeeps(d, norm, s', tid);
  }

  // ---- committing a domain transaction ------------------------------------------------------------------

  lemma DomainTables(norm: Normalizer, s: State, rows: Pending)
    requires RowsOk(norm, s, rows) && TagsOnce(s.db) && Conserved(s.db, s.history)
    ensures TagsOnce(s.db.(outbox := s.db.outbox + rows)) &&
      Conserved(s.db.(outbox := s.db.outbox + rows), s.history + RowItems(rows))
  {
    DomainTagsOnce(norm, s, rows);
    var db' := s.db.(outbox := s.db.outbox + rows);
    forall x | x in s.history + RowItems(rows) ensures InOutbox(db', x) || InLog(db', x) {
      if x in s.history {
        if InOutbox(s.db, x) {
          var q :| q in s.db.outbox && s.db.outbox[q] == x;
          assert q in db'.outbox && db'.outbox[q] == x;
        } else {
          var i: nat :| LogItem(s.db, i, x);
          assert LogItem(db', i, x);
        }
      } else {
        var q :| q in rows && rows[q] == x;
        assert q in db'.outbox && db'.outbox[q] == x;
      }
    }
  }

  lemma DomainTagsOnce(norm: Normalizer, s: State, rows: Pending)
    requires RowsOk(norm, s, rows) && TagsOnce(s.db) && Conserved(s.db, s.history)
    ensures TagsOnce(s.db.(outbox := s.db.outbox + rows))
  {
  }

  lemma FreshAfter(norm: Normalizer, history: set<Item>, more: set<Item>, used: set<Tag>, x: Item)
    requires FreshItem(norm, history, used, x) && forall y :: y in more ==> y.tag != x.tag
    ensures FreshItem(norm, history + more, used, x)
  {
  }

  lemma DomainFrame(d: Hasher, norm: Normalizer, s: State, tid: Id, rows: Pending, u: Txn)
    requires StageOk(d, norm, s, u) && StageOk(d, norm, s, Domain(rows)) && Claims(Domain(rows)) !! Claims(u)
    ensures StageOk(d, norm,
      Drop(s, tid).(db := s.db.(outbox := s.db.outbox + rows), history := s.history + RowItems(rows)), u)
  {
    var s' := Drop(s, tid).(db := s.db.(outbox := s.db.outbox + rows), history := s.history + RowItems(rows));
    var mine := Claims(Domain(rows));
    forall x: Item | TagClaim(x.tag) in Claims(u) && FreshItem(norm, s.history, s.used, x)
      ensures FreshItem(norm, s'.history, s'.used, x)
    {
      forall y | y in RowItems(rows) ensures y.tag != x.tag {
        var q :| q in rows && rows[q] == y;
        assert TagClaim(rows[q].tag) in mine;
      }
      FreshAfter(norm, s.history, RowItems(rows), s.used, x);
    }
    match u
    case Domain(others) =>
      forall q | q in others ensures q !in s'.db.outbox && FreshItem(norm, s'.history, s'.used, others[q]) {
        assert SeqClaim(q) in Claims(u) && TagClaim(others[q].tag) in Claims(u);
        assert q in rows ==> SeqClaim(q) in mine;
      }
    case Waiting(job) =>
    case Locked(job) =>
    case Chaining(seqs, items, done, log) =>
      if seqs == [] {
        forall x | x in items ensures FreshItem(norm, s'.history, s'.used, x) { assert TagClaim(x.tag) in Claims(u); }
      }
  }

  lemma DomainStages(d: Hasher, norm: Normalizer, s: State, tid: Id, rows: Pending)
    requires StagesOk(d, norm, s) && Exclusive(s.txns) && tid in s.txns && s.txns[tid] == Domain(rows)
    ensures StagesOk(d, norm,
      Drop(s, tid).(db := s.db.(outbox := s.db.outbox + rows), history := s.history + RowItems(rows)))
  {
    var s' := Drop(s, tid).(db := s.db.(outbox := s.db.outbox + rows), history := s.history + RowItems(rows));
    assert StageOk(d, norm, s, Domain(rows));
    forall t | t in s'.txns ensures StageOk(d, norm, s', s'.txns[t]) { DomainFrame(d, norm, s, tid, rows, s.txns[t]); }
  }

  lemma DomainKeeps(d: Hasher, norm: Normalizer, s: State, tid: Id, rows: Pending)
    requires Inv(d, norm, s) && tid in s.txns && s.txns[tid] == Domain(rows)
    ensures Inv(d, norm,
      Drop(s, tid).(db := s.db.(outbox := s.db.outbox + rows), history := s.history + RowItems(rows)))
  {
    assert StageOk(d, norm, s, Domain(rows));
    DomainTables(norm, s, rows);
    DomainStages(d, norm, s, tid, rows);
  }

  // ---- committing an append or a drain --------------------------------------------------------------------

  function CommittedTables(s: State, t: Txn): Tables
    requires t.Chaining?
  {
    Tables(Without(s.db.outbox, t.seqs), t.log, s.db.tags + TagsOf(t.items))
  }

  ghost predicate ReadyToCommit(d: Hasher, norm: Normalizer, s: State, t: Txn)
  {
    t.Chaining? && t.done == |t.items| && StageOk(d, norm, s, t)
  }

  /** Row |log| + i of the new log records item i. */
  lemma NewEntry(d: Hasher, norm: Normalizer, s: State, t: Txn, i: nat)
    requires ReadyToCommit(d, norm, s, t) && |s.db.tags| == |s.db.log| && i < |t.items|
    ensures LogItem(CommittedTables(s, t), |s.db.log| + i, t.items[i])
  {
  }

  lemma OldEntry(d: Hasher, norm: Normalizer, s: State, t: Txn, i: nat, x: Item)
    requires ReadyToCommit(d, norm, s, t) && |s.db.tags| == |s.db.log| && LogItem(s.db, i, x)
    ensures LogItem(CommittedTables(s, t), i, x)
  {
  }

  lemma CommitCovers(d: Hasher, norm: Normalizer, s: State, t: Txn, x: Item)
    requires ReadyToCommit(d, norm, s, t) && Conserved(s.db, s.history) && x in s.history + ItemSet(t.items)
    ensures InOutbox(CommittedTables(s, t), x) || InLog(CommittedTables(s, t), x)
  {
    var db' := CommittedTables(s, t);
    if x in t.items {
      var i :| 0 <= i < |t.items| && t.items[i] == x;
      NewEntry(d, norm, s, t, i);
    } else if InLog(s.db, x) {
      var i: nat :| LogItem(s.db, i, x);
      OldEntry(d, norm, s, t, i, x);
    } else {
      var q :| q in s.db.outbox && s.db.outbox[q] == x;
      forall i | 0 <= i < |t.seqs| ensures t.seqs[i] != q { assert t.items[i] in t.items; }
      assert q in db'.outbox && db'.outbox[q] == x;
    }
  }

  lemma CommitInHistory(d: Hasher, norm: Normalizer, s: State, t: Txn, i: nat)
    requires ReadyToCommit(d, norm, s, t) && Conserved(s.db, s.history) && i < |t.log|
    ensures Item(CommittedTables(s, t).tags[i], t.log[i].event) in s.history + ItemSet(t.items)
  {
  }

  lemma CommitConserved(d: Hasher, norm: Normalizer, s: State, t: Txn)
    requires ReadyToCommit(d, norm, s, t) && Conserved(s.db, s.history)
    ensures Conserved(CommittedTables(s, t), s.history + ItemSet(t.items))
  {
    var db' := CommittedTables(s, t);
    forall i | 0 <= i < |db'.log| ensures Item(db'.tags[i], db'.log[i].event) in s.history + ItemSet(t.items) {
      CommitInHistory(d, norm, s, t, i);
    }
    forall x | x in s.history + ItemSet(t.items) ensures InOutbox(db', x) || InLog(db', x) {
      CommitCovers(d, norm, s, t, x);
    }
  }

  /** The tags a job is about to record are in neither what stays in the outbox nor the log, and distinct. */
  lemma NewTags(d: Hasher, norm: Normalizer, s: State, t: Txn)
    requires ReadyToCommit(d, norm, s, t) && Conserved(s.db, s.history) && TagsOnce(s.db)
    ensures forall i, j :: 0 <= i < |s.db.tags| && 0 <= j < |t.items| ==> s.db.tags[i] != t.items[j].tag
    ensures forall i, j :: 0 <= i < j < |t.items| ==> t.items[i].tag != t.items[j].tag
    ensures forall q, j :: q in s.db.outbox && q !in t.seqs && 0 <= j < |t.items| ==>
      s.db.outbox[q].tag != t.items[j].tag
  {
    forall i, j | 0 <= i < |s.db.tags| && 0 <= j < |t.items| ensures s.db.tags[i] != t.items[j].tag {
      assert Item(s.db.tags[i], s.db.log[i].event) in s.history;
      assert t.items[j] in t.items;
    }
    forall q, j | q in s.db.outbox && q !in t.seqs && 0 <= j < |t.items| ensures s.db.outbox[q].tag != t.items[j].tag {
      assert t.items[j] in t.items;
      assert s.db.outbox[q] in s.history;
    }
  }

  lemma CommitTagsOnce(d: Hasher, norm: Normalizer, s: State, t: Txn)
    requires ReadyToCommit(d, norm, s, t) && Conserved(s.db, s.history) && TagsOnce(s.db)
    ensures TagsOnce(CommittedTables(s, t))
  {
    NewTags(d, norm, s, t);
    var db' := CommittedTables(s, t);
    var n := |s.db.tags|;
    forall i, j | 0 <= i < j < |db'.tags| ensures db'.tags[i] != db'.tags[j] {
      if i < n <= j { assert s.db.tags[i] != t.items[j - n].tag; }
      if n <= i { assert t.items[i - n].tag != t.items[j - n].tag; }
    }
    forall q, i | q in db'.outbox && 0 <= i < |db'.tags| ensures db'.outbox[q].tag != db'.tags[i] {
      if n <= i { assert s.db.outbox[q].tag != t.items[i - n].tag; }
    }
  }

  lemma CommitFrame(d: Hasher, norm: Normalizer, s: State, tid: Id, t: Txn, u: Txn)
    requires ReadyToCommit(d, norm, s, t) && StageOk(d, norm, s, u) && Claims(t) !! Claims(u) &&
      Conserved(s.db, s.history)
    ensures StageOk(d, norm, Drop(s, tid).(db := CommittedTables(s, t), history := s.history + ItemSet(t.items)), u)
  {
    var s' := Drop(s, tid).(db := CommittedTables(s, t), history := s.history + ItemSet(t.items));
    assert LockClaim in Claims(t);
    forall x: Item | TagClaim(x.tag) in Claims(u) && FreshItem(norm, s.history, s.used, x)
      ensures FreshItem(norm, s'.history, s'.used, x)
    {
      forall y | y in t.items ensures y.tag != x.tag {
        if t.seqs == [] { assert TagClaim(y.tag) in Claims(t); }
        else { var i :| 0 <= i < |t.items| && t.items[i] == y; assert s.db.outbox[t.seqs[i]] in s.history; }
      }
      FreshAfter(norm, s.history, ItemSet(t.items), s.used, x);
    }
    assert !HoldsLock(u);
    if u.Domain? {
      forall q | q in u.rows ensures FreshItem(norm, s'.history, s'.used, u.rows[q]) {
        assert TagClaim(u.rows[q].tag) in Claims(u);
      }
    }
  }

  lemma CommitOutbox(d: Hasher, norm: Normalizer, s: State, tid: Id, t: Txn)
    requires ReadyToCommit(d, norm, s, t) && OutboxOk(norm, s) && Conserved(s.db, s.history)
    ensures OutboxOk(norm, Drop(s, tid).(db := CommittedTables(s, t), history := s.history + ItemSet(t.items)))
  {
  }

  lemma CommitKeeps(d: Hasher, norm: Normalizer, s: State, tid: Id, t: Txn)
    requires Inv(d, norm, s) && tid in s.txns && s.txns[tid] == t && t.Chaining? && t.done == |t.items|
    ensures Inv(d, norm, ChainStep(d, s, tid, t))
  {
    assert StageOk(d, norm, s, t);
    var s' := Drop(s, tid).(db := CommittedTables(s, t), history := s.history + ItemSet(t.items));
    CommitConserved(d, norm, s, t);
    CommitTagsOnce(d, norm, s, t);
    CommitOutbox(d, norm, s, tid, t);
    forall u | u in s'.txns ensures StageOk(d, norm, s', s'.txns[u]) { CommitFrame(d, norm, s, tid, t, s.txns[u]); }
    assert ChainStep(d, s, tid, t) == s';
  }

  lemma CollisionKeeps(d: Hasher, norm: Normalizer, s: State, tid: Id, t: Txn)
    requires Inv(d, norm, s) && t.Chaining? && t.done < |t.items| && Collides(d, t)
    ensures Inv(d, norm, ChainStep(d, s, tid, t))
  {
    SkipNumberKeeps(d, norm, s, tid);
    assert ChainStep(d, s, tid, t) == Drop(s.(nextLog := s.nextLog + 1), tid);
  }

  lemma ChainKeeps(d: Hasher, norm: Normalizer, s: State, tid: Id, t: Txn)
    requires Inv(d, norm, s) && tid in s.txns && s.txns[tid] == t && t.Chaining?
    ensures Inv(d, norm, ChainStep(d, s, tid, t))
  {
    assert t.done <= |t.items| by { assert StageOk(d, norm, s, t); }
    if t.done == |t.items| {
      CommitKeeps(d, norm, s, tid, t);
    } else if Collides(d, t) {
      CollisionKeeps(d, norm, s, tid, t);
    } else {
      ChainOneKeeps(d, norm, s, tid, t);
    }
  }

  // ---- runs -------------------------------------------------------------------------------------------------

  lemma AdvanceKeeps(d: Hasher, norm: Normalizer, s: State, tid: Id, seqs: seq<nat>)
    requires Inv(d, norm, s) && tid in s.txns
    ensures Inv(d, norm, AdvanceStep(d, s, tid, seqs))
  {
    match s.txns[tid]
    case Domain(rows) => DomainKeeps(d, norm, s, tid, rows);
    case Waiting(job) => if !LockHeld(s.txns) { LockKeeps(d, norm, s, tid, job); }
    case Locked(job) => StartKeeps(d, norm, s, tid, job, seqs);
    case Chaining(_, _, _, _) => ChainKeeps(d, norm, s, tid, s.txns[tid]);
  }

  lemma StepKeeps(d: Hasher, norm: Normalizer, s: State, a: Action)
    requires Inv(d, norm, s) && Idempotent(norm)
    ensures Inv(d, norm, Step(d, norm, s, a))
  {
    match a
    case BeginDomain(tid) => if tid !in s.txns { PutKeeps(d, norm, s, Put(s, tid, Domain(map[])), tid, Domain(map[])); }
    case Enqueue(_, _, _, _, _, _) => EnqueueKeeps(d, norm, s, a);
    case BeginAppend(_, _, _, _, _, _) => BeginAppendKeeps(d, norm, s, a);
    case BeginDrain(tid, limit) =>
      var t := Waiting(DrainJob(limit));
      if tid !in s.txns { PutKeeps(d, norm, s, Put(s, tid, t), tid, t); }
    case Advance(tid, seqs) => if tid in s.txns { AdvanceKeeps(d, norm, s, tid, seqs); }
    case Rollback(tid) => DropKeeps(d, norm, s, tid);
  }

  lemma {:induction false} RunKeeps(d: Hasher, norm: Normalizer, s: State, actions: seq<Action>)
    requires Inv(d, norm, s) && Idempotent(norm)
    ensures Inv(d, norm, Run(d, norm, s, actions))
    decreases |actions|
  {
    if actions != [] {
      StepKeeps(d, norm, s, actions[0]);
      RunKeeps(d, norm, Step(d, norm, s, actions[0]), actions[1..]);
    }
  }

  /** Over every interleaving: each committed occurrence is in exactly one of outbox and log, in one
      place, with the event it was committed with; and the log as read back passes verification. */
  lemma ExactlyOnce(d: Hasher, norm: Normalizer, actions: seq<Action>, x: Item)
    requires Idempotent(norm)
    ensures var s := Run(d, norm, START, actions);
      && Chained(d, ReadBack(norm, s.db.log)) && Ordered(s.db.log)
      && (x in s.history <==> InOutbox(s.db, x) || InLog(s.db, x))
      && (forall p, q ::
            p in s.db.outbox && q in s.db.outbox && s.db.outbox[p].tag == x.tag && s.db.outbox[q].tag == x.tag ==>
            p == q)
      && (forall i: nat, j: nat ::
            i < |s.db.tags| && j < |s.db.tags| && s.db.tags[i] == x.tag && s.db.tags[j] == x.tag ==> i == j)
      && !(InOutbox(s.db, x) && InLog(s.db, x))
  {
    RunKeeps(d, norm, START, actions);
    var s := Run(d, norm, START, actions);
    ReadBackSame(norm, s.db.log);
    if InLog(s.db, x) { var i: nat :| LogItem(s.db, i, x); assert Item(s.db.tags[i], s.db.log[i].event) in s.history; }
  }

  /** What ListAuditEntries returns: the details column in its canonical text. */
  function ReadBack(norm: Normalizer, log: Log): (r: Log)
    ensures |r| == |log|
  {
    seq(|log|, i requires 0 <= i < |log| =>
      var text := norm(log[i].event.details);
      if text.Some? then log[i].(event := log[i].event.(details := text.value)) else log[i])
  }

  lemma ReadBackSame(norm: Normalizer, log: Log)
    requires AllNormal(norm, log)
    ensures ReadBack(norm, log) == log
  {
  }

  // ---- drains -----------------------------------------------------------------------------------------------

  lemma {:induction false} RunSnoc(d: Hasher, norm: Normalizer, s: State, actions: seq<Action>, a: Action)
    ensures Run(d, norm, s, actions + [a]) == Step(d, norm, Run(d, norm, s, actions), a)
    decreases |actions|
  {
    if actions == [] {
      assert (actions + [a])[1..] == [];
    } else {
      assert (actions + [a])[1..] == actions[1..] + [a];
      RunSnoc(d, norm, Step(d, norm, s, actions[0]), actions[1..], a);
    }
  }

  /** In this state, this action reads a batch: the oldest rows there are, up to the limit, with the lock
      held. */
  ghost predicate Reads(s: State, a: Action, tid: Id, limit: nat, seqs: seq<nat>, items: seq<Item>)
  {
    && a == Advance(tid, seqs) && tid in s.txns && s.txns[tid] == Locked(DrainJob(limit))
    && Oldest(s.db.outbox, limit, seqs) && items == ItemsAt(s.db.outbox, seqs)
  }

  ghost predicate ReadAt(
      d: Hasher, norm: Normalizer, actions: seq<Action>, j: nat, tid: Id, limit: nat, seqs: seq<nat>, items: seq<Item>)
  {
    j < |actions| && Reads(Run(d, norm, START, actions[..j]), actions[j], tid, limit, seqs, items)
  }

  /** A drain at work was at work on the same batch before, or this step reads it. */
  lemma BatchStep(d: Hasher, norm: Normalizer, s: State, a: Action, tid: Id) returns (limit: nat)
    requires var s' := Step(d, norm, s, a); tid in s'.txns && s'.txns[tid].Chaining? && s'.txns[tid].seqs != []
    ensures var t := Step(d, norm, s, a).txns[tid];
      || (tid in s.txns && s.txns[tid].Chaining? && s.txns[tid].seqs == t.seqs && s.txns[tid].items == t.items)
      || Reads(s, a, tid, limit, t.seqs, t.items)
  {
    limit := 0;
    if a.Advance? && a.tid == tid && tid in s.txns && s.txns[tid].Locked? && s.txns[tid].job.DrainJob? {
      limit := s.txns[tid].job.limit;
    }
  }

  /** Every batch being chained was read at some step of the run as the oldest rows of the outbox. */
  lemma {:induction false} BatchWasRead(d: Hasher, norm: Normalizer, actions: seq<Action>, tid: Id)
    returns (j: nat, limit: nat)
    requires var s := Run(d, norm, START, actions); tid in s.txns && s.txns[tid].Chaining? && s.txns[tid].seqs != []
    ensures var t := Run(d, norm, START, actions).txns[tid];
      ReadAt(d, norm, actions, j, tid, limit, t.seqs, t.items)
    decreases |actions|
  {
    var before, a := actions[..|actions| - 1], actions[|actions| - 1];
    assert actions == before + [a];
    RunSnoc(d, norm, START, before, a);
    var s := Run(d, norm, START, before);
    var t := Run(d, norm, START, actions).txns[tid];
    limit := BatchStep(d, norm, s, a, tid);
    if Reads(s, a, tid, limit, t.seqs, t.items) {
      j := |before|;
    } else {
      j, limit := BatchWasRead(d, norm, before, tid);
      assert before[..j] == actions[..j];
    }
  }

  lemma CommitsInOrder(d: Hasher, norm: Normalizer, s: State, tid: Id, t: Txn)
    requires ReadyToCommit(d, norm, s, t) && |s.db.tags| == |s.db.log| && t.seqs != []
    ensures var s' := ChainStep(d, s, tid, t); var n := |s.db.log|;
      && s.db.log <= s'.db.log && |s'.db.log| == n + |t.seqs| && Increasing(t.seqs)
      && (forall i :: 0 <= i < |t.seqs| ==> t.seqs[i] in s.db.outbox && LogItem(s'.db, n + i, s.db.outbox[t.seqs[i]]))
      && (forall q :: q in s'.db.outbox <==> q in s.db.outbox && q !in t.seqs)
  {
  }

  /** Over every interleaving: the commit of a drain appends to the log as it then is, in increasing seq
      order, the rows that were the oldest of the outbox when it read them under the lock, as they were
      then, and removes exactly them. */
  lemma DrainInOrder(d: Hasher, norm: Normalizer, actions: seq<Action>, tid: Id, seqs: seq<nat>, s: State, t: Txn)
    returns (j: nat, limit: nat)
    requires Idempotent(norm) && s == Run(d, norm, START, actions) && tid in s.txns && s.txns[tid] == t
    requires t.Chaining? && t.done == |t.items| && t.seqs != []
    ensures var s' := Step(d, norm, s, Advance(tid, seqs)); var n := |s.db.log|;
      && s.db.log <= s'.db.log && |s'.db.log| == n + |t.seqs| && Increasing(t.seqs)
      && (forall i :: 0 <= i < |t.seqs| ==> t.seqs[i] in s.db.outbox && LogItem(s'.db, n + i, s.db.outbox[t.seqs[i]]))
      && (forall q :: q in s'.db.outbox <==> q in s.db.outbox && q !in t.seqs)
    ensures ReadAt(d, norm, actions, j, tid, limit, t.seqs, t.items)
    ensures |t.items| == |t.seqs| && forall i :: 0 <= i < |t.seqs| ==> s.db.outbox[t.seqs[i]] == t.items[i]
  {
    RunKeeps(d, norm, START, actions);
    assert StageOk(d, norm, s, t);
    CommitsInOrder(d, norm, s, tid, t);
    j, limit := BatchWasRead(d, norm, actions, tid);
  }
}
