/** Where audit records come from and that none is lost: over every interleaving, each one goes back to the
    call that asked for it and says what that call said, and each committed one is found from then on. */
module OutboxOrigins {
  import opened Basics
  import opened Octets
  import opened HashChain
  import opened Outbox
  import opened OutboxSafety

  // ---- what is written ----------------------------------------------------------------------------------

  /** The text whose canonical form is stored: the given details, or an empty object. */
  function DetailsText(details: Option<Bytes>): Bytes { if details.Some? then details.value else [123, 125] }

  /** This call asks for this record: its type, actor and subject, and its details in canonical form. */
  ghost predicate AsksFor(norm: Normalizer, a: Action, x: Item)
  {
    && (a.Enqueue? || a.BeginAppend?) && x.tag == a.tag
    && x.event.kind == a.kind && x.event.actor == a.actor && x.event.subject == a.subject
    && norm(DetailsText(a.details)) == Some(x.event.details)
  }

  /** An enqueue with details that are not JSON ends its transaction; any other adds one row, at the next
      number, that says what the caller said. */
  lemma EnqueueLands(norm: Normalizer, s: State, a: Action)
    requires a.Enqueue? && a.tid in s.txns && s.txns[a.tid].Domain? && a.tag !in s.used
    ensures norm(DetailsText(a.details)).None? ==> EnqueueStep(norm, s, a) == Drop(s, a.tid)
    ensures norm(DetailsText(a.details)).Some? ==>
      var s', rows := EnqueueStep(norm, s, a), s.txns[a.tid].rows;
      && a.tid in s'.txns && s'.txns[a.tid].Domain? && s.nextOut in s'.txns[a.tid].rows
      && AsksFor(norm, a, s'.txns[a.tid].rows[s.nextOut])
      && s'.txns[a.tid].rows == rows[s.nextOut := s'.txns[a.tid].rows[s.nextOut]]
      && s' == s.(txns := s.txns[a.tid := s'.txns[a.tid]], nextOut := s.nextOut + 1, used := s.used + {a.tag})
  {
  }

  /** The same for a direct append, which then waits for the lock. */
  lemma AppendLands(norm: Normalizer, s: State, a: Action)
    requires a.BeginAppend? && a.tid !in s.txns && a.tag !in s.used
    ensures norm(DetailsText(a.details)).None? ==> BeginAppendStep(norm, s, a) == s
    ensures norm(DetailsText(a.details)).Some? ==>
      var s' := BeginAppendStep(norm, s, a);
      && a.tid in s'.txns && s'.txns[a.tid].Waiting? && s'.txns[a.tid].job.AppendJob?
      && AsksFor(norm, a, s'.txns[a.tid].job.item)
      && s' == s.(txns := s.txns[a.tid := s'.txns[a.tid]], used := s.used + {a.tag})
  {
  }

  // ---- every record was asked for -------------------------------------------------------------------------

  ghost predicate Asked(norm: Normalizer, actions: seq<Action>, x: Item)
  {
    exists j :: 0 <= j < |actions| && AsksFor(norm, actions[j], x)
  }

  lemma AskedLonger(norm: Normalizer, actions: seq<Action>, a: Action, x: Item)
    requires Asked(norm, actions, x) || AsksFor(norm, a, x)
    ensures Asked(norm, actions + [a], x)
  {
    if Asked(norm, actions, x) {
      var j :| 0 <= j < |actions| && AsksFor(norm, actions[j], x);
      assert (actions + [a])[j] == actions[j];
    } else {
      assert (actions + [a])[|actions|] == a;
    }
  }

  ghost predicate InRows(rows: Pending, x: Item) { exists q :: q in rows && rows[q] == x }

  /** A running transaction holds this record. */
  ghost predicate Carries(t: Txn, x: Item)
  {
    match t
    case Domain(rows) => InRows(rows, x)
    case Waiting(job) => job == AppendJob(x)
    case Locked(job) => job == AppendJob(x)
    case Chaining(_, items, _, _) => x in items
  }

  ghost predicate CarriedBy(s: State, tid: Id, x: Item) { tid in s.txns && Carries(s.txns[tid], x) }

  ghost predicate Present(s: State, x: Item)
  {
    x in s.history || InOutbox(s.db, x) || exists tid :: CarriedBy(s, tid, x)
  }

  lemma CarriesStep(d: Hasher, norm: Normalizer, s: State, a: Action, tid: Id, x: Item)
    requires CarriedBy(Step(d, norm, s, a), tid, x)
    ensures Present(s, x) || AsksFor(norm, a, x)
  {
    if CarriedBy(s, tid, x) {
    } else if a.Enqueue? {
      EnqueueLands(norm, s, a);
      var rows := Step(d, norm, s, a).txns[tid].rows;
      var q: nat :| q in rows && rows[q] == x;
    } else if a.Advance? {
      var t := s.txns[tid];
      assert t.Locked? && t.job.DrainJob?;
      assert Oldest(s.db.outbox, t.job.limit, a.seqs);
      var i :| 0 <= i < |a.seqs| && ItemsAt(s.db.outbox, a.seqs)[i] == x;
      assert s.db.outbox[a.seqs[i]] == x;
    }
  }

  lemma PresentStep(d: Hasher, norm: Normalizer, s: State, a: Action, x: Item)
    requires Present(Step(d, norm, s, a), x)
    ensures Present(s, x) || AsksFor(norm, a, x)
  {
    var s' := Step(d, norm, s, a);
    if tid :| CarriedBy(s', tid, x) {
      CarriesStep(d, norm, s, a, tid, x);
    } else if a.Advance? && a.tid in s.txns {
      if !CarriedBy(s, a.tid, x) { OthersOnly(d, s, a.tid, a.seqs, x); }
    }
  }

  /** A commit adds to the tables only what its transaction holds. */
  lemma OthersOnly(d: Hasher, s: State, tid: Id, seqs: seq<nat>, x: Item)
    requires tid in s.txns && !Carries(s.txns[tid], x)
    ensures var s' := AdvanceStep(d, s, tid, seqs);
      (x in s'.history ==> x in s.history) && (InOutbox(s'.db, x) ==> InOutbox(s.db, x))
  {
    var s' := AdvanceStep(d, s, tid, seqs);
    if s.txns[tid].Domain? {
      var rows := s.txns[tid].rows;
      forall q | q in rows ensures rows[q] != x { assert !InRows(rows, x); }
    }
    if InOutbox(s'.db, x) {
      var q :| q in s'.db.outbox && s'.db.outbox[q] == x;
      assert q in s.db.outbox && s.db.outbox[q] == x;
    }
  }

  lemma {:induction false} PresentWasAsked(d: Hasher, norm: Normalizer, actions: seq<Action>, x: Item)
    requires Present(Run(d, norm, START, actions), x)
    ensures Asked(norm, actions, x)
    decreases |actions|
  {
    if actions != [] {
      var before, a := actions[..|actions| - 1], actions[|actions| - 1];
      assert actions == before + [a];
      RunSnoc(d, norm, START, before, a);
      PresentStep(d, norm, Run(d, norm, START, before), a, x);
      if Present(Run(d, norm, START, before), x) { PresentWasAsked(d, norm, before, x); }
      AskedLonger(norm, before, a, x);
    }
  }

  /** Every record committed, waiting in the outbox or in the log was asked for, by a call with its tag, type,
      actor and subject, and details of which its own are the canonical form. */
  lemma RecordWasAsked(d: Hasher, norm: Normalizer, actions: seq<Action>, x: Item)
    requires Idempotent(norm)
    requires var s := Run(d, norm, START, actions); x in s.history || InOutbox(s.db, x) || InLog(s.db, x)
    ensures Asked(norm, actions, x)
  {
    ExactlyOnce(d, norm, actions, x);
    PresentWasAsked(d, norm, actions, x);
  }

  // ---- no record is lost ------------------------------------------------------------------------------------

  lemma HistoryStep(d: Hasher, norm: Normalizer, s: State, a: Action)
    ensures s.history <= Step(d, norm, s, a).history
  {
  }

  lemma {:induction false} HistoryGrows(d: Hasher, norm: Normalizer, s: State, actions: seq<Action>)
    ensures s.history <= Run(d, norm, s, actions).history
    decreases |actions|
  {
    if actions != [] {
      HistoryStep(d, norm, s, actions[0]);
      HistoryGrows(d, norm, Step(d, norm, s, actions[0]), actions[1..]);
    }
  }

  lemma {:induction false} RunConcat(d: Hasher, norm: Normalizer, s: State, a: seq<Action>, b: seq<Action>)
    ensures Run(d, norm, s, a + b) == Run(d, norm, Run(d, norm, s, a), b)
    decreases |a|
  {
    if a == [] {
      assert a + b == b;
    } else {
      assert (a + b)[1..] == a[1..] + b;
      RunConcat(d, norm, Step(d, norm, s, a[0]), a[1..], b);
    }
  }

  /** The transaction is about to commit: a domain transaction, or a job with all its items chained. */
  ghost predicate AboutToCommit(t: Txn) { t.Domain? || (t.Chaining? && t.done == |t.items|) }

  /** Whatever a transaction holds when it commits is from then on in the outbox or in the log. */
  lemma CommittedIsKept(
      d: Hasher, norm: Normalizer, before: seq<Action>, tid: Id, seqs: seq<nat>, after: seq<Action>, x: Item)
    requires Idempotent(norm)
    requires var s := Run(d, norm, START, before); CarriedBy(s, tid, x) && AboutToCommit(s.txns[tid])
    ensures var s' := Run(d, norm, START, before + [Advance(tid, seqs)] + after); InOutbox(s'.db, x) || InLog(s'.db, x)
  {
    var s := Run(d, norm, START, before);
    RunSnoc(d, norm, START, before, Advance(tid, seqs));
    assert x in Step(d, norm, s, Advance(tid, seqs)).history;
    RunConcat(d, norm, START, before + [Advance(tid, seqs)], after);
    HistoryGrows(d, norm, Step(d, norm, s, Advance(tid, seqs)), after);
    ExactlyOnce(d, norm, before + [Advance(tid, seqs)] + after, x);
  }
}
