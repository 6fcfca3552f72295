/** What the workflow promises over time: nothing resolved is reopened, nothing ended comes back,
    nothing ends twice, and what is deleted leaves no trace in the tables. */
module AccessHistory {
  import opened Basics
  import opened Durations
  import opened AccessMachine
  import opened AccessSafety
  import opened AccessCommits
  import opened AccessEnds

  // ---- what a reachable state says ---------------------------------------------------------------------

  /** Every request in the tables has a grant exactly if it is granted, and then one. A granted request
      was granted by as many approvers as its threshold, none of them the requester, and the approvals
      in the table are those of the ones who still exist; any other has fewer than its threshold. Two
      pending requests differ in requester, role or asset. */
  lemma WorkflowSafe(actions: seq<Action>, maxTtl: int, r: Id)
    requires r in Run(START, actions, maxTtl).db.requests
    ensures var db := Run(START, actions, maxTtl).db; var row, deciders := db.requests[r], Deciders(db, r);
      && row.requester !in Approvers(db.votes, r)
      && |GrantsOf(db.grants, r)| == Times(row.status == Granted)
      && (row.status == Granted ==>
            |deciders| == row.required && row.requester !in deciders &&
              Approvers(db.votes, r) == Remaining(deciders, db.gone))
      && (row.status != Granted ==> |Approvers(db.votes, r)| < row.required)
      && (forall q :: q in db.requests && q != r && row.status == Pending && db.requests[q].status == Pending ==>
            KeyOf(db.requests[q]) != KeyOf(row))
  {
    Reachable(actions, maxTtl);
    RequestSays(Run(START, actions, maxTtl).db, r, maxTtl);
  }

  lemma RequestSays(db: Tables, r: Id, maxTtl: int)
    requires RequestsOk(db, maxTtl) && PendingUnique(db.requests) && r in db.requests
    ensures var row, deciders := db.requests[r], Deciders(db, r);
      && row.requester !in Approvers(db.votes, r)
      && |GrantsOf(db.grants, r)| == Times(row.status == Granted)
      && (row.status == Granted ==>
            |deciders| == row.required && row.requester !in deciders &&
              Approvers(db.votes, r) == Remaining(deciders, db.gone))
      && (row.status != Granted ==> |Approvers(db.votes, r)| < row.required)
      && (forall q :: q in db.requests && q != r && row.status == Pending && db.requests[q].status == Pending ==>
            KeyOf(db.requests[q]) != KeyOf(row))
  {
    assert RequestOk(db, r, maxTtl);
  }

  /** A voter whose ballot decided the request has been deleted since. */
  ghost predicate DeciderGone(db: Tables, r: Id) { exists a :: a in Deciders(db, r) && UserRef(a) in db.gone }

  /** The ballots in the table tell a granted request from the others exactly unless it is granted and one
      of its deciders was deleted; likewise for denials. */
  lemma BallotsTellExactly(actions: seq<Action>, maxTtl: int, r: Id)
    requires r in Run(START, actions, maxTtl).db.requests
    ensures var db := Run(START, actions, maxTtl).db; var row := db.requests[r];
      && ((row.status == Granted <==> |Approvers(db.votes, r)| >= row.required) <==>
            !(row.status == Granted && DeciderGone(db, r)))
      && ((row.status == Denied <==> exists a :: Denies(db.votes, r, a)) <==>
            !(row.status == Denied && DeciderGone(db, r)))
  {
    Reachable(actions, maxTtl);
    var db := Run(START, actions, maxTtl).db;
    assert RequestOk(db, r, maxTtl);
    GrantTold(db.votes, Deciders(db, r), db.gone, r, db.requests[r]);
    DenialTold(db.votes, Deciders(db, r), db.gone, r, db.requests[r]);
  }

  lemma GrantTold(votes: Votes, deciders: set<Id>, gone: set<Ref>, r: Id, row: Request)
    requires GrantTally(votes, deciders, gone, r, row)
    ensures (row.status == Granted <==> |Approvers(votes, r)| >= row.required) <==>
      !(row.status == Granted && exists a :: a in deciders && UserRef(a) in gone)
  {
    if a :| a in deciders && UserRef(a) in gone {
      assert Remaining(deciders, gone) <= deciders - {a};
      SubsetSize(Remaining(deciders, gone), deciders - {a});
    } else {
      assert Remaining(deciders, gone) == deciders;
    }
  }

  lemma DenialTold(votes: Votes, deciders: set<Id>, gone: set<Ref>, r: Id, row: Request)
    requires DenyTally(votes, deciders, gone, r, row)
    ensures (row.status == Denied <==> exists a :: Denies(votes, r, a)) <==>
      !(row.status == Denied && exists a :: a in deciders && UserRef(a) in gone)
  {
    if row.status == Denied {
      var d :| deciders == {d} && forall a :: Denies(votes, r, a) <==> a in Remaining({d}, gone);
      assert Denies(votes, r, d) <==> UserRef(d) !in gone;
    }
  }

  lemma GrantWindow(db: Tables, g: Id, maxTtl: int)
    requires RequestsOk(db, maxTtl) && NoOrphans(db) && g in db.grants
    ensures var row := db.requests[db.grants[g].request];
      && row.granted == Clamp(RequestedDuration(row.seconds), row.cap, maxTtl)
      && (db.grants[g].window == row.granted || db.grants[g].window == VotedWindow(row.granted))
  {
    var r := db.grants[g].request;
    assert RequestOk(db, r, maxTtl);
    assert g in GrantsOf(db.grants, r);
  }

  /** Every grant of a request for whole seconds has a positive window within cap and server limit. */
  lemma WindowsSafe(actions: seq<Action>, maxTtl: int, g: Id)
    requires MICRO <= maxTtl < TWO63
    requires g in Run(START, actions, maxTtl).db.grants
    ensures var db := Run(START, actions, maxTtl).db;
      && db.grants[g].request in db.requests
      && var row := db.requests[db.grants[g].request];
         0 < row.seconds && Int64(row.seconds * SECOND) && Int64(Nanos(row.cap)) ==>
           0 < db.grants[g].window <= Ceiling(row.cap, maxTtl)
  {
    Reachable(actions, maxTtl);
    var db := Run(START, actions, maxTtl).db;
    var r := db.grants[g].request;
    GrantWindow(db, g, maxTtl);
    var row := db.requests[r];
    if 0 < row.seconds && Int64(row.seconds * SECOND) && Int64(Nanos(row.cap)) {
      WholeSecondsBounded(row.seconds, row.cap, maxTtl);
    }
  }

  /** The four routes together produce at most one end event and one terminator call per grant, the
      call only after a committed end; a grant on record is revoked exactly if its end is on record. */
  lemma EndsAtMostOnce(actions: seq<Action>, maxTtl: int, g: Id)
    ensures var s := Run(START, actions, maxTtl);
      && s.torn[g] <= EndCount(s.audit, g) <= 1
      && (g in s.db.grants ==> (s.db.grants[g].revoked <==> EndCount(s.audit, g) == 1))
  {
    Reachable(actions, maxTtl);
    var s := Run(START, actions, maxTtl);
    assert EndCount(s.audit, g) <= 1;
    if g in s.db.grants { assert GrantAudited(s.audit, g, s.db.grants[g]); }
  }

  predicate IsGone(db: Tables, ref: Ref) { if ref.RoleRef? then ref.id !in db.roles else ref in db.gone }

  /** A role, user or asset that is gone is mentioned by no request, ballot or grant. */
  lemma GoneUnmentioned(actions: seq<Action>, maxTtl: int, ref: Ref)
    requires IsGone(Run(START, actions, maxTtl).db, ref)
    ensures var db := Run(START, actions, maxTtl).db;
      && (forall r :: r in db.requests ==> !OfRequest(ref, db.requests[r]))
      && (forall b :: b in db.votes ==> ref != UserRef(b.approver) && b.request in db.requests)
      && (forall g :: g in db.grants ==> !OfGrant(ref, db.grants[g]))
  {
    Reachable(actions, maxTtl);
    var db := Run(START, actions, maxTtl).db;
    forall r | r in db.requests ensures !OfRequest(ref, db.requests[r]) { assert RequestOk(db, r, maxTtl); }
    forall g | g in db.grants ensures !OfGrant(ref, db.grants[g]) { GrantRefers(db, g, ref, maxTtl); }
  }

  // ---- what never changes ------------------------------------------------------------------------------

  ghost predicate RequestsForward(db: Tables, db': Tables)
  {
    forall r :: r in db.requests && r in db'.requests ==>
      && db'.requests[r] == db.requests[r].(status := db'.requests[r].status)
      && (db.requests[r].status != Pending ==> db'.requests[r].status == db.requests[r].status)
  }

  /** Ballots stand as long as their request and their voter do. */
  ghost predicate VotesForward(db: Tables, db': Tables)
  {
    && db.gone <= db'.gone
    && forall b :: b in db.votes && b.request in db'.requests && UserRef(b.approver) !in db'.gone ==>
         b in db'.votes && db'.votes[b] == db.votes[b]
  }

  ghost predicate DecidedForward(db: Tables, db': Tables)
  {
    forall r :: r in db.requests && r in db'.requests && db.requests[r].status != Pending ==>
      Deciders(db', r) == Deciders(db, r)
  }

  ghost predicate GrantsForward(db: Tables, db': Tables)
  {
    forall g :: g in db.grants && g in db'.grants ==>
      && db'.grants[g] == db.grants[g].(revoked := db'.grants[g].revoked)
      && (db.grants[g].revoked ==> db'.grants[g].revoked)
  }

  /** What was committed once and is gone does not come back. */
  ghost predicate GoneForward(db: Tables, born: set<Id>, db': Tables)
  {
    && (forall r :: r in born && r !in db.requests ==> r !in db'.requests)
    && (forall g :: g in born && g !in db.grants ==> g !in db'.grants)
  }

  ghost predicate Forward(s: State, s': State)
  {
    && RequestsForward(s.db, s'.db) && DecidedForward(s.db, s'.db) && VotesForward(s.db, s'.db)
    && GrantsForward(s.db, s'.db) && GoneForward(s.db, s.born, s'.db) && s.born <= s'.born
    && s.audit <= s'.audit && s.torn <= s'.torn
  }

  lemma ForwardTrans(s: State, m: State, e: State)
    requires Forward(s, m) && Forward(m, e)
    requires IdsOk(s.db, s.used, s.born) && NoOrphans(s.db)
    ensures Forward(s, e)
  {
  }

  ghost predicate DbForward(db: Tables, born: set<Id>, db': Tables)
  {
    && RequestsForward(db, db') && DecidedForward(db, db') && VotesForward(db, db')
    && GrantsForward(db, db') && GoneForward(db, born, db')
  }

  lemma VotedForward(db: Tables, used: set<Id>, born: set<Id>, t: Txn, maxTtl: int)
    requires t.VoteResolved? && StageOk(db, used, born, t, maxTtl) && IdsOk(db, used, born)
    ensures DbForward(db, born, VotedDb(db, t))
  {
  }

  lemma CancelledForward(db: Tables, born: set<Id>, r: Id)
    requires r in db.requests && db.requests[r].status == Pending
    ensures DbForward(db, born, CancelledDb(db, r))
  {
  }

  lemma OpenedForward(db: Tables, used: set<Id>, born: set<Id>, t: Txn, maxTtl: int)
    requires t.OpenInserted? && StageOk(db, used, born, t, maxTtl) && IdsOk(db, used, born) && NoOrphans(db)
    ensures DbForward(db, born, OpenedDb(db, t))
  {
  }

  lemma WithoutForward(db: Tables, born: set<Id>, ref: Ref)
    ensures DbForward(db, born, Without(db, ref))
  {
  }

  lemma EndedForward(db: Tables, born: set<Id>, route: Route, rows: set<Id>)
    ensures DbForward(db, born, EndedDb(db, route, rows))
  {
  }

  /** Steps that change no request, ballot, grant or audit row. */
  ghost predicate Quiet(s: State, s': State)
  {
    && s'.db == s.db.(roles := s'.db.roles) && s'.born == s.born && s'.audit == s.audit && s.torn <= s'.torn
  }

  ghost predicate Committing(t: Txn) { t.VoteResolved? || t.CancelSet? || t.OpenInserted? || t.EndUpdated? }

  predicate Deletes(a: Action) { a.DeleteUser? || a.DeleteAsset? }

  predicate Voting(t: Txn) { t.VoteBegun? || t.VoteLocked? || t.VoteChecked? || t.VoteCast? || t.VoteResolved? }

  lemma QuietVote(s: State, tid: Id, env: Env)
    requires tid in s.txns && Voting(s.txns[tid]) && !Committing(s.txns[tid])
    ensures Quiet(s, AdvanceStep(s, tid, env).s)
  {
  }

  lemma QuietEnd(s: State, tid: Id, env: Env)
    requires tid in s.txns && !Voting(s.txns[tid]) && !Committing(s.txns[tid])
    ensures Quiet(s, AdvanceStep(s, tid, env).s)
  {
  }

  lemma QuietAdvance(s: State, tid: Id, env: Env)
    requires tid in s.txns && !Committing(s.txns[tid])
    ensures Quiet(s, AdvanceStep(s, tid, env).s)
  {
    if Voting(s.txns[tid]) { QuietVote(s, tid, env); } else { QuietEnd(s, tid, env); }
  }

  lemma QuietStep(s: State, a: Action, maxTtl: int)
    requires !Deletes(a) && (a.Advance? && a.tid in s.txns ==> !Committing(s.txns[a.tid]))
    ensures Quiet(s, Step(s, a, maxTtl).s)
  {
    if a.Advance? && a.tid in s.txns { QuietAdvance(s, a.tid, a.env); }
  }

  lemma QuietForward(s: State, s': State)
    requires Quiet(s, s') && NoOrphans(s.db)
    ensures Forward(s, s')
  {
  }

  /** What a commit makes of the tables and the records beside them. */
  lemma CommitShape(s: State, tid: Id, env: Env)
    requires tid in s.txns && Committing(s.txns[tid])
    ensures var t := s.txns[tid]; var s' := AdvanceStep(s, tid, env).s;
      && s.born <= s'.born && s.audit <= s'.audit && s.torn <= s'.torn
      && (t.VoteResolved? ==> s'.db == if t.request in s.db.requests then VotedDb(s.db, t) else s.db)
      && (t.CancelSet? ==> s'.db == if t.request in s.db.requests then CancelledDb(s.db, t.request) else s.db)
      && (t.OpenInserted? ==> s'.db == OpenedDb(s.db, t))
      && (t.EndUpdated? ==> s'.db == s.db || s'.db == EndedDb(s.db, t.route, t.rows))
  {
  }

  lemma SameForward(db: Tables, born: set<Id>)
    requires NoOrphans(db)
    ensures DbForward(db, born, db)
  {
  }

  lemma CommitForward(s: State, tid: Id, env: Env, maxTtl: int)
    requires IdsOk(s.db, s.used, s.born) && NoOrphans(s.db)
    requires tid in s.txns && Committing(s.txns[tid]) && StageOk(s.db, s.used, s.born, s.txns[tid], maxTtl)
    ensures Forward(s, AdvanceStep(s, tid, env).s)
  {
    var t := s.txns[tid];
    CommitShape(s, tid, env);
    assert DbForward(s.db, s.born, AdvanceStep(s, tid, env).s.db) by {
      match t
      case VoteResolved(_, _, _, _) => VotedForward(s.db, s.used, s.born, t, maxTtl);
      case CancelSet(_, _) => CancelledForward(s.db, s.born, t.request);
      case OpenInserted(_, _, _) => OpenedForward(s.db, s.used, s.born, t, maxTtl);
      case EndUpdated(_, _) => EndedForward(s.db, s.born, t.route, t.rows); SameForward(s.db, s.born);
    }
  }

  lemma DeleteForward(s: State, ref: Ref)
    requires NoOrphans(s.db)
    ensures Forward(s, DeleteStep(s, ref).s)
  {
    WithoutForward(s.db, s.born, ref);
    SameForward(s.db, s.born);
  }

  lemma StepForward(s: State, a: Action, maxTtl: int)
    requires IdsOk(s.db, s.used, s.born) && NoOrphans(s.db) && StagesOk(s, maxTtl)
    ensures Forward(s, Step(s, a, maxTtl).s)
  {
    if a.Advance? && a.tid in s.txns && Committing(s.txns[a.tid]) {
      CommitForward(s, a.tid, a.env, maxTtl);
    } else if Deletes(a) {
      DeleteForward(s, if a.DeleteUser? then UserRef(a.user) else AssetRef(a.target));
    } else {
      QuietStep(s, a, maxTtl);
      QuietForward(s, Step(s, a, maxTtl).s);
    }
  }

  /** Over every run from a reachable state: resolved requests keep their status and who decided them,
      ballots stand while their request and their voter do, grants change in nothing but becoming
      revoked, and what is gone stays gone. */
  lemma {:induction false} RunForward(s: State, actions: seq<Action>, maxTtl: int)
    requires Inv(s, maxTtl)
    ensures Forward(s, Run(s, actions, maxTtl))
    decreases |actions|
  {
    if actions != [] {
      var m := Step(s, actions[0], maxTtl).s;
      StepKeeps(s, actions[0], maxTtl);
      StepForward(s, actions[0], maxTtl);
      RunForward(m, actions[1..], maxTtl);
      ForwardTrans(s, m, Run(s, actions, maxTtl));
    }
  }

  /** The active flag of a grant. */
  predicate Active(grants: Grants, g: Id, now: int)
  {
    g in grants && !grants[g].revoked && grants[g].at + grants[g].window > now
  }

  /** A grant that is not active never becomes active again. */
  lemma InactiveForever(before: seq<Action>, after: seq<Action>, maxTtl: int, g: Id, now: int, later: int)
    requires var s := Run(START, before, maxTtl); g in s.born && !Active(s.db.grants, g, now)
    requires now <= later
    ensures !Active(Run(Run(START, before, maxTtl), after, maxTtl).db.grants, g, later)
  {
    Reachable(before, maxTtl);
    RunForward(Run(START, before, maxTtl), after, maxTtl);
  }

  // ---- the reaper and the role cascade -----------------------------------------------------------------

  /** Reaping again over the same window, or an earlier one, finds nothing. */
  lemma ReapTwice(grants: Grants, now: int, again: int)
    requires again <= now
    ensures EndingRows(Reaper, MarkRevoked(grants, EndingRows(Reaper, grants, now)), again) == {}
  {
  }

  /** Only its own steps move a transaction. */
  predicate Moves(a: Action, tid: Id) { (a.Advance? || a.Rollback?) && a.tid == tid }

  ghost predicate SameTxn(s: State, s': State, tid: Id)
  {
    (tid in s'.txns <==> tid in s.txns) && (tid in s.txns ==> s'.txns[tid] == s.txns[tid])
  }

  lemma VoteOthers(s: State, tid: Id, env: Env, other: Id)
    requires tid in s.txns && other != tid && Voting(s.txns[tid])
    ensures SameTxn(s, AdvanceStep(s, tid, env).s, other)
  {
  }

  lemma EndOthers(s: State, tid: Id, env: Env, other: Id)
    requires tid in s.txns && other != tid && (s.txns[tid].EndBegun? || s.txns[tid].EndUpdated? || s.txns[tid].Tearing?)
    ensures SameTxn(s, AdvanceStep(s, tid, env).s, other)
  {
  }

  lemma AdvanceOthers(s: State, tid: Id, env: Env, other: Id)
    requires tid in s.txns && other != tid
    ensures SameTxn(s, AdvanceStep(s, tid, env).s, other)
  {
    var t := s.txns[tid];
    if Voting(t) {
      VoteOthers(s, tid, env, other);
    } else if t.EndBegun? || t.EndUpdated? || t.Tearing? {
      EndOthers(s, tid, env, other);
    }
  }

  predicate Fresh(t: Txn) { t.VoteBegun? || t.CancelBegun? || t.EndBegun? || t.OpenInserted? }

  /** A transaction that does not move is as it was, or has just begun. */
  lemma TxnStays(s: State, a: Action, maxTtl: int, tid: Id)
    requires !Moves(a, tid)
    ensures var s' := Step(s, a, maxTtl).s;
      SameTxn(s, s', tid) || (tid !in s.txns && tid in s'.txns && Fresh(s'.txns[tid]) && !a.Advance?)
  {
    if a.Advance? && a.tid in s.txns { AdvanceOthers(s, a.tid, a.env, tid); }
  }

  lemma {:induction false} TxnWaits(s: State, actions: seq<Action>, maxTtl: int, tid: Id)
    requires tid in s.txns && forall i :: 0 <= i < |actions| ==> !Moves(actions[i], tid)
    ensures tid in Run(s, actions, maxTtl).txns && Run(s, actions, maxTtl).txns[tid] == s.txns[tid]
    decreases |actions|
  {
    if actions != [] {
      TxnStays(s, actions[0], maxTtl, tid);
      TxnWaits(Step(s, actions[0], maxTtl).s, actions[1..], maxTtl, tid);
    }
  }

  lemma UpdateCatches(s: State, tid: Id, role: Id, env: Env)
    requires tid in s.txns && s.txns[tid] == EndBegun(OfRole(role)) && AdvanceStep(s, tid, env).out.Fine?
    ensures AdvanceStep(s, tid, env).s
      == Put(s, tid, EndUpdated(OfRole(role), EndingRows(OfRole(role), s.db.grants, env.now)))
  {
  }

  lemma CascadeCommits(m: State, tid: Id, role: Id, rows: set<Id>, env: Env, g: Id)
    requires tid in m.txns && m.txns[tid] == EndUpdated(OfRole(role), rows) && AdvanceStep(m, tid, env).out.Fine?
    requires Live(m.db.grants, rows) && g in m.db.grants && m.db.grants[g].role == role
    requires GrantAudited(m.audit, g, m.db.grants[g])
    ensures var s' := AdvanceStep(m, tid, env).s;
      && role !in s'.db.roles && g !in s'.db.grants
      && (EndCount(s'.audit, g) == 1 <==> g in rows || m.db.grants[g].revoked)
  {
    EndCounts(m.audit, OfRole(role), rows, g);
  }

  /** From the cascade's update to its commit. */
  lemma CascadeWaits(before: seq<Action>, a: Action, between: seq<Action>, maxTtl: int, g: Id, s: State, s1: State,
      m: State)
    requires s == Run(START, before, maxTtl) && s1 == Step(s, a, maxTtl).s && m == Run(s1, between, maxTtl)
    requires a.Advance? && a.tid in s1.txns && s1.txns[a.tid].EndUpdated?
    requires forall i :: 0 <= i < |between| ==> !Moves(between[i], a.tid)
    requires g in m.db.grants
    ensures a.tid in m.txns && m.txns[a.tid] == s1.txns[a.tid]
    ensures Live(m.db.grants, s1.txns[a.tid].rows) && GrantAudited(m.audit, g, m.db.grants[g])
    ensures g in s.db.grants ==> m.db.grants[g].role == s.db.grants[g].role
  {
    assert ([a] + between)[1..] == between;
    Reachable(before, maxTtl);
    RunKeeps(s, [a] + between, maxTtl);
    RunForward(s, [a] + between, maxTtl);
    TxnWaits(s1, between, maxTtl, a.tid);
    EndLive(m, a.tid, maxTtl);
  }

  /** Over every run: a grant the cascade of a role deletes has its end on record exactly if it was in the
      table, unrevoked and within its window at the step of the cascade's update, or was revoked by the
      time of its commit. */
  lemma CascadeAuditsExactly(
      before: seq<Action>, update: Env, between: seq<Action>, commit: Env, maxTtl: int, tid: Id, role: Id, g: Id,
      s: State, m: State)
    requires s == Run(START, before, maxTtl) && tid in s.txns && s.txns[tid] == EndBegun(OfRole(role))
    requires AdvanceStep(s, tid, update).out.Fine? && forall i :: 0 <= i < |between| ==> !Moves(between[i], tid)
    requires m == Run(AdvanceStep(s, tid, update).s, between, maxTtl) && tid in m.txns &&
      AdvanceStep(m, tid, commit).out.Fine?
    requires g in m.db.grants && m.db.grants[g].role == role
    ensures var s' := AdvanceStep(m, tid, commit).s;
      && role !in s'.db.roles && g !in s'.db.grants
      && (EndCount(s'.audit, g) == 1 <==> Active(s.db.grants, g, update.now) || m.db.grants[g].revoked)
  {
    UpdateCatches(s, tid, role, update);
    var s1 := Step(s, Advance(tid, update), maxTtl).s;
    CascadeWaits(before, Advance(tid, update), between, maxTtl, g, s, s1, m);
    CascadeCommits(m, tid, role, s1.txns[tid].rows, commit, g);
    CaughtIsActive(s.db.grants, update.now, m.db.grants, role, g);
  }

  /** The rows the update catches are the role's active grants. */
  lemma CaughtIsActive(grants: Grants, now: int, later: Grants, role: Id, g: Id)
    requires g in later && later[g].role == role && (g in grants ==> later[g].role == grants[g].role)
    ensures g in EndingRows(OfRole(role), grants, now) <==> Active(grants, g, now)
  {
  }

  // ---- grants that are gone ------------------------------------------------------------------------------

  lemma NoEndEvent(audit: multiset<Event>, e: Event, mint: Option<Minted>, g: Id)
    requires !e.GrantEnded?
    ensures EndCount(audit + multiset{e} + MintEvents(mint), g) == EndCount(audit, g)
  {
  }

  /** A commit of a vote, a cancellation or a request records no end. */
  lemma CommitEnds(s: State, tid: Id, env: Env, g: Id)
    requires tid in s.txns && !s.txns[tid].EndUpdated?
    ensures EndCount(AdvanceStep(s, tid, env).s.audit, g) == EndCount(s.audit, g)
  {
    var t := s.txns[tid];
    if !Committing(t) {
      QuietAdvance(s, tid, env);
    } else if t.OpenInserted? {
      NoEndEvent(s.audit, RequestCreated(t.id), t.mint, g);
    } else if t.VoteResolved? {
      NoEndEvent(s.audit, VoteEvent(t), t.mint, g);
    } else {
      NoEndEvent(s.audit, RequestCancelled(t.request), None, g);
      assert s.audit + multiset{RequestCancelled(t.request)} + MintEvents(None)
        == s.audit + multiset{RequestCancelled(t.request)};
    }
  }

  lemma GoneStep(s: State, a: Action, maxTtl: int, g: Id)
    requires StagesOk(s, maxTtl) && g !in s.db.grants
    ensures EndCount(Step(s, a, maxTtl).s.audit, g) == EndCount(s.audit, g)
  {
    if a.Advance? && a.tid in s.txns {
      if s.txns[a.tid].EndUpdated? {
        EndLive(s, a.tid, maxTtl);
        EndCounts(s.audit, s.txns[a.tid].route, s.txns[a.tid].rows, g);
      } else {
        CommitEnds(s, a.tid, a.env, g);
      }
    }
  }

  /** No run adds an end event for a grant that is gone, or brings it back. */
  lemma {:induction false} GoneSilent(s: State, actions: seq<Action>, maxTtl: int, g: Id)
    requires Inv(s, maxTtl) && g in s.born && g !in s.db.grants
    ensures var e := Run(s, actions, maxTtl); g !in e.db.grants && EndCount(e.audit, g) == EndCount(s.audit, g)
    decreases |actions|
  {
    if actions != [] {
      GoneStep(s, actions[0], maxTtl, g);
      StepForward(s, actions[0], maxTtl);
      StepKeeps(s, actions[0], maxTtl);
      GoneSilent(Step(s, actions[0], maxTtl).s, actions[1..], maxTtl, g);
    }
  }

  function DeletedRef(a: Action): Ref
    requires Deletes(a)
  {
    if a.DeleteUser? then UserRef(a.user) else AssetRef(a.target)
  }

  lemma DeletionTakes(s: State, a: Action, maxTtl: int, g: Id)
    requires Deletes(a) && Step(s, a, maxTtl).out.Fine? && g in s.db.grants && OfGrant(DeletedRef(a), s.db.grants[g])
    ensures var s' := Step(s, a, maxTtl).s; g !in s'.db.grants && s'.audit == s.audit && s'.born == s.born
  {
  }

  lemma GrantOnRecord(s: State, maxTtl: int, g: Id)
    requires Inv(s, maxTtl) && g in s.db.grants
    ensures g in s.born && EndCount(s.audit, g) == Times(s.db.grants[g].revoked)
  {
    assert GrantAudited(s.audit, g, s.db.grants[g]);
  }

  /** Over every run: a grant that the deletion of its user or its asset takes along has its end on record,
      then and ever after, exactly if it was revoked before the deletion. */
  lemma DeletionAuditsExactly(before: seq<Action>, a: Action, after: seq<Action>, maxTtl: int, g: Id, s: State)
    requires s == Run(START, before, maxTtl) && Deletes(a) && Step(s, a, maxTtl).out.Fine?
    requires g in s.db.grants && OfGrant(DeletedRef(a), s.db.grants[g])
    ensures var e := Run(Step(s, a, maxTtl).s, after, maxTtl);
      g !in e.db.grants && (EndCount(e.audit, g) == 1 <==> s.db.grants[g].revoked)
  {
    Reachable(before, maxTtl);
    GrantOnRecord(s, maxTtl, g);
    DeletionTakes(s, a, maxTtl, g);
    StepKeeps(s, a, maxTtl);
    GoneSilent(Step(s, a, maxTtl).s, after, maxTtl, g);
  }

  ghost predicate Unrecorded(s: State, g: Id)
  {
    g !in s.db.grants && EndCount(s.audit, g) == 0 && s.torn[g] == 0
  }
}
