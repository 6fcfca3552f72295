/** The commits that end grants, the teardown after them, the deletion of users and assets, and the
    theorem over whole runs. */
module AccessEnds {
  import opened Basics
  import opened Durations
  import opened AccessMachine
  import opened AccessSafety
  import opened AccessCommits

  // ---- the tables -----------------------------------------------------------------------------------

  lemma MarkCount(grants: Grants, rows: set<Id>, q: Id, row: Request)
    requires GrantCount(grants, q, row)
    ensures GrantCount(MarkRevoked(grants, rows), q, row)
  {
  }

  lemma MarkRequest(db: Tables, rows: set<Id>, q: Id, maxTtl: int)
    requires q in db.requests && RequestOk(db, q, maxTtl)
    ensures RequestOk(db.(grants := MarkRevoked(db.grants, rows)), q, maxTtl)
  {
    MarkCount(db.grants, rows, q, db.requests[q]);
  }

  lemma MarkOrphans(db: Tables, rows: set<Id>)
    requires NoOrphans(db)
    ensures NoOrphans(db.(grants := MarkRevoked(db.grants, rows)))
  {
  }

  lemma MarkTables(db: Tables, rows: set<Id>, maxTtl: int)
    requires TablesOk(db, maxTtl)
    ensures TablesOk(db.(grants := MarkRevoked(db.grants, rows)), maxTtl)
  {
    var db' := db.(grants := MarkRevoked(db.grants, rows));
    forall q | q in db'.requests ensures RequestOk(db', q, maxTtl) { MarkRequest(db, rows, q, maxTtl); }
    MarkOrphans(db, rows);
  }

  /** A grant refers to what its request refers to. */
  lemma GrantRefers(db: Tables, g: Id, ref: Ref, maxTtl: int)
    requires RequestsOk(db, maxTtl) && NoOrphans(db) && g in db.grants
    ensures OfGrant(ref, db.grants[g]) <==> OfRequest(ref, db.requests[db.grants[g].request])
  {
    var r := db.grants[g].request;
    assert RequestOk(db, r, maxTtl);
    assert g in GrantsOf(db.grants, r);
  }

  lemma WithoutCount(grants: Grants, kept: Grants, ref: Ref, q: Id, row: Request)
    requires GrantCount(grants, q, row) && !OfRequest(ref, row)
    requires kept == map g | g in grants && !OfGrant(ref, grants[g]) :: grants[g]
    ensures GrantCount(kept, q, row)
  {
  }

  /** The users left when one more is deleted. */
  function Lost(ref: Ref): set<Id> { match ref case UserRef(u) => {u} case _ => {} }

  lemma WithoutRemaining(db: Tables, ref: Ref, users: set<Id>)
    ensures Remaining(users, Without(db, ref).gone) == Remaining(users, db.gone) - Lost(ref)
  {
  }

  lemma WithoutApprovers(db: Tables, ref: Ref, q: Id)
    requires q in db.requests && !OfRequest(ref, db.requests[q])
    ensures Approvers(Without(db, ref).votes, q) == Approvers(db.votes, q) - Lost(ref)
  {
    var w := Without(db, ref).votes;
    forall a ensures a in Approvers(w, q) <==> a in Approvers(db.votes, q) && a !in Lost(ref) {
      assert Ballot(q, a) in w <==> Ballot(q, a) in db.votes && ref != UserRef(a);
    }
  }

  lemma WithoutDenies(db: Tables, ref: Ref, q: Id, a: Id)
    requires q in db.requests && !OfRequest(ref, db.requests[q])
    ensures Denies(Without(db, ref).votes, q, a) <==> Denies(db.votes, q, a) && a !in Lost(ref)
  {
  }

  /** Deleting a user takes their ballot out of the count and out of what is left of the deciders alike. */
  lemma WithoutTally(db: Tables, ref: Ref, q: Id)
    requires q in db.requests && !OfRequest(ref, db.requests[q])
    requires Tally(db.votes, Deciders(db, q), db.gone, q, db.requests[q])
    ensures var db' := Without(db, ref); Tally(db'.votes, Deciders(db', q), db'.gone, q, db.requests[q])
  {
    var db', row, deciders := Without(db, ref), db.requests[q], Deciders(db, q);
    WithoutApprovers(db, ref, q);
    WithoutRemaining(db, ref, deciders);
    SubsetSize(Approvers(db'.votes, q), Approvers(db.votes, q));
    forall a ensures Denies(db'.votes, q, a) <==> Denies(db.votes, q, a) && a !in Lost(ref) {
      WithoutDenies(db, ref, q, a);
    }
    if row.status == Denied {
      var d :| deciders == {d} && forall a :: Denies(db.votes, q, a) <==> a in Remaining({d}, db.gone);
      assert forall a :: Denies(db'.votes, q, a) <==> a in Remaining({d}, db'.gone);
    }
  }

  lemma WithoutRequest(db: Tables, ref: Ref, q: Id, maxTtl: int)
    requires q in Without(db, ref).requests && RequestOk(db, q, maxTtl)
    ensures RequestOk(Without(db, ref), q, maxTtl)
  {
    WithoutTally(db, ref, q);
    WithoutCount(db.grants, Without(db, ref).grants, ref, q, db.requests[q]);
  }

  lemma WithoutOrphans(db: Tables, ref: Ref, maxTtl: int)
    requires RequestsOk(db, maxTtl) && NoOrphans(db)
    ensures NoOrphans(Without(db, ref))
  {
    var db' := Without(db, ref);
    forall g | g in db'.grants ensures db'.grants[g].request in db'.requests { GrantRefers(db, g, ref, maxTtl); }
  }

  lemma WithoutTables(db: Tables, ref: Ref, maxTtl: int)
    requires TablesOk(db, maxTtl)
    ensures TablesOk(Without(db, ref), maxTtl)
  {
    var db' := Without(db, ref);
    forall q | q in db'.requests ensures RequestOk(db', q, maxTtl) {
      assert RequestOk(db, q, maxTtl);
      WithoutRequest(db, ref, q, maxTtl);
    }
    WithoutOrphans(db, ref, maxTtl);
  }

  lemma EndTables(db: Tables, route: Route, rows: set<Id>, maxTtl: int)
    requires TablesOk(db, maxTtl)
    ensures TablesOk(EndedDb(db, route, rows), maxTtl)
    ensures EndedDb(db, route, rows).requests.Keys <= db.requests.Keys &&
      EndedDb(db, route, rows).grants.Keys <= db.grants.Keys
  {
    MarkTables(db, rows, maxTtl);
    if route.OfRole? { WithoutTables(db.(grants := MarkRevoked(db.grants, rows)), RoleRef(route.role), maxTtl); }
  }

  // ---- the audit rows ---------------------------------------------------------------------------------

  lemma EndCounts(audit: multiset<Event>, route: Route, rows: set<Id>, g: Id)
    ensures EndCount(audit + multiset(EndEvents(route, rows)), g) == EndCount(audit, g) + Times(g in rows)
  {
  }

  /** The rows about to end have not ended before. */
  ghost predicate Live(grants: Grants, rows: set<Id>)
  {
    forall g :: g in rows ==> g in grants && !grants[g].revoked
  }

  lemma EndGrantsAudited(grants: Grants, audit: multiset<Event>, route: Route, rows: set<Id>)
    requires GrantsAudited(grants, audit) && EndsOnce(audit) && Live(grants, rows)
    ensures GrantsAudited(MarkRevoked(grants, rows), audit + multiset(EndEvents(route, rows)))
    ensures EndsOnce(audit + multiset(EndEvents(route, rows)))
  {
    var audit' := audit + multiset(EndEvents(route, rows));
    forall g ensures EndCount(audit', g) <= 1 {
      EndCounts(audit, route, rows, g);
      assert EndCount(audit, g) <= 1;
      if g in rows { assert GrantAudited(audit, g, grants[g]); }
    }
    forall g | g in grants ensures GrantAudited(audit', g, MarkRevoked(grants, rows)[g]) {
      EndCounts(audit, route, rows, g);
      assert GrantAudited(audit, g, grants[g]);
      assert GrantActivated(g) !in EndEvents(route, rows);
    }
  }

  lemma EndRequestsAudited(db: Tables, audit: multiset<Event>, route: Route, rows: set<Id>)
    requires RequestsAudited(db, audit)
    ensures RequestsAudited(db, audit + multiset(EndEvents(route, rows)))
  {
    var audit' := audit + multiset(EndEvents(route, rows));
    forall r | r in db.requests ensures RequestAudited(db.votes, db.gone, audit', r, db.requests[r]) {
      assert RequestAudited(db.votes, db.gone, audit, r, db.requests[r]);
      VotersSame(db.votes, db.gone, audit, audit', r);
    }
  }

  lemma WithoutVoterAudited(db: Tables, audit: multiset<Event>, ref: Ref, r: Id, a: Id)
    requires r in db.requests && !OfRequest(ref, db.requests[r]) && VoterAudited(db.votes, db.gone, audit, r, a)
    ensures VoterAudited(Without(db, ref).votes, Without(db, ref).gone, audit, r, a)
  {
  }

  lemma WithoutAudited(db: Tables, audit: multiset<Event>, ref: Ref)
    requires RequestsAudited(db, audit) && GrantsAudited(db.grants, audit)
    ensures RequestsAudited(Without(db, ref), audit) && GrantsAudited(Without(db, ref).grants, audit)
  {
    var db' := Without(db, ref);
    forall r | r in db'.requests ensures RequestAudited(db'.votes, db'.gone, audit, r, db'.requests[r]) {
      assert RequestAudited(db.votes, db.gone, audit, r, db.requests[r]);
      forall a ensures VoterAudited(db'.votes, db'.gone, audit, r, a) { WithoutVoterAudited(db, audit, ref, r, a); }
    }
  }

  lemma EndAudited(db: Tables, born: set<Id>, audit: multiset<Event>, route: Route, rows: set<Id>)
    requires Audited(db, born, audit) && Live(db.grants, rows) && db.grants.Keys <= born
    ensures Audited(EndedDb(db, route, rows), born, audit + multiset(EndEvents(route, rows)))
  {
    var audit' := audit + multiset(EndEvents(route, rows));
    EndGrantsAudited(db.grants, audit, route, rows);
    EndRequestsAudited(db, audit, route, rows);
    if route.OfRole? { WithoutAudited(db.(grants := MarkRevoked(db.grants, rows)), audit', RoleRef(route.role)); }
    forall e: Event | e.id !in born ensures audit'[e] == 0 {
      assert audit[e] == 0;
      assert e !in EndEvents(route, rows);
    }
  }

  // ---- the other transactions --------------------------------------------------------------------------

  lemma EndUndisturbed(db: Tables, born: set<Id>, route: Route, rows: set<Id>, u: Txn)
    requires GrantRows(rows) !! Claims(u)
    requires route.OfRole? ==> !Touches(db, u, RoleRef(route.role))
    ensures Undisturbed(db, born, EndedDb(db, route, rows), born, u)
  {
  }

  lemma EndStages(s: State, tid: Id, maxTtl: int)
    requires StagesOk(s, maxTtl) && Exclusive(s.txns) && tid in s.txns && s.txns[tid].EndUpdated?
    requires var t := s.txns[tid]; t.route.OfRole? ==> !Held(s, RoleRef(t.route.role), {tid})
    ensures StagesOk(CommitEnd(s, tid, s.txns[tid].route, s.txns[tid].rows), maxTtl)
  {
    var t := s.txns[tid];
    var s' := CommitEnd(s, tid, t.route, t.rows);
    assert Claims(t) == GrantRows(t.rows);
    forall u | u in s'.txns && u != tid ensures Undisturbed(s.db, s.born, s'.db, s'.born, s.txns[u]) {
      EndUndisturbed(s.db, s.born, t.route, t.rows, s.txns[u]);
    }
    StagesFrame(s, s', tid, maxTtl);
  }

  lemma EndTears(txns: Txns, tid: Id, grants: Grants, audit: multiset<Event>, torn: multiset<Id>, route: Route,
      rows: set<Id>)
    requires Exclusive(txns) && TearOk(txns, audit, torn) && GrantsAudited(grants, audit) && Live(grants, rows)
    ensures Exclusive(txns[tid := Tearing(rows)])
    ensures TearOk(txns[tid := Tearing(rows)], audit + multiset(EndEvents(route, rows)), torn)
  {
    var audit' := audit + multiset(EndEvents(route, rows));
    forall g | g in rows ensures EndCount(audit, g) == 0 { assert GrantAudited(audit, g, grants[g]); }
    forall g ensures torn[g] <= EndCount(audit', g) {
      EndCounts(audit, route, rows, g);
      assert torn[g] <= EndCount(audit, g);
    }
    var txns' := txns[tid := Tearing(rows)];
    forall t, g | t in txns' && Teardown(g) in Claims(txns'[t]) ensures torn[g] == 0 && EndCount(audit', g) == 1 {
      EndCounts(audit, route, rows, g);
      assert torn[g] <= EndCount(audit, g);
    }
    forall t | t in txns && t != tid ensures Claims(txns[t]) !! Claims(Tearing(rows)) {
      forall c | c in Claims(txns[t]) ensures c !in Claims(Tearing(rows)) {
        if c.Teardown? { assert EndCount(audit, c.g) == 1; }
      }
    }
  }

  lemma EndLive(s: State, tid: Id, maxTtl: int)
    requires StagesOk(s, maxTtl) && tid in s.txns && s.txns[tid].EndUpdated?
    ensures Live(s.db.grants, s.txns[tid].rows)
  {
    assert StageOk(s.db, s.used, s.born, s.txns[tid], maxTtl);
  }

  lemma CommitEndTables(s: State, tid: Id, route: Route, rows: set<Id>, maxTtl: int)
    requires TablesOk(s.db, maxTtl) && IdsOk(s.db, s.used, s.born) && Audited(s.db, s.born, s.audit) &&
      Live(s.db.grants, rows)
    ensures var s' := CommitEnd(s, tid, route, rows);
      TablesOk(s'.db, maxTtl) && IdsOk(s'.db, s'.used, s'.born) && Audited(s'.db, s'.born, s'.audit)
  {
    EndTables(s.db, route, rows, maxTtl);
    EndAudited(s.db, s.born, s.audit, route, rows);
  }

  lemma CommitEndKeeps(s: State, tid: Id, maxTtl: int)
    requires Inv(s, maxTtl) && tid in s.txns && s.txns[tid].EndUpdated?
    requires var t := s.txns[tid]; t.route.OfRole? ==> !Held(s, RoleRef(t.route.role), {tid})
    ensures Inv(CommitEnd(s, tid, s.txns[tid].route, s.txns[tid].rows), maxTtl)
  {
    var t := s.txns[tid];
    EndLive(s, tid, maxTtl);
    CommitEndTables(s, tid, t.route, t.rows, maxTtl);
    EndTears(s.txns, tid, s.db.grants, s.audit, s.torn, t.route, t.rows);
    EndStages(s, tid, maxTtl);
  }

  lemma TornOnce(txns: Txns, tid: Id, audit: multiset<Event>, torn: multiset<Id>, next: Id)
    requires Exclusive(txns) && TearOk(txns, audit, torn)
    requires tid in txns && txns[tid].Tearing? && next in txns[tid].rows
    ensures TearOk(txns[tid := Tearing(txns[tid].rows - {next})], audit, torn + multiset{next})
  {
  }

  lemma TornKeeps(s: State, tid: Id, next: Id, maxTtl: int)
    requires Inv(s, maxTtl) && tid in s.txns && s.txns[tid].Tearing? && next in s.txns[tid].rows
    ensures Inv(Put(s.(torn := s.torn + multiset{next}), tid, Tearing(s.txns[tid].rows - {next})), maxTtl)
  {
    TornOnce(s.txns, tid, s.audit, s.torn, next);
    assert Claims(Tearing(s.txns[tid].rows - {next})) <= Claims(s.txns[tid]);
  }

  lemma TearCases(s: State, tid: Id, rows: set<Id>, next: Id)
    ensures var s' := TearStep(s, tid, rows, next).s;
      || s' == s || s' == Drop(s, tid)
      || (next in rows && s' == Put(s.(torn := s.torn + multiset{next}), tid, Tearing(rows - {next})))
  {
  }

  lemma TearKeeps(s: State, tid: Id, next: Id, maxTtl: int)
    requires Inv(s, maxTtl) && tid in s.txns && s.txns[tid].Tearing?
    ensures Inv(TearStep(s, tid, s.txns[tid].rows, next).s, maxTtl)
  {
    var s' := TearStep(s, tid, s.txns[tid].rows, next).s;
    TearCases(s, tid, s.txns[tid].rows, next);
    if s' == Drop(s, tid) {
      DropKeeps(s, tid, maxTtl);
    } else if s' != s {
      TornKeeps(s, tid, next, maxTtl);
    }
  }

  lemma EndStepKeeps(s: State, tid: Id, maxTtl: int)
    requires Inv(s, maxTtl) && tid in s.txns && s.txns[tid].EndUpdated?
    ensures Inv(EndStep(s, tid, s.txns[tid].route, s.txns[tid].rows).s, maxTtl)
  {
    if !(s.txns[tid].route.OfRole? && Held(s, RoleRef(s.txns[tid].route.role), {tid})) {
      CommitEndKeeps(s, tid, maxTtl);
    }
  }

  // ---- deleting a user or an asset ----------------------------------------------------------------------

  lemma DeleteCount(db: Tables, ref: Ref, r: Id, a: Id, d: Decision, mint: Option<Minted>)
    requires r in db.requests && !OfRequest(ref, db.requests[r]) && ref != UserRef(a) && CountOk(db, r, a, d, mint)
    ensures CountOk(Without(db, ref), r, a, d, mint)
  {
    var db' := Without(db, ref);
    CountedWithout(db, ref, r, a);
    SubsetSize(CountedWith(db'.votes, r, a), CountedWith(db.votes, r, a));
    if mint.Some? { WithoutRemaining(db, ref, mint.value.counted); }
  }

  lemma CountedWithout(db: Tables, ref: Ref, r: Id, a: Id)
    requires r in db.requests && !OfRequest(ref, db.requests[r]) && ref != UserRef(a)
    ensures CountedWith(Without(db, ref).votes, r, a) == CountedWith(db.votes, r, a) - Lost(ref)
  {
    var v, w := db.votes[Ballot(r, a) := Approve], Without(db, ref).votes[Ballot(r, a) := Approve];
    forall x ensures x in Approvers(w, r) <==> x in Approvers(v, r) && x !in Lost(ref) {
      assert Ballot(r, x) in w <==> Ballot(r, x) in v && ref != UserRef(x);
    }
  }

  /** A running transaction the deletion does not have to wait for is not disturbed by it. */
  lemma DeleteStage(db: Tables, ref: Ref, used: set<Id>, born: set<Id>, t: Txn, maxTtl: int)
    requires StageOk(db, used, born, t, maxTtl) && !Touches(db, t, ref) && !ref.RoleRef?
    ensures StageOk(Without(db, ref), used, born, t, maxTtl)
  {
    var db' := Without(db, ref);
    match t
    case VoteLocked(_, r, _) => assert RequestRow(r) in Claims(t);
    case VoteChecked(_, r, _) => assert RequestRow(r) in Claims(t);
    case VoteCast(_, r, _) => assert RequestRow(r) in Claims(t);
    case VoteResolved(a, r, d, m) =>
      assert RequestRow(r) in Claims(t);
      DeleteCount(db, ref, r, a, d, m);
    case CancelLocked(_, r) => assert RequestRow(r) in Claims(t);
    case CancelSet(_, r) => assert RequestRow(r) in Claims(t);
    case OpenInserted(_, row, _) =>
      assert MissingRef(db', row) == MissingRef(db, row);
      assert PendingTaken(db'.requests, KeyOf(row)) ==> PendingTaken(db.requests, KeyOf(row));
    case EndUpdated(_, rows) =>
      forall g | g in rows ensures g in db'.grants && !db'.grants[g].revoked { assert GrantRow(g) in Claims(t); }
    case _ =>
  }

  lemma DeleteKeeps(s: State, ref: Ref, maxTtl: int)
    requires Inv(s, maxTtl) && !ref.RoleRef?
    ensures Inv(DeleteStep(s, ref).s, maxTtl)
  {
    if !Held(s, ref, {}) {
      WithoutTables(s.db, ref, maxTtl);
      WithoutAudited(s.db, s.audit, ref);
      forall t | t in s.txns ensures StageOk(Without(s.db, ref), s.used, s.born, s.txns[t], maxTtl) {
        DeleteStage(s.db, ref, s.used, s.born, s.txns[t], maxTtl);
      }
    }
  }

  // ---- one step, and runs ------------------------------------------------------------------------------

  /** A transaction moves on with the claims it has. */
  lemma MoveOn(s: State, tid: Id, next: Txn, maxTtl: int)
    requires Inv(s, maxTtl) && tid in s.txns && Claims(next) == Claims(s.txns[tid]) && !next.Tearing?
    requires StageOk(s.db, s.used, s.born, next, maxTtl)
    ensures Inv(Put(s, tid, next), maxTtl)
  {
    OwnClaims(s, tid);
    PutPlain(s, tid, next, maxTtl);
  }

  lemma CheckVoteKeeps(s: State, tid: Id, env: Env, maxTtl: int)
    requires Inv(s, maxTtl) && tid in s.txns && s.txns[tid].VoteLocked?
    ensures var t := s.txns[tid]; Inv(CheckVoteStep(s, tid, t.approver, t.request, t.decision, env).s, maxTtl)
  {
    var t := s.txns[tid];
    assert StageOk(s.db, s.used, s.born, t, maxTtl);
    if VoteCheck(s.db.requests[t.request], t.approver, t.decision, env).Some? { DropKeeps(s, tid, maxTtl); }
    else { MoveOn(s, tid, VoteChecked(t.approver, t.request, t.decision), maxTtl); }
  }

  lemma CastCases(s: State, tid: Id, a: Id, r: Id, d: Decision)
    ensures var s' := CastStep(s, tid, a, r, d).s;
      || s' == Drop(s, tid)
      || (s' == Put(s, tid, VoteCast(a, r, d)) && Ballot(r, a) !in s.db.votes && UserRef(a) !in s.db.gone)
  {
  }

  lemma CastStage(s: State, tid: Id, maxTtl: int)
    requires StagesOk(s, maxTtl) && tid in s.txns && s.txns[tid].VoteChecked?
    requires Ballot(s.txns[tid].request, s.txns[tid].approver) !in s.db.votes &&
      UserRef(s.txns[tid].approver) !in s.db.gone
    ensures var t := s.txns[tid]; StageOk(s.db, s.used, s.born, VoteCast(t.approver, t.request, t.decision), maxTtl)
  {
    assert StageOk(s.db, s.used, s.born, s.txns[tid], maxTtl);
  }

  lemma CastKeeps(s: State, tid: Id, maxTtl: int)
    requires Inv(s, maxTtl) && tid in s.txns && s.txns[tid].VoteChecked?
    ensures var t := s.txns[tid]; Inv(CastStep(s, tid, t.approver, t.request, t.decision).s, maxTtl)
  {
    var t := s.txns[tid];
    CastCases(s, tid, t.approver, t.request, t.decision);
    if CastStep(s, tid, t.approver, t.request, t.decision).s == Drop(s, tid) {
      DropKeeps(s, tid, maxTtl);
    } else {
      CastStage(s, tid, maxTtl);
      MoveOn(s, tid, VoteCast(t.approver, t.request, t.decision), maxTtl);
    }
  }

  lemma CheckCancelCases(s: State, tid: Id, u: Id, r: Id)
    ensures var s' := CheckCancelStep(s, tid, u, r).s;
      || s' == Drop(s, tid)
      || (s' == Put(s, tid, CancelSet(u, r)) && Cancellable(s.db, u, r))
  {
  }

  ghost predicate Cancellable(db: Tables, u: Id, r: Id)
  {
    r in db.requests && db.requests[r].status == Pending && db.requests[r].requester == u
  }

  lemma CancelStage(db: Tables, used: set<Id>, born: set<Id>, u: Id, r: Id, maxTtl: int)
    requires Cancellable(db, u, r)
    ensures StageOk(db, used, born, CancelSet(u, r), maxTtl) && Claims(CancelSet(u, r)) == Claims(CancelLocked(u, r))
  {
  }

  lemma CheckCancelKeeps(s: State, tid: Id, maxTtl: int)
    requires Inv(s, maxTtl) && tid in s.txns && s.txns[tid].CancelLocked?
    ensures var t := s.txns[tid]; Inv(CheckCancelStep(s, tid, t.user, t.request).s, maxTtl)
  {
    var t := s.txns[tid];
    CheckCancelCases(s, tid, t.user, t.request);
    if CheckCancelStep(s, tid, t.user, t.request).s == Drop(s, tid) {
      DropKeeps(s, tid, maxTtl);
    } else {
      CancelStage(s.db, s.used, s.born, t.user, t.request, maxTtl);
      MoveOn(s, tid, CancelSet(t.user, t.request), maxTtl);
    }
  }

  lemma AdvanceVoteKeeps(s: State, tid: Id, env: Env, maxTtl: int)
    requires Inv(s, maxTtl) && tid in s.txns
    requires var t := s.txns[tid]; t.VoteBegun? || t.VoteLocked? || t.VoteChecked? || t.VoteCast? || t.VoteResolved?
    ensures Inv(AdvanceStep(s, tid, env).s, maxTtl)
  {
    match s.txns[tid]
    case VoteBegun(a, r, d) => LockKeeps(s, tid, r, VoteLocked(a, r, d), maxTtl);
    case VoteLocked(_, _, _) => CheckVoteKeeps(s, tid, env, maxTtl);
    case VoteChecked(_, _, _) => CastKeeps(s, tid, maxTtl);
    case VoteCast(_, _, _) => ResolveKeeps(s, tid, env, maxTtl);
    case VoteResolved(_, _, _, _) => CommitVoteKeeps(s, tid, maxTtl);
  }

  lemma AdvanceKeeps(s: State, tid: Id, env: Env, maxTtl: int)
    requires Inv(s, maxTtl) && tid in s.txns
    ensures Inv(AdvanceStep(s, tid, env).s, maxTtl)
  {
    var t := s.txns[tid];
    if t.VoteBegun? || t.VoteLocked? || t.VoteChecked? || t.VoteCast? || t.VoteResolved? {
      AdvanceVoteKeeps(s, tid, env, maxTtl);
    } else if t.CancelBegun? {
      LockKeeps(s, tid, t.request, CancelLocked(t.user, t.request), maxTtl);
    } else if t.CancelLocked? {
      CheckCancelKeeps(s, tid, maxTtl);
    } else if t.CancelSet? {
      CommitCancelKeeps(s, tid, maxTtl);
    } else if t.OpenInserted? {
      CommitOpenKeeps(s, tid, maxTtl);
    } else if t.EndBegun? {
      UpdateEndingKeeps(s, tid, t.route, env, maxTtl);
    } else if t.EndUpdated? {
      EndStepKeeps(s, tid, maxTtl);
    } else {
      TearKeeps(s, tid, env.next, maxTtl);
    }
  }

  lemma AddRoleTables(db: Tables, role: Id, maxTtl: int)
    requires TablesOk(db, maxTtl)
    ensures TablesOk(db.(roles := db.roles + {role}), maxTtl)
  {
    var db' := db.(roles := db.roles + {role});
    forall r | r in db'.requests ensures RequestOk(db', r, maxTtl) { assert RequestOk(db, r, maxTtl); }
  }

  lemma AddRoleStages(s: State, role: Id, maxTtl: int)
    requires StagesOk(s, maxTtl)
    ensures StagesOk(s.(db := s.db.(roles := s.db.roles + {role})), maxTtl)
  {
    var db' := s.db.(roles := s.db.roles + {role});
    forall t | t in s.txns ensures StageOk(db', s.used, s.born, s.txns[t], maxTtl) {
      assert Undisturbed(s.db, s.born, db', s.born, s.txns[t]);
      StageFrame(s.db, s.born, db', s.born, s.used, s.txns[t], maxTtl);
    }
  }

  lemma AddRoleKeeps(s: State, role: Id, maxTtl: int)
    requires Inv(s, maxTtl)
    ensures Inv(s.(db := s.db.(roles := s.db.roles + {role})), maxTtl)
  {
    AddRoleTables(s.db, role, maxTtl);
    AddRoleStages(s, role, maxTtl);
  }

  lemma BeginKeeps(s: State, tid: Id, t: Txn, maxTtl: int)
    requires Inv(s, maxTtl) && tid !in s.txns && (t.VoteBegun? || t.CancelBegun? || t.EndBegun?)
    ensures Inv(Put(s, tid, t), maxTtl)
  {
    PutPlain(s, tid, t, maxTtl);
  }

  lemma StepKeeps(s: State, a: Action, maxTtl: int)
    requires Inv(s, maxTtl)
    ensures Inv(Step(s, a, maxTtl).s, maxTtl)
  {
    match a
    case AddRole(role) => AddRoleKeeps(s, role, maxTtl);
    case BeginVote(tid, u, r, d) => if tid !in s.txns { BeginKeeps(s, tid, VoteBegun(u, r, d), maxTtl); }
    case BeginCancel(tid, u, r) => if tid !in s.txns { BeginKeeps(s, tid, CancelBegun(u, r), maxTtl); }
    case BeginEnd(tid, route) => if tid !in s.txns { BeginKeeps(s, tid, EndBegun(route), maxTtl); }
    case Open(_, _, _, _, _, _, _, _, _, _, _) => OpenKeeps(s, a, maxTtl);
    case Advance(tid, env) => if tid in s.txns { AdvanceKeeps(s, tid, env, maxTtl); }
    case Rollback(tid) => DropKeeps(s, tid, maxTtl);
    case DeleteUser(user) => DeleteKeeps(s, UserRef(user), maxTtl);
    case DeleteAsset(target) => DeleteKeeps(s, AssetRef(target), maxTtl);
  }

  lemma {:induction false} RunKeeps(s: State, actions: seq<Action>, maxTtl: int)
    requires Inv(s, maxTtl)
    ensures Inv(Run(s, actions, maxTtl), maxTtl)
    decreases |actions|
  {
    if actions != [] {
      StepKeeps(s, actions[0], maxTtl);
      RunKeeps(Step(s, actions[0], maxTtl).s, actions[1..], maxTtl);
    }
  }

  /** Every state of every interleaving satisfies the invariant. */
  lemma Reachable(actions: seq<Action>, maxTtl: int)
    ensures Inv(Run(START, actions, maxTtl), maxTtl)
  {
    RunKeeps(START, actions, maxTtl);
  }
}
