/** What every interleaving of the access workflow keeps. */
module AccessSafety {
  import opened Basics
  import opened Durations
  import opened AccessMachine

  // ---- invariants -----------------------------------------------------------------------------

  /** Those of these users that still exist. */
  function Remaining(users: set<Id>, gone: set<Ref>): set<Id>
  {
    set a | a in users && UserRef(a) !in gone
  }

  function Deciders(db: Tables, r: Id): set<Id> { if r in db.decided then db.decided[r] else {} }

  /** A granted request was granted by exactly its threshold of approvers, and the ballots of those who
      still exist are there; any other has fewer approvals than its threshold. */
  ghost predicate GrantTally(votes: Votes, deciders: set<Id>, gone: set<Ref>, r: Id, row: Request)
  {
    if row.status == Granted
    then |deciders| == row.required && row.requester !in deciders && Approvers(votes, r) == Remaining(deciders, gone)
    else |Approvers(votes, r)| < row.required
  }

  predicate Denies(votes: Votes, r: Id, a: Id) { Ballot(r, a) in votes && votes[Ballot(r, a)] == Deny }

  /** A denied request was denied by one voter, whose ballot is there if they still exist; no other
      request has a denial. */
  ghost predicate DenyTally(votes: Votes, deciders: set<Id>, gone: set<Ref>, r: Id, row: Request)
  {
    if row.status == Denied
    then exists d :: deciders == {d} && forall a :: Denies(votes, r, a) <==> a in Remaining({d}, gone)
    else forall a :: !Denies(votes, r, a)
  }

  /** How the status of a request follows from ballots; nobody votes on their own request. */
  ghost predicate Tally(votes: Votes, deciders: set<Id>, gone: set<Ref>, r: Id, row: Request)
  {
    && Ballot(r, row.requester) !in votes
    && GrantTally(votes, deciders, gone, r, row) && DenyTally(votes, deciders, gone, r, row)
  }

  ghost predicate MintedFor(g: Grant, r: Id, row: Request)
  {
    && g.request == r && g.role == row.role && g.asset == row.asset && g.subject == row.requester
    && g.window == if row.required == 0 then row.granted else VotedWindow(row.granted)
  }

  /** A granted request has exactly one grant, minted for it; any other request has none. */
  ghost predicate GrantCount(grants: Grants, r: Id, row: Request)
  {
    if row.status == Granted then exists g :: GrantsOf(grants, r) == {g} && MintedFor(grants[g], r, row)
    else GrantsOf(grants, r) == {}
  }

  ghost predicate RowOk(row: Request, db: Tables, maxTtl: int)
  {
    MissingRef(db, row).None? && row.granted > 0 &&
      row.granted == Clamp(RequestedDuration(row.seconds), row.cap, maxTtl)
  }

  ghost predicate RequestOk(db: Tables, r: Id, maxTtl: int)
    requires r in db.requests
  {
    && Tally(db.votes, Deciders(db, r), db.gone, r, db.requests[r])
    && GrantCount(db.grants, r, db.requests[r]) && RowOk(db.requests[r], db, maxTtl)
  }

  ghost predicate RequestsOk(db: Tables, maxTtl: int)
  {
    forall r :: r in db.requests ==> RequestOk(db, r, maxTtl)
  }

  ghost predicate NoOrphans(db: Tables)
  {
    && (forall b :: b in db.votes ==> b.request in db.requests && UserRef(b.approver) !in db.gone)
    && (forall g :: g in db.grants ==> db.grants[g].request in db.requests)
  }

  ghost predicate PendingUnique(requests: Requests)
  {
    forall r, q :: r in requests && q in requests && r != q && requests[r].status == Pending &&
      requests[q].status == Pending
      ==> KeyOf(requests[r]) != KeyOf(requests[q])
  }

  ghost predicate Exclusive(txns: Txns)
  {
    forall t, u :: t in txns && u in txns && t != u ==> Claims(txns[t]) !! Claims(txns[u])
  }

  ghost predicate NewOk(id: Id, used: set<Id>, born: set<Id>) { id in used && id !in born }

  ghost predicate MintOk(mint: Option<Minted>, r: Id, row: Request, used: set<Id>, born: set<Id>)
  {
    mint.Some? ==> MintedFor(mint.value.grant, r, row) && !mint.value.grant.revoked && NewOk(mint.value.id, used, born)
  }

  /** The count a resolved vote rests on. Ballots of users deleted since it was taken are missing. */
  ghost predicate CountOk(db: Tables, r: Id, a: Id, d: Decision, mint: Option<Minted>)
    requires r in db.requests
  {
    var row := db.requests[r];
    if mint.None? then d == Approve ==> |CountedWith(db.votes, r, a)| < row.required
    else
      && d == Approve && |mint.value.counted| == row.required && row.requester !in mint.value.counted
      && CountedWith(db.votes, r, a) == Remaining(mint.value.counted, db.gone)
  }

  ghost predicate Votable(db: Tables, r: Id, approver: Id)
  {
    r in db.requests && db.requests[r].status == Pending && approver != db.requests[r].requester
  }

  /** What a transaction may rely on at each point. */
  ghost predicate StageOk(db: Tables, used: set<Id>, born: set<Id>, t: Txn, maxTtl: int)
  {
    match t
    case VoteBegun(_, _, _) => true
    case VoteLocked(_, r, _) => r in db.requests
    case VoteChecked(a, r, _) => Votable(db, r, a)
    case VoteCast(a, r, _) => Votable(db, r, a) && Ballot(r, a) !in db.votes && UserRef(a) !in db.gone
    case VoteResolved(a, r, d, mint) =>
      && Votable(db, r, a) && Ballot(r, a) !in db.votes && UserRef(a) !in db.gone
      && CountOk(db, r, a, d, mint)
      && MintOk(mint, r, db.requests[r], used, born)
    case CancelBegun(_, _) => true
    case CancelLocked(_, r) => r in db.requests
    case CancelSet(u, r) => r in db.requests && db.requests[r].status == Pending && db.requests[r].requester == u
    case OpenInserted(id, row, mint) =>
      && NewOk(id, used, born) && RowOk(row, db, maxTtl)
      && row.status == (if row.required == 0 then Granted else Pending)
      && (mint.Some? <==> row.status == Granted)
      && MintOk(mint, id, row, used, born)
      && (mint.Some? ==> mint.value.id != id && mint.value.counted == {})
      && (row.status == Pending ==> !PendingTaken(db.requests, KeyOf(row)))
    case EndBegun(_) => true
    case EndUpdated(_, rows) => forall g :: g in rows ==> g in db.grants && !db.grants[g].revoked
    case Tearing(_) => true
  }

  ghost predicate StagesOk(s: State, maxTtl: int)
  {
    forall t :: t in s.txns ==> StageOk(s.db, s.used, s.born, s.txns[t], maxTtl)
  }

  ghost predicate IdsOk(db: Tables, used: set<Id>, born: set<Id>)
  {
    db.requests.Keys <= born && db.grants.Keys <= born && born <= used
  }

  function EndCount(audit: multiset<Event>, g: Id): nat
  {
    audit[GrantEnded(g, Revoked)] + audit[GrantEnded(g, Expired)]
  }

  function Times(b: bool): nat { if b then 1 else 0 }

  /** The audit rows of a voter on a request say what the ballot says; a deleted voter has no ballot and
      at most one such row. */
  ghost predicate VoterAudited(votes: Votes, gone: set<Ref>, audit: multiset<Event>, r: Id, a: Id)
  {
    if UserRef(a) in gone then audit[RequestApproved(r, a)] + audit[RequestDenied(r, a)] <= 1
    else
      && audit[RequestApproved(r, a)] == Times(Ballot(r, a) in votes && votes[Ballot(r, a)] == Approve)
      && audit[RequestDenied(r, a)] == Times(Denies(votes, r, a))
  }

  /** The audit rows of a request say what its row and its ballots say. */
  ghost predicate RequestAudited(votes: Votes, gone: set<Ref>, audit: multiset<Event>, r: Id, row: Request)
  {
    && audit[RequestCreated(r)] == 1
    && audit[RequestCancelled(r)] == Times(row.status == Cancelled)
    && (forall a :: VoterAudited(votes, gone, audit, r, a))
  }

  ghost predicate GrantAudited(audit: multiset<Event>, g: Id, row: Grant)
  {
    audit[GrantActivated(g)] == 1 && EndCount(audit, g) == Times(row.revoked)
  }

  ghost predicate RequestsAudited(db: Tables, audit: multiset<Event>)
  {
    forall r :: r in db.requests ==> RequestAudited(db.votes, db.gone, audit, r, db.requests[r])
  }

  ghost predicate GrantsAudited(grants: Grants, audit: multiset<Event>)
  {
    forall g :: g in grants ==> GrantAudited(audit, g, grants[g])
  }

  ghost predicate UnbornSilent(born: set<Id>, audit: multiset<Event>)
  {
    forall e: Event :: e.id !in born ==> audit[e] == 0
  }

  ghost predicate EndsOnce(audit: multiset<Event>)
  {
    forall g :: EndCount(audit, g) <= 1
  }

  ghost predicate Audited(db: Tables, born: set<Id>, audit: multiset<Event>)
  {
    && RequestsAudited(db, audit) && GrantsAudited(db.grants, audit)
    && UnbornSilent(born, audit) && EndsOnce(audit)
  }

  /** At most one terminator call per grant, and only for a committed end. */
  ghost predicate TearOk(txns: Txns, audit: multiset<Event>, torn: multiset<Id>)
  {
    && (forall g :: torn[g] <= EndCount(audit, g))
    && (forall t, g :: t in txns && Teardown(g) in Claims(txns[t]) ==> torn[g] == 0 && EndCount(audit, g) == 1)
  }

  ghost predicate TablesOk(db: Tables, maxTtl: int)
  {
    RequestsOk(db, maxTtl) && NoOrphans(db) && PendingUnique(db.requests)
  }

  ghost predicate Inv(s: State, maxTtl: int)
  {
    && TablesOk(s.db, maxTtl)
    && Exclusive(s.txns) && StagesOk(s, maxTtl)
    && IdsOk(s.db, s.used, s.born)
    && Audited(s.db, s.born, s.audit)
    && TearOk(s.txns, s.audit, s.torn)
  }

  // ---- steps that leave the tables alone ----------------------------------------------------------

  lemma DropKeeps(s: State, tid: Id, maxTtl: int)
    requires Inv(s, maxTtl)
    ensures Inv(Drop(s, tid), maxTtl)
  {
  }

  lemma NoTeardown(t: Txn)
    requires !t.Tearing?
    ensures forall g :: Teardown(g) !in Claims(t)
  {
  }

  lemma PutExclusive(txns: Txns, tid: Id, t: Txn)
    requires Exclusive(txns) && !Contended(txns, tid, Claims(t))
    ensures Exclusive(txns[tid := t])
  {
  }

  lemma PutStages(s: State, tid: Id, t: Txn, more: set<Id>, maxTtl: int)
    requires StagesOk(s, maxTtl) && StageOk(s.db, s.used + more, s.born, t, maxTtl)
    ensures StagesOk(Put(s.(used := s.used + more), tid, t), maxTtl)
  {
  }

  /** A transaction moves to its next stage, possibly drawing ids. */
  lemma PutKeeps(s: State, tid: Id, t: Txn, more: set<Id>, maxTtl: int)
    requires Inv(s, maxTtl)
    requires StageOk(s.db, s.used + more, s.born, t, maxTtl)
    requires !Contended(s.txns, tid, Claims(t))
    requires !t.Tearing?
    ensures Inv(Put(s.(used := s.used + more), tid, t), maxTtl)
  {
    PutStages(s, tid, t, more, maxTtl);
    PutExclusive(s.txns, tid, t);
    NoTeardown(t);
  }

  lemma PutPlain(s: State, tid: Id, t: Txn, maxTtl: int)
    requires Inv(s, maxTtl)
    requires StageOk(s.db, s.used, s.born, t, maxTtl)
    requires !Contended(s.txns, tid, Claims(t))
    requires !t.Tearing?
    ensures Inv(Put(s, tid, t), maxTtl)
  {
    assert s.used + {} == s.used;
    assert s.(used := s.used + {}) == s;
    PutKeeps(s, tid, t, {}, maxTtl);
  }

  /** The claims a transaction already has are not contended. */
  lemma OwnClaims(s: State, tid: Id)
    requires Exclusive(s.txns) && tid in s.txns
    ensures !Contended(s.txns, tid, Claims(s.txns[tid]))
  {
  }

  /** Ids not drawn before are nobody's. */
  lemma FreshUnclaimed(s: State, tid: Id, ids: set<Id>, maxTtl: int)
    requires StagesOk(s, maxTtl) && ids !! s.used
    ensures !Contended(s.txns, tid, set i | i in ids :: NewId(i))
  {
  }

  lemma ContendedUnion(txns: Txns, tid: Id, a: set<Claim>, b: set<Claim>)
    requires !Contended(txns, tid, a) && !Contended(txns, tid, b)
    ensures !Contended(txns, tid, a + b)
  {
  }

  lemma ContendedSubset(txns: Txns, tid: Id, a: set<Claim>, b: set<Claim>)
    requires !Contended(txns, tid, b) && a <= b
    ensures !Contended(txns, tid, a)
  {
  }

  lemma OpenUncontended(s: State, a: Action, row: Request, t: Txn, maxTtl: int)
    requires StagesOk(s, maxTtl) && a.Open? && a.id !in s.used && a.grantId !in s.used
    requires row.status == Pending ==> !Contended(s.txns, a.tid, {PendingKey(KeyOf(row))})
    requires t.OpenInserted? && t.id == a.id && t.row == row && (t.mint.Some? ==> t.mint.value.id == a.grantId)
    ensures !Contended(s.txns, a.tid, Claims(t))
  {
    var news := set i | i in {a.id, a.grantId} :: NewId(i);
    FreshUnclaimed(s, a.tid, {a.id, a.grantId}, maxTtl);
    assert NewId(a.id) in news && NewId(a.grantId) in news;
    var keys := if row.status == Pending then {PendingKey(KeyOf(row))} else {};
    assert !Contended(s.txns, a.tid, keys);
    ContendedUnion(s.txns, a.tid, news, keys);
    ContendedSubset(s.txns, a.tid, Claims(t), news + keys);
  }

  lemma OpenKeeps(s: State, a: Action, maxTtl: int)
    requires Inv(s, maxTtl) && a.Open?
    ensures Inv(OpenStep(s, a, maxTtl).s, maxTtl)
  {
    var res := OpenStep(s, a, maxTtl);
    if res.out.Fine? {
      var t := res.s.txns[a.tid];
      OpenUncontended(s, a, t.row, t, maxTtl);
      PutKeeps(s, a.tid, t, {a.id, a.grantId}, maxTtl);
    }
  }

  lemma LockKeeps(s: State, tid: Id, r: Id, next: Txn, maxTtl: int)
    requires Inv(s, maxTtl) && tid in s.txns
    requires Claims(next) == {RequestRow(r)}
    requires r in s.db.requests ==> StageOk(s.db, s.used, s.born, next, maxTtl)
    ensures Inv(LockRequest(s, tid, r, next).s, maxTtl)
  {
    DropKeeps(s, tid, maxTtl);
    if LockRequest(s, tid, r, next).out.Fine? { PutPlain(s, tid, next, maxTtl); }
  }

  lemma MintUncontended(s: State, tid: Id, t: Txn, t': Txn, id: Id, maxTtl: int)
    requires StagesOk(s, maxTtl) && Exclusive(s.txns) && tid in s.txns && s.txns[tid] == t && id !in s.used
    requires t.VoteCast? && t'.VoteResolved? && t'.request == t.request && t'.mint.Some? && t'.mint.value.id == id
    ensures !Contended(s.txns, tid, Claims(t'))
  {
  }

  /** The count of a vote on a pending request never passes the threshold: reaching is meeting it. */
  lemma CountReached(db: Tables, r: Id, a: Id, m: Minted, maxTtl: int)
    requires RequestsOk(db, maxTtl) && NoOrphans(db) && Votable(db, r, a) && UserRef(a) !in db.gone
    requires Reaches(db, r, a, Approve) && m.counted == CountedWith(db.votes, r, a)
    ensures db.requests[r].required > 0 && CountOk(db, r, a, Approve, Some(m))
  {
    assert RequestOk(db, r, maxTtl);
    CountedGrows(db.votes, r, a);
    assert Remaining(m.counted, db.gone) == m.counted;
  }

  lemma CountedGrows(votes: Votes, r: Id, a: Id)
    ensures CountedWith(votes, r, a) == Approvers(votes, r) + {a} || Ballot(r, a) in votes
    ensures a in CountedWith(votes, r, a) && |CountedWith(votes, r, a)| <= |Approvers(votes, r)| + 1
  {
    assert votes[Ballot(r, a) := Approve][Ballot(r, a)] == Approve;
    assert CountedWith(votes, r, a) - {a} <= Approvers(votes, r);
    SubsetSize(CountedWith(votes, r, a) - {a}, Approvers(votes, r));
  }

  lemma ResolveKeeps(s: State, tid: Id, env: Env, maxTtl: int)
    requires Inv(s, maxTtl) && tid in s.txns && s.txns[tid].VoteCast?
    ensures s.txns[tid].request in s.db.requests && Inv(ResolveVote(s, tid, s.txns[tid], env).s, maxTtl)
  {
    var t := s.txns[tid];
    assert StageOk(s.db, s.used, s.born, t, maxTtl);
    if !Reaches(s.db, t.request, t.approver, t.decision) {
      OwnClaims(s, tid);
      PutPlain(s, tid, VoteResolved(t.approver, t.request, t.decision, None), maxTtl);
    } else if env.id !in s.used {
      var row := s.db.requests[t.request];
      var m := Minted(env.id, Mint(t.request, row, env.now, VotedWindow(row.granted)),
                      CountedWith(s.db.votes, t.request, t.approver));
      var t' := VoteResolved(t.approver, t.request, t.decision, Some(m));
      CountReached(s.db, t.request, t.approver, m, maxTtl);
      MintUncontended(s, tid, t, t', env.id, maxTtl);
      PutKeeps(s, tid, t', {env.id}, maxTtl);
    }
  }

  lemma EndedStage(s: State, tid: Id, route: Route, now: int, maxTtl: int)
    requires Inv(s, maxTtl)
    requires !Contended(s.txns, tid, if route.One? then {GrantRow(route.grant)}
      else GrantRows(EndingRows(route, s.db.grants, now)))
    ensures Inv(Put(s, tid, EndUpdated(route, EndingRows(route, s.db.grants, now))), maxTtl)
  {
    var rows := EndingRows(route, s.db.grants, now);
    var t := EndUpdated(route, rows);
    assert !Contended(s.txns, tid, Claims(t)) by {
      assert Claims(t) == GrantRows(rows);
      if route.One? { ContendedSubset(s.txns, tid, GrantRows(rows), {GrantRow(route.grant)}); }
    }
    PutPlain(s, tid, t, maxTtl);
  }

  lemma UpdateEndingCases(s: State, tid: Id, route: Route, env: Env)
    ensures var res := UpdateEnding(s, tid, route, env);
      var rows := EndingRows(route, s.db.grants, env.now);
      || res.s == s || res.s == Drop(s, tid)
      || (res.s == Put(s, tid, EndUpdated(route, rows))
          && !Contended(s.txns, tid, if route.One? then {GrantRow(route.grant)} else GrantRows(rows)))
  {
  }

  lemma UpdateEndingKeeps(s: State, tid: Id, route: Route, env: Env, maxTtl: int)
    requires Inv(s, maxTtl) && tid in s.txns
    ensures Inv(UpdateEnding(s, tid, route, env).s, maxTtl)
  {
    UpdateEndingCases(s, tid, route, env);
    var s' := UpdateEnding(s, tid, route, env).s;
    if s' == Drop(s, tid) {
      DropKeeps(s, tid, maxTtl);
    } else if s' != s {
      EndedStage(s, tid, route, env.now, maxTtl);
    }
  }
}
