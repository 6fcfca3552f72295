/** Every commit of the access workflow keeps the invariant, whatever else is running. */
module AccessCommits {
  import opened Basics
  import opened Durations
  import opened AccessMachine
  import opened AccessSafety

  // ---- what a commit leaves alone -----------------------------------------------------------------

  ghost predicate SameVotes(v: Votes, w: Votes, r: Id)
  {
    forall a :: (Ballot(r, a) in v <==> Ballot(r, a) in w) && (Ballot(r, a) in v ==> v[Ballot(r, a)] == w[Ballot(r, a)])
  }

  lemma ApproversSame(v: Votes, w: Votes, r: Id)
    requires SameVotes(v, w, r)
    ensures Approvers(v, r) == Approvers(w, r)
  {
  }

  lemma CountedSame(v: Votes, w: Votes, r: Id, a: Id)
    requires SameVotes(v, w, r)
    ensures CountedWith(v, r, a) == CountedWith(w, r, a)
  {
    ApproversSame(v[Ballot(r, a) := Approve], w[Ballot(r, a) := Approve], r);
  }

  /** Nothing transaction t relies on changes between db and db'. */
  ghost predicate Undisturbed(db: Tables, born: set<Id>, db': Tables, born': set<Id>, t: Txn)
  {
    && (forall r :: RequestRow(r) in Claims(t) && r in db.requests ==>
         r in db'.requests && db'.requests[r] == db.requests[r] && SameVotes(db.votes, db'.votes, r))
    && (forall g :: GrantRow(g) in Claims(t) && g in db.grants ==> g in db'.grants && db'.grants[g] == db.grants[g])
    && (forall k :: PendingKey(k) in Claims(t) && PendingTaken(db'.requests, k) ==> PendingTaken(db.requests, k))
    && (forall i :: NewId(i) in Claims(t) && i in born' ==> i in born)
    && (t.OpenInserted? && t.row.role in db.roles ==> t.row.role in db'.roles)
    && db'.gone == db.gone
  }

  lemma StageFrame(db: Tables, born: set<Id>, db': Tables, born': set<Id>, used: set<Id>, t: Txn, maxTtl: int)
    requires StageOk(db, used, born, t, maxTtl) && Undisturbed(db, born, db', born', t)
    ensures StageOk(db', used, born', t, maxTtl)
  {
    match t
    case VoteLocked(a, r, d) => assert RequestRow(r) in Claims(t);
    case VoteChecked(a, r, d) => assert RequestRow(r) in Claims(t);
    case VoteCast(a, r, d) => assert RequestRow(r) in Claims(t);
    case VoteResolved(a, r, d, m) =>
      assert RequestRow(r) in Claims(t);
      CountedSame(db.votes, db'.votes, r, a);
      if m.Some? { assert NewId(m.value.id) in Claims(t); }
    case CancelLocked(u, r) => assert RequestRow(r) in Claims(t);
    case CancelSet(u, r) => assert RequestRow(r) in Claims(t);
    case OpenInserted(id, row, m) =>
      assert NewId(id) in Claims(t);
      if m.Some? { assert NewId(m.value.id) in Claims(t); }
      if row.status == Pending { assert PendingKey(KeyOf(row)) in Claims(t); }
    case EndUpdated(route, rows) =>
      forall g | g in rows ensures g in db'.grants && !db'.grants[g].revoked { assert GrantRow(g) in Claims(t); }
    case _ =>
  }

  lemma StagesFrame(s: State, s': State, tid: Id, maxTtl: int)
    requires StagesOk(s, maxTtl)
    requires s'.used == s.used
    requires forall t :: t in s'.txns && t != tid ==> t in s.txns && s'.txns[t] == s.txns[t]
    requires forall t :: t in s'.txns && t != tid ==> Undisturbed(s.db, s.born, s'.db, s'.born, s.txns[t])
    requires tid in s'.txns ==> StageOk(s'.db, s'.used, s'.born, s'.txns[tid], maxTtl)
    ensures StagesOk(s', maxTtl)
  {
    forall t | t in s'.txns ensures StageOk(s'.db, s'.used, s'.born, s'.txns[t], maxTtl) {
      if t != tid { StageFrame(s.db, s.born, s'.db, s'.born, s.used, s.txns[t], maxTtl); }
    }
  }

  // ---- the vote -------------------------------------------------------------------------------------

  lemma AddVote(votes: Votes, r: Id, a: Id, d: Decision)
    requires Ballot(r, a) !in votes
    ensures d == Deny ==> Approvers(votes[Ballot(r, a) := d], r) == Approvers(votes, r)
  {
  }

  lemma TallySame(v: Votes, w: Votes, deciders: set<Id>, gone: set<Ref>, r: Id, row: Request)
    requires Tally(v, deciders, gone, r, row) && SameVotes(v, w, r)
    ensures Tally(w, deciders, gone, r, row)
  {
    ApproversSame(v, w, r);
    forall a ensures Denies(v, r, a) <==> Denies(w, r, a) {}
  }

  lemma VotedGrantTally(db: Tables, t: Txn, used: set<Id>, born: set<Id>, maxTtl: int)
    requires t.VoteResolved? && StageOk(db, used, born, t, maxTtl)
    requires GrantTally(db.votes, Deciders(db, t.request), db.gone, t.request, db.requests[t.request])
    ensures var db' := VotedDb(db, t);
      GrantTally(db'.votes, Deciders(db', t.request), db.gone, t.request, db'.requests[t.request])
  {
    AddVote(db.votes, t.request, t.approver, t.decision);
  }

  lemma VotedDenyTally(db: Tables, t: Txn, used: set<Id>, born: set<Id>, maxTtl: int)
    requires t.VoteResolved? && StageOk(db, used, born, t, maxTtl)
    requires DenyTally(db.votes, Deciders(db, t.request), db.gone, t.request, db.requests[t.request])
    ensures var db' := VotedDb(db, t);
      DenyTally(db'.votes, Deciders(db', t.request), db.gone, t.request, db'.requests[t.request])
  {
    var db', r := VotedDb(db, t), t.request;
    forall a ensures Denies(db'.votes, r, a) <==> t.decision == Deny && a == t.approver {
      assert !Denies(db.votes, r, a);
    }
    if t.decision == Deny {
      assert Deciders(db', r) == {t.approver};
      assert forall a :: Denies(db'.votes, r, a) <==> a in Remaining({t.approver}, db.gone);
    }
  }

  lemma GrantsOfAdd(grants: Grants, id: Id, g: Grant, r: Id)
    requires id !in grants
    ensures GrantsOf(grants[id := g], r) == GrantsOf(grants, r) + (if g.request == r then {id} else {})
  {
  }

  lemma AddMintCount(grants: Grants, mint: Option<Minted>, q: Id, row: Request)
    requires mint.Some? ==> mint.value.id !in grants && mint.value.grant.request != q
    requires GrantCount(grants, q, row)
    ensures GrantCount(AddMint(grants, mint), q, row)
  {
  }

  lemma MintedCount(grants: Grants, m: Minted, r: Id, row: Request)
    requires m.id !in grants && MintedFor(m.grant, r, row) && GrantsOf(grants, r) == {} && row.status == Granted
    ensures GrantCount(AddMint(grants, Some(m)), r, row)
  {
    GrantsOfAdd(grants, m.id, m.grant, r);
    assert GrantsOf(AddMint(grants, Some(m)), r) == {m.id};
  }

  lemma VoteRequest(db: Tables, t: Txn, used: set<Id>, born: set<Id>, q: Id, maxTtl: int)
    requires IdsOk(db, used, born)
    requires t.VoteResolved? && StageOk(db, used, born, t, maxTtl) && q in db.requests && RequestOk(db, q, maxTtl)
    ensures RequestOk(VotedDb(db, t), q, maxTtl)
  {
    var db' := VotedDb(db, t);
    if q == t.request {
      VotedGrantTally(db, t, used, born, maxTtl);
      VotedDenyTally(db, t, used, born, maxTtl);
      if t.mint.Some? { MintedCount(db.grants, t.mint.value, q, db'.requests[q]); }
    } else {
      TallySame(db.votes, db'.votes, Deciders(db, q), db.gone, q, db.requests[q]);
      AddMintCount(db.grants, t.mint, q, db.requests[q]);
    }
  }

  lemma VoteRequests(db: Tables, t: Txn, used: set<Id>, born: set<Id>, maxTtl: int)
    requires RequestsOk(db, maxTtl) && IdsOk(db, used, born)
    requires t.VoteResolved? && StageOk(db, used, born, t, maxTtl)
    ensures RequestsOk(VotedDb(db, t), maxTtl)
  {
    forall q | q in VotedDb(db, t).requests ensures RequestOk(VotedDb(db, t), q, maxTtl) {
      VoteRequest(db, t, used, born, q, maxTtl);
    }
  }

  lemma VoteUnique(db: Tables, t: Txn, used: set<Id>, born: set<Id>, maxTtl: int)
    requires PendingUnique(db.requests) && NoOrphans(db)
    requires t.VoteResolved? && StageOk(db, used, born, t, maxTtl)
    ensures PendingUnique(VotedDb(db, t).requests) && NoOrphans(VotedDb(db, t))
  {
  }

  lemma VoteTables(db: Tables, t: Txn, used: set<Id>, born: set<Id>, maxTtl: int)
    requires TablesOk(db, maxTtl) && IdsOk(db, used, born)
    requires t.VoteResolved? && StageOk(db, used, born, t, maxTtl)
    ensures TablesOk(VotedDb(db, t), maxTtl) && IdsOk(VotedDb(db, t), used, born + MintIds(t.mint))
  {
    VoteRequests(db, t, used, born, maxTtl);
    VoteUnique(db, t, used, born, maxTtl);
  }

  lemma VoteUndisturbed(db: Tables, born: set<Id>, t: Txn, u: Txn)
    requires t.VoteResolved? && t.request in db.requests && db.requests[t.request].status == Pending
    requires t.mint.Some? ==> t.mint.value.id !in db.grants
    requires Claims(t) !! Claims(u)
    ensures Undisturbed(db, born, VotedDb(db, t), born + MintIds(t.mint), u)
  {
    assert RequestRow(t.request) in Claims(t);
    assert t.mint.Some? ==> NewId(t.mint.value.id) in Claims(t);
    forall k | PendingTaken(VotedDb(db, t).requests, k) ensures PendingTaken(db.requests, k) {
      var r :| r in db.requests && VotedDb(db, t).requests[r].status == Pending &&
        KeyOf(VotedDb(db, t).requests[r]) == k;
      assert db.requests[r].status == Pending;
    }
  }

  ghost predicate SameEnds(audit: multiset<Event>, audit': multiset<Event>)
  {
    forall g :: EndCount(audit', g) == EndCount(audit, g)
  }

  lemma NewEnds(audit: multiset<Event>, e: Event, mint: Option<Minted>)
    requires !e.GrantEnded? && EndsOnce(audit)
    ensures SameEnds(audit, audit + multiset{e} + MintEvents(mint)) && EndsOnce(audit + multiset{e} + MintEvents(mint))
  {
  }

  lemma NewGrantAudited(grants: Grants, born: set<Id>, audit: multiset<Event>, e: Event, mint: Option<Minted>, g: Id)
    requires GrantsAudited(grants, audit) && UnbornSilent(born, audit)
    requires SameEnds(audit, audit + multiset{e} + MintEvents(mint))
    requires !e.GrantActivated? && !e.GrantEnded?
    requires mint.Some? ==> mint.value.id !in born && !mint.value.grant.revoked && mint.value.id !in grants
    requires g in AddMint(grants, mint)
    ensures GrantAudited(audit + multiset{e} + MintEvents(mint), g, AddMint(grants, mint)[g])
  {
  }

  lemma NewlyAudited(grants: Grants, born: set<Id>, audit: multiset<Event>, e: Event, mint: Option<Minted>)
    requires GrantsAudited(grants, audit) && UnbornSilent(born, audit) && EndsOnce(audit) && grants.Keys <= born
    requires !e.GrantActivated? && !e.GrantEnded?
    requires mint.Some? ==> mint.value.id !in born && !mint.value.grant.revoked
    ensures var audit' := audit + multiset{e} + MintEvents(mint);
      && GrantsAudited(AddMint(grants, mint), audit') && UnbornSilent(born + {e.id} + MintIds(mint), audit')
      && EndsOnce(audit') && SameEnds(audit, audit')
  {
    NewEnds(audit, e, mint);
    var audit' := audit + multiset{e} + MintEvents(mint);
    forall g | g in AddMint(grants, mint) ensures GrantAudited(audit', g, AddMint(grants, mint)[g]) {
      NewGrantAudited(grants, born, audit, e, mint, g);
    }
    forall x: Event | x.id !in born + {e.id} + MintIds(mint) ensures audit'[x] == 0 { assert audit[x] == 0; }
  }

  lemma VoteRequestAudited(db: Tables, audit: multiset<Event>, t: Txn, r: Id)
    requires t.VoteResolved? && t.request in db.requests && db.requests[t.request].status == Pending &&
      Ballot(t.request, t.approver) !in db.votes
    requires UserRef(t.approver) !in db.gone
    requires r in db.requests && RequestAudited(db.votes, db.gone, audit, r, db.requests[r])
    ensures var db' := VotedDb(db, t);
      RequestAudited(db'.votes, db'.gone, audit + multiset{VoteEvent(t)} + MintEvents(t.mint), r, db'.requests[r])
  {
    var db', audit' := VotedDb(db, t), audit + multiset{VoteEvent(t)} + MintEvents(t.mint);
    forall a ensures VoterAudited(db'.votes, db'.gone, audit', r, a) {
      assert VoterAudited(db.votes, db.gone, audit, r, a);
    }
  }

  lemma VoteAudited(db: Tables, used: set<Id>, born: set<Id>, audit: multiset<Event>, t: Txn, maxTtl: int)
    requires Audited(db, born, audit) && IdsOk(db, used, born)
    requires t.VoteResolved? && StageOk(db, used, born, t, maxTtl)
    ensures Audited(VotedDb(db, t), born + MintIds(t.mint), audit + multiset{VoteEvent(t)} + MintEvents(t.mint))
    ensures SameEnds(audit, audit + multiset{VoteEvent(t)} + MintEvents(t.mint))
  {
    NewlyAudited(db.grants, born, audit, VoteEvent(t), t.mint);
    assert born + {VoteEvent(t).id} + MintIds(t.mint) == born + MintIds(t.mint);
    var db', audit' := VotedDb(db, t), audit + multiset{VoteEvent(t)} + MintEvents(t.mint);
    forall r | r in db'.requests ensures RequestAudited(db'.votes, db'.gone, audit', r, db'.requests[r]) {
      VoteRequestAudited(db, audit, t, r);
    }
  }

  lemma TearFrame(txns: Txns, tid: Id, audit: multiset<Event>, audit': multiset<Event>, torn: multiset<Id>)
    requires TearOk(txns, audit, torn)
    requires SameEnds(audit, audit')
    ensures TearOk(txns - {tid}, audit', torn)
  {
  }

  lemma CommitVoteKeeps(s: State, tid: Id, maxTtl: int)
    requires Inv(s, maxTtl) && tid in s.txns && s.txns[tid].VoteResolved?
    ensures s.txns[tid].request in s.db.requests && Inv(CommitVote(s, tid, s.txns[tid]), maxTtl)
  {
    var t := s.txns[tid];
    assert StageOk(s.db, s.used, s.born, t, maxTtl);
    var s' := CommitVote(s, tid, t);
    VoteTables(s.db, t, s.used, s.born, maxTtl);
    VoteAudited(s.db, s.used, s.born, s.audit, t, maxTtl);
    TearFrame(s.txns, tid, s.audit, s'.audit, s.torn);
    VoteStages(s, tid, maxTtl);
  }

  lemma VoteStages(s: State, tid: Id, maxTtl: int)
    requires StagesOk(s, maxTtl) && Exclusive(s.txns) && IdsOk(s.db, s.used, s.born)
    requires tid in s.txns && s.txns[tid].VoteResolved? && s.txns[tid].request in s.db.requests
    ensures StagesOk(CommitVote(s, tid, s.txns[tid]), maxTtl)
  {
    var t := s.txns[tid];
    var s' := CommitVote(s, tid, t);
    assert StageOk(s.db, s.used, s.born, t, maxTtl);
    forall u | u in s'.txns ensures Undisturbed(s.db, s.born, s'.db, s'.born, s.txns[u]) {
      VoteUndisturbed(s.db, s.born, t, s.txns[u]);
    }
    StagesFrame(s, s', tid, maxTtl);
  }

  // ---- cancelling -------------------------------------------------------------------------------------

  lemma CancelRequest(db: Tables, r: Id, q: Id, maxTtl: int)
    requires r in db.requests && db.requests[r].status == Pending && q in db.requests && RequestOk(db, q, maxTtl)
    ensures RequestOk(CancelledDb(db, r), q, maxTtl)
  {
  }

  lemma CancelUnique(db: Tables, r: Id)
    requires PendingUnique(db.requests) && NoOrphans(db) && r in db.requests
    ensures PendingUnique(CancelledDb(db, r).requests) && NoOrphans(CancelledDb(db, r))
  {
  }

  lemma CancelTables(db: Tables, r: Id, maxTtl: int)
    requires TablesOk(db, maxTtl) && r in db.requests && db.requests[r].status == Pending
    ensures TablesOk(CancelledDb(db, r), maxTtl)
  {
    var db' := CancelledDb(db, r);
    forall q | q in db'.requests ensures RequestOk(db', q, maxTtl) { CancelRequest(db, r, q, maxTtl); }
    CancelUnique(db, r);
  }

  /** Other events leave the audit rows of votes alone. */
  lemma VotersSame(votes: Votes, gone: set<Ref>, audit: multiset<Event>, audit': multiset<Event>, r: Id)
    requires forall a :: VoterAudited(votes, gone, audit, r, a)
    requires forall e: Event :: e.RequestApproved? || e.RequestDenied? ==> audit'[e] == audit[e]
    ensures forall a :: VoterAudited(votes, gone, audit', r, a)
  {
    forall a ensures VoterAudited(votes, gone, audit', r, a) { assert VoterAudited(votes, gone, audit, r, a); }
  }

  lemma CancelAudited(db: Tables, born: set<Id>, audit: multiset<Event>, r: Id)
    requires Audited(db, born, audit) && db.grants.Keys <= born && r in db.requests && r in born &&
      db.requests[r].status == Pending
    ensures Audited(CancelledDb(db, r), born, audit + multiset{RequestCancelled(r)})
    ensures SameEnds(audit, audit + multiset{RequestCancelled(r)})
  {
    NewlyAudited(db.grants, born, audit, RequestCancelled(r), None);
    var db', audit' := CancelledDb(db, r), audit + multiset{RequestCancelled(r)};
    assert audit + multiset{RequestCancelled(r)} + MintEvents(None) == audit';
    assert born + {RequestCancelled(r).id} + MintIds(None) == born;
    forall q | q in db'.requests ensures RequestAudited(db'.votes, db'.gone, audit', q, db'.requests[q]) {
      assert RequestAudited(db.votes, db.gone, audit, q, db.requests[q]);
      VotersSame(db.votes, db.gone, audit, audit', q);
    }
  }

  lemma CancelUndisturbed(db: Tables, born: set<Id>, r: Id, u: Txn)
    requires r in db.requests && db.requests[r].status == Pending && RequestRow(r) !in Claims(u)
    ensures Undisturbed(db, born, CancelledDb(db, r), born, u)
  {
  }

  lemma CancelStages(s: State, tid: Id, maxTtl: int)
    requires StagesOk(s, maxTtl) && Exclusive(s.txns)
    requires tid in s.txns && s.txns[tid].CancelSet? && s.txns[tid].request in s.db.requests
    ensures StagesOk(CommitCancel(s, tid, s.txns[tid].request), maxTtl)
  {
    var t := s.txns[tid];
    var s' := CommitCancel(s, tid, t.request);
    assert StageOk(s.db, s.used, s.born, t, maxTtl);
    assert RequestRow(t.request) in Claims(t);
    forall u | u in s'.txns ensures Undisturbed(s.db, s.born, s'.db, s'.born, s.txns[u]) {
      CancelUndisturbed(s.db, s.born, t.request, s.txns[u]);
    }
    StagesFrame(s, s', tid, maxTtl);
  }

  lemma CommitCancelKeeps(s: State, tid: Id, maxTtl: int)
    requires Inv(s, maxTtl) && tid in s.txns && s.txns[tid].CancelSet?
    ensures s.txns[tid].request in s.db.requests && Inv(CommitCancel(s, tid, s.txns[tid].request), maxTtl)
  {
    var t := s.txns[tid];
    assert StageOk(s.db, s.used, s.born, t, maxTtl);
    CancelTables(s.db, t.request, maxTtl);
    CancelAudited(s.db, s.born, s.audit, t.request);
    TearFrame(s.txns, tid, s.audit, s.audit + multiset{RequestCancelled(t.request)}, s.torn);
    CancelStages(s, tid, maxTtl);
  }

  // ---- opening ----------------------------------------------------------------------------------------

  ghost predicate Opening(db: Tables, used: set<Id>, born: set<Id>, t: Txn, maxTtl: int)
  {
    t.OpenInserted? && StageOk(db, used, born, t, maxTtl) && IdsOk(db, used, born) && NoOrphans(db)
  }

  lemma NoVotesYet(db: Tables, r: Id)
    requires NoOrphans(db) && r !in db.requests
    ensures Approvers(db.votes, r) == {} && GrantsOf(db.grants, r) == {} && forall a :: Ballot(r, a) !in db.votes
  {
  }

  lemma OpenNewRequest(db: Tables, used: set<Id>, born: set<Id>, t: Txn, maxTtl: int)
    requires Opening(db, used, born, t, maxTtl)
    ensures RequestOk(OpenedDb(db, t), t.id, maxTtl)
  {
    NoVotesYet(db, t.id);
    if t.mint.Some? { MintedCount(db.grants, t.mint.value, t.id, t.row); }
  }

  lemma OpenOldRequest(db: Tables, used: set<Id>, born: set<Id>, t: Txn, q: Id, maxTtl: int)
    requires Opening(db, used, born, t, maxTtl) && q in db.requests && RequestOk(db, q, maxTtl)
    ensures RequestOk(OpenedDb(db, t), q, maxTtl)
  {
    AddMintCount(db.grants, t.mint, q, db.requests[q]);
  }

  lemma OpenRequests(db: Tables, used: set<Id>, born: set<Id>, t: Txn, maxTtl: int)
    requires Opening(db, used, born, t, maxTtl) && RequestsOk(db, maxTtl)
    ensures RequestsOk(OpenedDb(db, t), maxTtl)
  {
    forall q | q in OpenedDb(db, t).requests ensures RequestOk(OpenedDb(db, t), q, maxTtl) {
      if q == t.id { OpenNewRequest(db, used, born, t, maxTtl); } else { OpenOldRequest(db, used, born, t, q, maxTtl); }
    }
  }

  lemma OpenUnique(db: Tables, used: set<Id>, born: set<Id>, t: Txn, maxTtl: int)
    requires Opening(db, used, born, t, maxTtl) && PendingUnique(db.requests)
    ensures PendingUnique(OpenedDb(db, t).requests) && NoOrphans(OpenedDb(db, t))
  {
    var db' := OpenedDb(db, t);
    forall g | g in db'.grants ensures db'.grants[g].request in db'.requests {
      assert g in db.grants || g == t.mint.value.id;
    }
  }

  lemma OpenTables(db: Tables, used: set<Id>, born: set<Id>, t: Txn, maxTtl: int)
    requires Opening(db, used, born, t, maxTtl) && TablesOk(db, maxTtl)
    ensures TablesOk(OpenedDb(db, t), maxTtl) && IdsOk(OpenedDb(db, t), used, born + {t.id} + MintIds(t.mint))
  {
    OpenRequests(db, used, born, t, maxTtl);
    OpenUnique(db, used, born, t, maxTtl);
  }

  lemma OpenRequestAudited(db: Tables, born: set<Id>, audit: multiset<Event>, t: Txn, r: Id)
    requires t.OpenInserted? && t.id !in db.requests && NoOrphans(db) && t.id !in born &&
      UnbornSilent(born, audit) && t.row.status != Cancelled
    requires r in db.requests ==> RequestAudited(db.votes, db.gone, audit, r, db.requests[r])
    requires r in db.requests || r == t.id
    ensures RequestAudited(
      db.votes, db.gone, audit + multiset{RequestCreated(t.id)} + MintEvents(t.mint), r, OpenedDb(db, t).requests[r])
  {
    var audit' := audit + multiset{RequestCreated(t.id)} + MintEvents(t.mint);
    if r == t.id {
      forall a ensures VoterAudited(db.votes, db.gone, audit', r, a) {
        assert RequestApproved(r, a).id !in born && RequestDenied(r, a).id !in born;
        assert Ballot(r, a) !in db.votes;
      }
    } else {
      VotersSame(db.votes, db.gone, audit, audit', r);
    }
  }

  lemma OpenAudited(db: Tables, used: set<Id>, born: set<Id>, audit: multiset<Event>, t: Txn, maxTtl: int)
    requires Opening(db, used, born, t, maxTtl) && Audited(db, born, audit)
    ensures Audited(OpenedDb(db, t), born + {t.id} + MintIds(t.mint),
      audit + multiset{RequestCreated(t.id)} + MintEvents(t.mint))
    ensures SameEnds(audit, audit + multiset{RequestCreated(t.id)} + MintEvents(t.mint))
  {
    NewlyAudited(db.grants, born, audit, RequestCreated(t.id), t.mint);
    var db', audit' := OpenedDb(db, t), audit + multiset{RequestCreated(t.id)} + MintEvents(t.mint);
    forall q | q in db'.requests ensures RequestAudited(db'.votes, db'.gone, audit', q, db'.requests[q]) {
      OpenRequestAudited(db, born, audit, t, q);
    }
  }

  lemma OpenPending(db: Tables, t: Txn, k: Key)
    requires t.OpenInserted? && t.id !in db.requests && PendingTaken(OpenedDb(db, t).requests, k)
    ensures PendingTaken(db.requests, k) || (t.row.status == Pending && KeyOf(t.row) == k)
  {
    var db' := OpenedDb(db, t);
    var q :| q in db'.requests && db'.requests[q].status == Pending && KeyOf(db'.requests[q]) == k;
    if q != t.id { assert db.requests[q] == db'.requests[q]; }
  }

  lemma OpenUndisturbed(db: Tables, used: set<Id>, born: set<Id>, t: Txn, u: Txn, maxTtl: int)
    requires Opening(db, used, born, t, maxTtl) && Claims(t) !! Claims(u)
    ensures Undisturbed(db, born, OpenedDb(db, t), born + {t.id} + MintIds(t.mint), u)
  {
    assert NewId(t.id) in Claims(t);
    assert t.mint.Some? ==> NewId(t.mint.value.id) in Claims(t);
    assert t.row.status == Pending ==> PendingKey(KeyOf(t.row)) in Claims(t);
    forall k | PendingKey(k) in Claims(u) && PendingTaken(OpenedDb(db, t).requests, k)
      ensures PendingTaken(db.requests, k)
    {
      OpenPending(db, t, k);
    }
  }

  lemma OpenStages(s: State, tid: Id, maxTtl: int)
    requires StagesOk(s, maxTtl) && Exclusive(s.txns) && IdsOk(s.db, s.used, s.born) && NoOrphans(s.db)
    requires tid in s.txns && s.txns[tid].OpenInserted?
    ensures StagesOk(CommitOpen(s, tid, s.txns[tid]), maxTtl)
  {
    var t := s.txns[tid];
    var s' := CommitOpen(s, tid, t);
    assert StageOk(s.db, s.used, s.born, t, maxTtl);
    forall u | u in s'.txns ensures Undisturbed(s.db, s.born, s'.db, s'.born, s.txns[u]) {
      OpenUndisturbed(s.db, s.used, s.born, t, s.txns[u], maxTtl);
    }
    StagesFrame(s, s', tid, maxTtl);
  }

  lemma CommitOpenKeeps(s: State, tid: Id, maxTtl: int)
    requires Inv(s, maxTtl) && tid in s.txns && s.txns[tid].OpenInserted?
    ensures Inv(CommitOpen(s, tid, s.txns[tid]), maxTtl)
  {
    var t := s.txns[tid];
    assert StageOk(s.db, s.used, s.born, t, maxTtl);
    OpenTables(s.db, s.used, s.born, t, maxTtl);
    OpenAudited(s.db, s.used, s.born, s.audit, t, maxTtl);
    TearFrame(s.txns, tid, s.audit, CommitOpen(s, tid, t).audit, s.torn);
    OpenStages(s, tid, maxTtl);
  }
}
