/** What a caller of the access service sees: exactly when a call is refused and with which error, and what
    an accepted one leaves in the tables, column by column. */
module AccessEffects {
  import opened Basics
  import opened Durations
  import opened AccessMachine
  import opened AccessSafety
  import opened AccessHistory
  import opened AccessGovernance
  import opened AccessService

  // ---- voting -----------------------------------------------------------------------------------------

  /** The request is there and still pending. */
  ghost predicate IsPending(db: Tables, r: Id) { r in db.requests && db.requests[r].status == Pending }

  /** A vote is accepted exactly if the request is pending, governance names the voter an approver, the voter
      is not the requester and has not voted before, and an approval finds the requester eligible; every
      refusal names the first of these that fails. */
  lemma VoteRefusedExactly(db: Tables, a: Id, r: Id, d: Decision, env: Env)
    ensures var e := VoteError(db, a, r, d, env);
      var own := IsPending(db, r) && a == db.requests[r].requester;
      var unfit := d == Approve && !env.isEligible;
      && (e == None <==> IsPending(db, r) && env.isApprover && !own && !unfit && Ballot(r, a) !in db.votes
                         && UserRef(a) !in db.gone)
      && (e == Some(NotPending) <==> !IsPending(db, r))
      && (e == Some(NotApprover) <==> IsPending(db, r) && !env.isApprover)
      && (e == Some(SelfApprove) <==> own && env.isApprover)
      && (e == Some(RequesterIneligible) <==> IsPending(db, r) && env.isApprover && !own && unfit)
      && (e == Some(AlreadyVoted) <==> IsPending(db, r) && env.isApprover && !own && !unfit && Ballot(r, a) in db.votes)
  {
  }

  /** What an accepted vote leaves: the ballot, the request denied, granted or still pending, and a grant only
      if this approval decides, starting now. */
  lemma VoteLeaves(s: State, a: Id, r: Id, d: Decision, env: Env)
    requires VoteError(s.db, a, r, d, env).None? && s.txns == map[]
    ensures var s', row := Voted(s, a, r, d, env), s.db.requests[r];
      var deciding := Deciding(s.db, a, r, d);
      var status := if d == Deny then Denied else if deciding then Granted else Pending;
      && s'.db.votes == s.db.votes[Ballot(r, a) := d]
      && s'.db.requests == s.db.requests[r := row.(status := status)]
      && s'.db.roles == s.db.roles && s'.db.gone == s.db.gone && s'.torn == s.torn
      && (if deciding then
            && env.id in s'.db.grants && s'.db.grants == s.db.grants[env.id := s'.db.grants[env.id]]
            && StartsVoted(s.db, s'.db.grants[env.id], r, env.now)
          else s'.db.grants == s.db.grants)
      && s'.audit == s.audit + multiset{if d == Deny then RequestDenied(r, a) else RequestApproved(r, a)}
           + (if deciding then multiset{GrantActivated(env.id)} else multiset{})
  {
    VoteMintIs(s.db, a, r, d, env);
    if d == Deny { DeniedIs(s, a, r, env); } else { ApprovedIs(s, a, r, env); }
  }

  lemma VoteMintIs(db: Tables, a: Id, r: Id, d: Decision, env: Env)
    requires r in db.requests
    ensures var mint := VoteMint(db, a, r, d, env);
      && (mint.Some? <==> Deciding(db, a, r, d))
      && (mint.Some? ==> mint.value.id == env.id && StartsVoted(db, mint.value.grant, r, env.now))
  {
    CountedIs(db.votes, r, a);
  }

  /** Right after the deciding vote the requester's grant is active, until its window is over. */
  lemma DecidingVoteActivates(s: State, a: Id, r: Id, env: Env, t: int)
    requires VoteError(s.db, a, r, Approve, env).None? && s.txns == map[] && Deciding(s.db, a, r, Approve)
    ensures Active(Voted(s, a, r, Approve, env).db.grants, env.id, t) <==>
      t < env.now + VotedWindow(s.db.requests[r].granted)
  {
    VoteLeaves(s, a, r, Approve, env);
  }

  // ---- requesting --------------------------------------------------------------------------------------

  /** A pending request of this user for this role on this asset. */
  ghost predicate PendingFor(db: Tables, r: Id, user: Id, role: Id, asset: Id)
  {
    IsPending(db, r) && db.requests[r].requester == user && db.requests[r].role == role && db.requests[r].asset == asset
  }

  /** A request is accepted exactly if the user is eligible and does not hold the role, a policy governs it and
      leaves a positive duration, role, user and asset exist, and no request of theirs for the same waits
      for approval, where approval is needed at all. */
  lemma RequestAcceptedExactly(db: Tables, a: Action, maxTtl: int)
    requires a.Open?
    ensures OpenError(db, a, maxTtl) == None <==>
      && a.eligible && a.rule.Some? && !a.held
      && Clamp(RequestedDuration(a.seconds), a.rule.value.cap, maxTtl) > 0
      && a.role in db.roles && UserRef(a.requester) !in db.gone && AssetRef(a.asset) !in db.gone
      && (a.rule.value.required > 0 ==> forall r :: !PendingFor(db, r, a.requester, a.role, a.asset))
  {
    if a.rule.Some? { TakenIs(db, NewRequest(a, a.rule.value, maxTtl)); }
  }

  lemma TakenIs(db: Tables, row: Request)
    ensures PendingTaken(db.requests, KeyOf(row)) <==> exists r :: PendingFor(db, r, row.requester, row.role, row.asset)
  {
    if r :| PendingFor(db, r, row.requester, row.role, row.asset) {
      assert KeyOf(db.requests[r]) == KeyOf(row);
    }
    if PendingTaken(db.requests, KeyOf(row)) {
      var r :| r in db.requests && db.requests[r].status == Pending && KeyOf(db.requests[r]) == KeyOf(row);
      assert PendingFor(db, r, row.requester, row.role, row.asset);
    }
  }

  /** What an accepted request leaves: its row, and a grant only if its policy wants no approval, starting now. */
  lemma RequestLeaves(s: State, a: Action, maxTtl: int)
    requires a.Open? && OpenError(s.db, a, maxTtl).None? && s.txns == map[]
    ensures var s' := Opened(s, a, maxTtl);
      var free := a.rule.value.required == 0;
      && a.id in s'.db.requests && s'.db.requests == s.db.requests[a.id := s'.db.requests[a.id]]
      && Opens(a, a.id, s'.db.requests[a.id], maxTtl) && StartsAs(s'.db.requests[a.id])
      && s'.db.votes == s.db.votes && s'.db.roles == s.db.roles && s'.db.gone == s.db.gone && s'.torn == s.torn
      && (if free then
            && a.grantId in s'.db.grants && s'.db.grants == s.db.grants[a.grantId := s'.db.grants[a.grantId]]
            && StartsNow(s'.db.grants[a.grantId], a.id, a.requester, a.role, a.asset, a.now,
                         s'.db.requests[a.id].granted)
          else s'.db.grants == s.db.grants)
      && s'.audit == s.audit + multiset{RequestCreated(a.id)}
           + (if free then multiset{GrantActivated(a.grantId)} else multiset{})
  {
  }

  /** Right after a request that needs no approval the grant is active, until its window is over. */
  lemma SelfServiceActivates(s: State, a: Action, maxTtl: int, t: int)
    requires a.Open? && OpenError(s.db, a, maxTtl).None? && s.txns == map[] && a.rule.value.required == 0
    ensures Active(Opened(s, a, maxTtl).db.grants, a.grantId, t) <==>
      t < a.now + Clamp(RequestedDuration(a.seconds), a.rule.value.cap, maxTtl)
  {
    RequestLeaves(s, a, maxTtl);
  }

  // ---- cancelling and revoking ----------------------------------------------------------------------------

  /** A cancellation is accepted exactly if it is the requester's and the request is pending; it changes the
      status and nothing else. */
  lemma CancelExactly(s: State, u: Id, r: Id)
    requires s.txns == map[]
    ensures var e := CancelError(s.db, u, r);
      && (e == None <==> IsPending(s.db, r) && s.db.requests[r].requester == u)
      && (e == Some(NotRequester) <==> r in s.db.requests && s.db.requests[r].requester != u)
      && (e == None ==>
            CommitCancel(s, 0, r) == s.(
              db := s.db.(requests := s.db.requests[r := s.db.requests[r].(status := Cancelled)]),
              audit := s.audit + multiset{RequestCancelled(r)}))
  {
    NothingToDrop(s);
  }

  /** Revoking one grant is accepted exactly if the caller may and the grant is there and unrevoked; it
      revokes, records and tears down that grant and no other. */
  lemma RevokeExactly(s: State, g: Id, env: Env)
    ensures var e := EndError(s.db.grants, One(g), env);
      && (e == None <==> g in s.db.grants && env.authorized && !s.db.grants[g].revoked)
      && (e == Some(GrantNotFound) <==> g !in s.db.grants)
      && (e == Some(RevokeForbidden) <==> g in s.db.grants && !env.authorized)
      && (e == None ==>
            Ended(s, One(g), env.now) == s.(db := s.db.(grants := s.db.grants[g := s.db.grants[g].(revoked := true)]),
               audit := s.audit + multiset{GrantEnded(g, Revoked)}, torn := s.torn + multiset{g}))
  {
    var rows := EndingRows(One(g), s.db.grants, env.now);
    if g in s.db.grants && !s.db.grants[g].revoked {
      assert rows == {g};
      assert EndEvents(One(g), rows) == {GrantEnded(g, Revoked)};
    } else {
      assert rows == {};
    }
  }

  // ---- deletions -------------------------------------------------------------------------------------------

  /** Both tables have these rows alike. */
  ghost predicate SameRows<K, V>(m: map<K, V>, m': map<K, V>, kept: set<K>)
  {
    m'.Keys == kept && forall k :: k in m' ==> k in m && m'[k] == m[k]
  }

  /** Deleting a user takes their requests, the ballots on those, their grants and their own ballots. */
  lemma UserDeleted(s: State, user: Id, maxTtl: int)
    requires Step(s, DeleteUser(user), maxTtl).out == Fine
    ensures var s' := Step(s, DeleteUser(user), maxTtl).s;
      && SameRows(s.db.requests, s'.db.requests, set r | r in s.db.requests && s.db.requests[r].requester != user)
      && SameRows(s.db.grants, s'.db.grants, set g | g in s.db.grants && s.db.grants[g].subject != user)
      && SameRows(s.db.votes, s'.db.votes,
           set b | b in s.db.votes && b.approver != user &&
             (b.request in s.db.requests ==> s.db.requests[b.request].requester != user))
      && s'.db.gone == s.db.gone + {UserRef(user)}
      && s' == s.(db := s.db.(requests := s'.db.requests, grants := s'.db.grants, votes := s'.db.votes,
                              gone := s'.db.gone))
  {
  }

  /** Deleting an asset takes the requests for it, the ballots on those, and the grants on it. */
  lemma AssetDeleted(s: State, asset: Id, maxTtl: int)
    requires Step(s, DeleteAsset(asset), maxTtl).out == Fine
    ensures var s' := Step(s, DeleteAsset(asset), maxTtl).s;
      && SameRows(s.db.requests, s'.db.requests, set r | r in s.db.requests && s.db.requests[r].asset != asset)
      && SameRows(s.db.grants, s'.db.grants, set g | g in s.db.grants && s.db.grants[g].asset != asset)
      && SameRows(s.db.votes, s'.db.votes,
           set b | b in s.db.votes && (b.request in s.db.requests ==> s.db.requests[b.request].asset != asset))
      && s'.db.gone == s.db.gone + {AssetRef(asset)}
      && s' == s.(db := s.db.(requests := s'.db.requests, grants := s'.db.grants, votes := s'.db.votes,
                              gone := s'.db.gone))
  {
  }
}
