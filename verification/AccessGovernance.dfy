/** Where ballots, requests and grants come from: over every interleaving, each one in the tables goes back
    to a step at which governance said yes, and carries what that step was given. */
module AccessGovernance {
  import opened Basics
  import opened Durations
  import opened AccessMachine
  import opened AccessSafety
  import opened AccessEnds
  import opened AccessHistory

  lemma {:induction false} RunSnoc(s: State, actions: seq<Action>, a: Action, maxTtl: int)
    ensures Run(s, actions + [a], maxTtl) == Step(Run(s, actions, maxTtl), a, maxTtl).s
    decreases |actions|
  {
    if actions == [] {
      assert (actions + [a])[1..] == [];
    } else {
      assert (actions + [a])[1..] == actions[1..] + [a];
      RunSnoc(Step(s, actions[0], maxTtl).s, actions[1..], a, maxTtl);
    }
  }

  // ---- ballots ----------------------------------------------------------------------------------

  /** In this state, this action lets this ballot through: the request is locked and pending, the voter is
      an approver and not the requester, and an approval finds the requester still eligible. */
  ghost predicate Admits(s: State, x: Action, a: Id, r: Id, d: Decision)
  {
    && x.Advance? && x.tid in s.txns && s.txns[x.tid] == VoteLocked(a, r, d)
    && r in s.db.requests && s.db.requests[r].status == Pending && s.db.requests[r].requester != a
    && x.env.isApprover && (d == Approve ==> x.env.isEligible)
  }

  /** A locked vote gets past its checks exactly if this admits it, and its ballot is cast exactly if the voter
      exists and has cast none before. */
  lemma AdmitsExactly(s: State, tid: Id, a: Id, r: Id, d: Decision, env: Env, maxTtl: int)
    ensures tid in s.txns && s.txns[tid] == VoteLocked(a, r, d) ==>
      (Step(s, Advance(tid, env), maxTtl).out == Fine <==> Admits(s, Advance(tid, env), a, r, d))
    ensures tid in s.txns && s.txns[tid] == VoteChecked(a, r, d) ==>
      (Step(s, Advance(tid, env), maxTtl).out == Fine <==> Ballot(r, a) !in s.db.votes && UserRef(a) !in s.db.gone)
  {
  }

  ghost predicate AdmittedAt(actions: seq<Action>, j: nat, maxTtl: int, a: Id, r: Id, d: Decision)
  {
    j < |actions| && Admits(Run(START, actions[..j], maxTtl), actions[j], a, r, d)
  }

  ghost predicate Admitted(actions: seq<Action>, maxTtl: int, a: Id, r: Id, d: Decision)
  {
    exists j :: AdmittedAt(actions, j, maxTtl, a, r, d)
  }

  lemma AdmittedLonger(actions: seq<Action>, x: Action, maxTtl: int, a: Id, r: Id, d: Decision)
    requires Admitted(actions, maxTtl, a, r, d)
    ensures Admitted(actions + [x], maxTtl, a, r, d)
  {
    var j: nat :| AdmittedAt(actions, j, maxTtl, a, r, d);
    assert (actions + [x])[..j] == actions[..j];
    assert AdmittedAt(actions + [x], j, maxTtl, a, r, d);
  }

  ghost predicate PastChecks(t: Txn, a: Id, r: Id, d: Decision)
  {
    (t.VoteChecked? || t.VoteCast? || t.VoteResolved?) && t.approver == a && t.request == r && t.decision == d
  }

  /** A vote is past its checks because it was before, or because this step admitted it. */
  lemma ChecksStep(s: State, x: Action, maxTtl: int, tid: Id, a: Id, r: Id, d: Decision)
    requires var s' := Step(s, x, maxTtl).s; tid in s'.txns && PastChecks(s'.txns[tid], a, r, d)
    ensures (tid in s.txns && PastChecks(s.txns[tid], a, r, d)) || Admits(s, x, a, r, d)
  {
    if !Moves(x, tid) { TxnStays(s, x, maxTtl, tid); } else if tid in s.txns { OwnStep(s, tid, x.env); }
  }

  /** What a transaction's own step can turn it into. */
  lemma OwnStep(s: State, tid: Id, env: Env)
    requires tid in s.txns
    ensures var s' := AdvanceStep(s, tid, env).s; tid in s'.txns ==>
      match s'.txns[tid]
      case VoteChecked(a, r, d) => s.txns[tid] == s'.txns[tid] || Admits(s, Advance(tid, env), a, r, d)
      case VoteCast(a, r, d) => s.txns[tid] == s'.txns[tid] || s.txns[tid] == VoteChecked(a, r, d)
      case VoteResolved(a, r, d, _) => s.txns[tid] == s'.txns[tid] || s.txns[tid] == VoteCast(a, r, d)
      case _ => true
  {
  }

  lemma {:induction false} CheckedWasAdmitted(actions: seq<Action>, maxTtl: int, tid: Id, a: Id, r: Id, d: Decision)
    requires var s := Run(START, actions, maxTtl); tid in s.txns && PastChecks(s.txns[tid], a, r, d)
    ensures Admitted(actions, maxTtl, a, r, d)
    decreases |actions|
  {
    var before, x := actions[..|actions| - 1], actions[|actions| - 1];
    assert actions == before + [x];
    RunSnoc(START, before, x, maxTtl);
    var s := Run(START, before, maxTtl);
    ChecksStep(s, x, maxTtl, tid, a, r, d);
    if tid in s.txns && PastChecks(s.txns[tid], a, r, d) {
      CheckedWasAdmitted(before, maxTtl, tid, a, r, d);
      AdmittedLonger(before, x, maxTtl, a, r, d);
    } else {
      assert AdmittedAt(actions, |before|, maxTtl, a, r, d);
    }
  }

  /** A ballot is in the table because it was before, or because its vote commits. */
  lemma BallotStep(s: State, x: Action, maxTtl: int, b: Ballot)
    requires b in Step(s, x, maxTtl).s.db.votes
    ensures var d := Step(s, x, maxTtl).s.db.votes[b];
      || (b in s.db.votes && s.db.votes[b] == d)
      || (x.Advance? && x.tid in s.txns && PastChecks(s.txns[x.tid], b.approver, b.request, d))
  {
    if x.Advance? && x.tid in s.txns && Committing(s.txns[x.tid]) {
      CommitShape(s, x.tid, x.env);
    } else if !Deletes(x) {
      QuietStep(s, x, maxTtl);
    }
  }

  /** Every ballot in the table was admitted: at some step of the run its request was locked and pending,
      governance named the voter an approver, the voter was not the requester, and for an approval the
      requester was still eligible. */
  lemma {:induction false} BallotWasAdmitted(actions: seq<Action>, maxTtl: int, b: Ballot)
    requires b in Run(START, actions, maxTtl).db.votes
    ensures Admitted(actions, maxTtl, b.approver, b.request, Run(START, actions, maxTtl).db.votes[b])
    decreases |actions|
  {
    var before, x := actions[..|actions| - 1], actions[|actions| - 1];
    assert actions == before + [x];
    RunSnoc(START, before, x, maxTtl);
    var s := Run(START, before, maxTtl);
    var d := Run(START, actions, maxTtl).db.votes[b];
    BallotStep(s, x, maxTtl, b);
    if b in s.db.votes && s.db.votes[b] == d {
      BallotWasAdmitted(before, maxTtl, b);
    } else {
      CheckedWasAdmitted(before, maxTtl, x.tid, b.approver, b.request, d);
    }
    AdmittedLonger(before, x, maxTtl, b.approver, b.request, d);
  }

  // ---- the approvers counted for a grant -------------------------------------------------------------

  ghost predicate Counts(t: Txn, r: Id, a: Id)
  {
    t.VoteResolved? && t.request == r && t.mint.Some? && a in t.mint.value.counted
  }

  /** Who a vote counted was counted before, or has a ballot in the table, or is the voter. */
  lemma CountsStep(s: State, x: Action, maxTtl: int, tid: Id, r: Id, a: Id)
    requires var s' := Step(s, x, maxTtl).s; tid in s'.txns && Counts(s'.txns[tid], r, a)
    ensures
      || (tid in s.txns && Counts(s.txns[tid], r, a))
      || (Ballot(r, a) in s.db.votes && s.db.votes[Ballot(r, a)] == Approve)
      || (tid in s.txns && PastChecks(s.txns[tid], a, r, Approve))
  {
    if !Moves(x, tid) { TxnStays(s, x, maxTtl, tid); } else if tid in s.txns { OwnCount(s, tid, x.env, r, a); }
  }

  lemma OwnCount(s: State, tid: Id, env: Env, r: Id, a: Id)
    requires tid in s.txns
    requires var s' := AdvanceStep(s, tid, env).s; tid in s'.txns && Counts(s'.txns[tid], r, a)
    ensures
      || Counts(s.txns[tid], r, a)
      || (Ballot(r, a) in s.db.votes && s.db.votes[Ballot(r, a)] == Approve)
      || PastChecks(s.txns[tid], a, r, Approve)
  {
  }

  lemma {:induction false} CountedWasAdmitted(actions: seq<Action>, maxTtl: int, tid: Id, r: Id, a: Id)
    requires var s := Run(START, actions, maxTtl); tid in s.txns && Counts(s.txns[tid], r, a)
    ensures Admitted(actions, maxTtl, a, r, Approve)
    decreases |actions|
  {
    var before, x := actions[..|actions| - 1], actions[|actions| - 1];
    assert actions == before + [x];
    RunSnoc(START, before, x, maxTtl);
    var s := Run(START, before, maxTtl);
    CountsStep(s, x, maxTtl, tid, r, a);
    if tid in s.txns && Counts(s.txns[tid], r, a) {
      CountedWasAdmitted(before, maxTtl, tid, r, a);
    } else if Ballot(r, a) in s.db.votes && s.db.votes[Ballot(r, a)] == Approve {
      BallotWasAdmitted(before, maxTtl, Ballot(r, a));
    } else {
      CheckedWasAdmitted(before, maxTtl, tid, a, r, Approve);
    }
    AdmittedLonger(before, x, maxTtl, a, r, Approve);
  }

  ghost predicate ApprovedBy(s: State, r: Id, a: Id)
  {
    r in s.db.requests && s.db.requests[r].status == Granted && r in s.db.decided && a in s.db.decided[r]
  }

  ghost predicate CountsAtOpening(t: Txn, a: Id)
  {
    t.OpenInserted? && t.row.status == Granted && (t.mint.Some? ==> a in t.mint.value.counted)
  }

  lemma DecidedStep(s: State, x: Action, maxTtl: int, r: Id, a: Id)
    requires ApprovedBy(Step(s, x, maxTtl).s, r, a)
    ensures
      || ApprovedBy(s, r, a)
      || (x.Advance? && x.tid in s.txns && Counts(s.txns[x.tid], r, a))
      || (x.Advance? && x.tid in s.txns && CountsAtOpening(s.txns[x.tid], a))
  {
    if x.Advance? && x.tid in s.txns && Committing(s.txns[x.tid]) {
      CommitShape(s, x.tid, x.env);
    } else if !Deletes(x) {
      QuietStep(s, x, maxTtl);
    }
  }

  /** Every approver a granted request rests on was admitted, whether or not their ballot is still in the
      table. */
  lemma {:induction false} DeciderWasAdmitted(actions: seq<Action>, maxTtl: int, r: Id, a: Id)
    requires ApprovedBy(Run(START, actions, maxTtl), r, a)
    ensures Admitted(actions, maxTtl, a, r, Approve)
    decreases |actions|
  {
    var before, x := actions[..|actions| - 1], actions[|actions| - 1];
    assert actions == before + [x];
    RunSnoc(START, before, x, maxTtl);
    var s := Run(START, before, maxTtl);
    DecidedStep(s, x, maxTtl, r, a);
    if x.Advance? && x.tid in s.txns { NobodyCountedAtOpening(before, maxTtl, x.tid, a); }
    if ApprovedBy(s, r, a) {
      DeciderWasAdmitted(before, maxTtl, r, a);
    } else {
      CountedWasAdmitted(before, maxTtl, x.tid, r, a);
    }
    AdmittedLonger(before, x, maxTtl, a, r, Approve);
  }

  lemma NobodyCountedAtOpening(actions: seq<Action>, maxTtl: int, tid: Id, a: Id)
    requires tid in Run(START, actions, maxTtl).txns
    ensures !CountsAtOpening(Run(START, actions, maxTtl).txns[tid], a)
  {
    Reachable(actions, maxTtl);
    var s := Run(START, actions, maxTtl);
    assert StageOk(s.db, s.used, s.born, s.txns[tid], maxTtl);
  }

  // ---- requests -----------------------------------------------------------------------------------

  /** This action opens this row: the requester is eligible, a policy governs the role on the asset, and the
      role is not held already. The row says who asked for what and for how long, and takes its threshold
      and its cap from the policy. */
  ghost predicate Opens(x: Action, id: Id, row: Request, maxTtl: int)
  {
    && x.Open? && x.id == id && x.eligible && !x.held && x.rule.Some?
    && row.requester == x.requester && row.role == x.role && row.asset == x.asset && row.seconds == x.seconds
    && row.required == x.rule.value.required && row.cap == x.rule.value.cap
    && row.granted == Clamp(RequestedDuration(x.seconds), x.rule.value.cap, maxTtl) && row.granted > 0
  }

  /** A request starts out granted if its policy wants no approval, and pending otherwise. */
  predicate StartsAs(row: Request) { row.status == if row.required == 0 then Granted else Pending }

  ghost predicate OpenedBy(actions: seq<Action>, maxTtl: int, id: Id, row: Request)
  {
    exists j :: 0 <= j < |actions| && Opens(actions[j], id, row, maxTtl)
  }

  lemma OpenTxnStep(s: State, x: Action, maxTtl: int, tid: Id)
    requires var s' := Step(s, x, maxTtl).s; tid in s'.txns && s'.txns[tid].OpenInserted?
    ensures var t := Step(s, x, maxTtl).s.txns[tid];
      (tid in s.txns && s.txns[tid] == t) || (Opens(x, t.id, t.row, maxTtl) && StartsAs(t.row))
  {
    if x.Open? && tid !in s.txns {
      InsertStep(s, x, maxTtl, tid);
    } else if !Moves(x, tid) {
      TxnStays(s, x, maxTtl, tid);
    } else if x.Advance? && tid in s.txns {
      OwnOpen(s, tid, x.env);
    }
  }

  lemma OwnOpen(s: State, tid: Id, env: Env)
    requires tid in s.txns
    ensures var s' := AdvanceStep(s, tid, env).s;
      tid in s'.txns && s'.txns[tid].OpenInserted? ==> s.txns[tid] == s'.txns[tid]
  {
  }

  lemma InsertStep(s: State, x: Action, maxTtl: int, tid: Id)
    requires tid !in s.txns && x.Open?
    ensures var s' := Step(s, x, maxTtl).s; tid in s'.txns ==>
      var t := s'.txns[tid];
      && t.OpenInserted? && Opens(x, t.id, t.row, maxTtl) && StartsAs(t.row)
  {
  }

  lemma {:induction false} InsertWasOpened(actions: seq<Action>, maxTtl: int, tid: Id)
    requires var s := Run(START, actions, maxTtl); tid in s.txns && s.txns[tid].OpenInserted?
    ensures var t := Run(START, actions, maxTtl).txns[tid];
      OpenedBy(actions, maxTtl, t.id, t.row) && StartsAs(t.row)
    decreases |actions|
  {
    var before, x := actions[..|actions| - 1], actions[|actions| - 1];
    assert actions == before + [x];
    RunSnoc(START, before, x, maxTtl);
    var s, t := Run(START, before, maxTtl), Run(START, actions, maxTtl).txns[tid];
    OpenTxnStep(s, x, maxTtl, tid);
    if tid in s.txns && s.txns[tid] == t {
      InsertWasOpened(before, maxTtl, tid);
    } else {
      assert actions[|before|] == x;
    }
  }

  lemma RequestStep(s: State, x: Action, maxTtl: int, r: Id)
    requires r in Step(s, x, maxTtl).s.db.requests
    ensures var row := Step(s, x, maxTtl).s.db.requests[r];
      || (r in s.db.requests && s.db.requests[r].(status := Pending) == row.(status := Pending))
      || (x.Advance? && x.tid in s.txns && s.txns[x.tid].OpenInserted? && s.txns[x.tid].id == r &&
        s.txns[x.tid].row == row)
  {
    if x.Advance? && x.tid in s.txns && Committing(s.txns[x.tid]) {
      CommitShape(s, x.tid, x.env);
    } else if !Deletes(x) {
      QuietStep(s, x, maxTtl);
    }
  }

  /** Every request in the table was opened by an eligible requester who did not hold the role, with the
      threshold and the cap of the policy that governed it then. */
  lemma {:induction false} RequestWasOpened(actions: seq<Action>, maxTtl: int, r: Id)
    requires r in Run(START, actions, maxTtl).db.requests
    ensures OpenedBy(actions, maxTtl, r, Run(START, actions, maxTtl).db.requests[r])
    decreases |actions|
  {
    var before, x := actions[..|actions| - 1], actions[|actions| - 1];
    assert actions == before + [x];
    RunSnoc(START, before, x, maxTtl);
    var s, row := Run(START, before, maxTtl), Run(START, actions, maxTtl).db.requests[r];
    RequestStep(s, x, maxTtl, r);
    if r in s.db.requests && s.db.requests[r].(status := Pending) == row.(status := Pending) {
      RequestWasOpened(before, maxTtl, r);
      var j :| 0 <= j < |before| && Opens(before[j], r, s.db.requests[r], maxTtl);
      assert actions[j] == before[j] && Opens(actions[j], r, row, maxTtl);
    } else {
      InsertWasOpened(before, maxTtl, x.tid);
      var j :| 0 <= j < |before| && Opens(before[j], r, row, maxTtl);
      assert actions[j] == before[j];
    }
  }

  /** The step that puts a request into the table puts it there as granted exactly if its policy wants no
      approval, and as pending otherwise. */
  lemma OpeningStatus(actions: seq<Action>, x: Action, maxTtl: int, r: Id)
    requires r !in Run(START, actions, maxTtl).db.requests && r in Run(START, actions + [x], maxTtl).db.requests
    ensures OpenedBy(actions, maxTtl, r, Run(START, actions + [x], maxTtl).db.requests[r])
    ensures StartsAs(Run(START, actions + [x], maxTtl).db.requests[r])
  {
    RunSnoc(START, actions, x, maxTtl);
    RequestStep(Run(START, actions, maxTtl), x, maxTtl, r);
    InsertWasOpened(actions, maxTtl, x.tid);
  }

  // ---- grants -------------------------------------------------------------------------------------

  /** A grant of this request's role and asset to its requester, with its window starting now. */
  ghost predicate StartsNow(g: Grant, r: Id, requester: Id, role: Id, asset: Id, now: int, window: int)
  {
    && g.request == r && g.subject == requester && g.role == role && g.asset == asset
    && g.at == now && g.window == window && !g.revoked
  }

  /** This action mints this grant: an open whose policy wants no approval, or an approval just cast that is
      counted now and reaches the threshold. */
  ghost predicate Mints(s: State, x: Action, id: Id, g: Grant, maxTtl: int)
  {
    || (x.Open? && x.grantId == id && x.rule.Some? && x.rule.value.required == 0
        && StartsNow(g, x.id, x.requester, x.role, x.asset, x.now,
                     Clamp(RequestedDuration(x.seconds), x.rule.value.cap, maxTtl)))
    || (x.Advance? && x.env.id == id && x.tid in s.txns && s.txns[x.tid].VoteCast?
        && Deciding(s.db, s.txns[x.tid].approver, s.txns[x.tid].request, s.txns[x.tid].decision)
        && StartsVoted(s.db, g, s.txns[x.tid].request, x.env.now))
  }

  /** With this approval the request has as many approvers as it needs. */
  ghost predicate Deciding(db: Tables, a: Id, r: Id, d: Decision)
  {
    && r in db.requests && d == Approve
    && |(set b | b in db.votes && b.request == r && db.votes[b] == Approve :: b.approver) + {a}|
         >= db.requests[r].required
  }

  ghost predicate StartsVoted(db: Tables, g: Grant, r: Id, now: int)
  {
    && r in db.requests
    && var row := db.requests[r];
       StartsNow(g, r, row.requester, row.role, row.asset, now, VotedWindow(row.granted))
  }

  ghost predicate MintedAt(actions: seq<Action>, j: nat, maxTtl: int, id: Id, g: Grant)
  {
    j < |actions| && Mints(Run(START, actions[..j], maxTtl), actions[j], id, g, maxTtl)
  }

  ghost predicate WasMinted(actions: seq<Action>, maxTtl: int, id: Id, g: Grant)
  {
    exists j :: MintedAt(actions, j, maxTtl, id, g)
  }

  lemma MintedLonger(actions: seq<Action>, x: Action, maxTtl: int, id: Id, g: Grant)
    requires WasMinted(actions, maxTtl, id, g)
    ensures WasMinted(actions + [x], maxTtl, id, g)
  {
    var j: nat :| MintedAt(actions, j, maxTtl, id, g);
    assert (actions + [x])[..j] == actions[..j];
    assert MintedAt(actions + [x], j, maxTtl, id, g);
  }

  /** The grant a running transaction will insert. */
  function MintOf(t: Txn): Option<Minted>
  {
    match t case OpenInserted(_, _, mint) => mint case VoteResolved(_, _, _, mint) => mint case _ => None
  }

  lemma CountedIs(votes: Votes, r: Id, a: Id)
    ensures CountedWith(votes, r, a) ==
      (set b | b in votes && b.request == r && votes[b] == Approve :: b.approver) + {a}
  {
    var with := votes[Ballot(r, a) := Approve];
    forall x | x in (set b | b in votes && b.request == r && votes[b] == Approve :: b.approver) + {a}
      ensures x in Approvers(with, r)
    {
      assert Ballot(r, x) in with && with[Ballot(r, x)] == Approve;
    }
  }

  lemma OwnMint(s: State, tid: Id, env: Env, maxTtl: int)
    requires tid in s.txns && tid in AdvanceStep(s, tid, env).s.txns
    requires MintOf(AdvanceStep(s, tid, env).s.txns[tid]).Some?
    ensures var m := MintOf(AdvanceStep(s, tid, env).s.txns[tid]).value;
      MintOf(s.txns[tid]) == Some(m) || Mints(s, Advance(tid, env), m.id, m.grant, maxTtl)
  {
    if s.txns[tid].VoteCast? { ResolveMints(s, tid, s.txns[tid], env, maxTtl); }
  }

  lemma ResolveMints(s: State, tid: Id, t: Txn, env: Env, maxTtl: int)
    requires tid in s.txns && s.txns[tid] == t && t.VoteCast? && t.request in s.db.requests
    requires MintOf(ResolveVote(s, tid, t, env).s.txns[tid]).Some?
    ensures var m := MintOf(ResolveVote(s, tid, t, env).s.txns[tid]).value;
      Mints(s, Advance(tid, env), m.id, m.grant, maxTtl)
  {
    CountedIs(s.db.votes, t.request, t.approver);
  }

  lemma MintStep(s: State, x: Action, maxTtl: int, tid: Id)
    requires var s' := Step(s, x, maxTtl).s; tid in s'.txns && MintOf(s'.txns[tid]).Some?
    ensures var m := MintOf(Step(s, x, maxTtl).s.txns[tid]).value;
      (tid in s.txns && MintOf(s.txns[tid]) == Some(m)) || Mints(s, x, m.id, m.grant, maxTtl)
  {
    if !Moves(x, tid) { TxnStays(s, x, maxTtl, tid); } else if tid in s.txns { OwnMint(s, tid, x.env, maxTtl); }
  }

  lemma {:induction false} MintWasMinted(actions: seq<Action>, maxTtl: int, tid: Id)
    requires var s := Run(START, actions, maxTtl); tid in s.txns && MintOf(s.txns[tid]).Some?
    ensures var m := MintOf(Run(START, actions, maxTtl).txns[tid]).value; WasMinted(actions, maxTtl, m.id, m.grant)
    decreases |actions|
  {
    var before, x := actions[..|actions| - 1], actions[|actions| - 1];
    assert actions == before + [x];
    RunSnoc(START, before, x, maxTtl);
    var s, m := Run(START, before, maxTtl), MintOf(Run(START, actions, maxTtl).txns[tid]).value;
    MintStep(s, x, maxTtl, tid);
    if tid in s.txns && MintOf(s.txns[tid]) == Some(m) {
      MintWasMinted(before, maxTtl, tid);
      MintedLonger(before, x, maxTtl, m.id, m.grant);
    } else {
      assert MintedAt(actions, |before|, maxTtl, m.id, m.grant);
    }
  }

  lemma CommitGrants(s: State, tid: Id, env: Env, g: Id)
    requires tid in s.txns && Committing(s.txns[tid]) && g in AdvanceStep(s, tid, env).s.db.grants
    ensures var row := AdvanceStep(s, tid, env).s.db.grants[g];
      || (g in s.db.grants && s.db.grants[g].(revoked := false) == row.(revoked := false))
      || (MintOf(s.txns[tid]).Some? && MintOf(s.txns[tid]).value.id == g && MintOf(s.txns[tid]).value.grant == row)
  {
    CommitShape(s, tid, env);
    var t := s.txns[tid];
    if t.EndUpdated? { EndedGrants(s.db, t.route, t.rows, g); }
  }

  lemma EndedGrants(db: Tables, route: Route, rows: set<Id>, g: Id)
    ensures var db' := EndedDb(db, route, rows); g in db'.grants ==>
      g in db.grants && db.grants[g].(revoked := false) == db'.grants[g].(revoked := false)
  {
  }

  /** A grant is in the table because it was before, or because the transaction that mints it commits. */
  lemma GrantStep(s: State, x: Action, maxTtl: int, g: Id)
    requires g in Step(s, x, maxTtl).s.db.grants
    ensures var row := Step(s, x, maxTtl).s.db.grants[g];
      || (g in s.db.grants && s.db.grants[g].(revoked := false) == row.(revoked := false))
      || (&& x.Advance? && x.tid in s.txns && MintOf(s.txns[x.tid]).Some?
          && MintOf(s.txns[x.tid]).value.id == g && MintOf(s.txns[x.tid]).value.grant == row)
  {
    if x.Advance? && x.tid in s.txns && Committing(s.txns[x.tid]) {
      CommitGrants(s, x.tid, x.env, g);
    } else if !Deletes(x) {
      QuietStep(s, x, maxTtl);
    }
  }

  /** Every grant in the table goes back to the step that minted it, an open whose policy wants no approval or
      the counting of an approval that reached the threshold: it is for what was asked for, and its window
      starts at that step's clock. */
  lemma {:induction false} GrantWasMinted(actions: seq<Action>, maxTtl: int, g: Id)
    requires g in Run(START, actions, maxTtl).db.grants
    ensures WasMinted(actions, maxTtl, g, Run(START, actions, maxTtl).db.grants[g].(revoked := false))
    decreases |actions|
  {
    var before, x := actions[..|actions| - 1], actions[|actions| - 1];
    assert actions == before + [x];
    RunSnoc(START, before, x, maxTtl);
    var s, row := Run(START, before, maxTtl), Run(START, actions, maxTtl).db.grants[g];
    GrantStep(s, x, maxTtl, g);
    if g in s.db.grants && s.db.grants[g].(revoked := false) == row.(revoked := false) {
      GrantWasMinted(before, maxTtl, g);
    } else {
      MintWasMinted(before, maxTtl, x.tid);
      assert row == row.(revoked := false);
    }
    MintedLonger(before, x, maxTtl, g, row.(revoked := false));
  }
}
