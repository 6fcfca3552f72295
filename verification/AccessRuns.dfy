/** Two runs of the access workflow, from the empty tables, that reach what its theorems leave open: a
    granted request without approvals, and a grant that disappears without a trace. */
module AccessRuns {
  import opened Basics
  import opened Durations
  import opened AccessMachine
  import opened AccessSafety
  import opened AccessHistory
  import opened AccessService

  const TTL: int := 3600 * SECOND
  const NO_CAP := Interval(false, 0, 0, 0)

  /** User 10 asks for role 1 on asset 5 for a minute; one approval is required. */
  const ASK := Open(0, 10, 1, 5, 60, true, Some(Rule(1, NO_CAP)), false, 100, 101, 0)
  const ROW := Request(10, 1, 5, 60, NO_CAP, 60 * SECOND, 1, Pending)
  const ENV := Env(true, true, true, 0, 102, 0)

  /** The grant user 11's approval mints. */
  const MINTED := Minted(102, Grant(100, 1, 5, 10, 0, 60 * SECOND, false), {11})

  const ASKED := State(
    Tables(map[100 := ROW], map[], map[], {1}, {}, map[]), map[], {100, 101}, {100}, multiset{RequestCreated(100)},
      multiset{})

  lemma {:induction false} RunAppend(s: State, first: seq<Action>, second: seq<Action>, maxTtl: int)
    ensures Run(s, first + second, maxTtl) == Run(Run(s, first, maxTtl), second, maxTtl)
    decreases |first|
  {
    if first == [] {
      assert first + second == second;
    } else {
      assert (first + second)[1..] == first[1..] + second;
      RunAppend(Step(s, first[0], maxTtl).s, first[1..], second, maxTtl);
    }
  }

  lemma RunOne(s: State, a: Action, maxTtl: int)
    ensures Run(s, [a], maxTtl) == Step(s, a, maxTtl).s
  {
    assert [a][1..] == [];
  }

  const OPENING := [AddRole(1)] + [ASK] + [Advance(0, ENV)]

  lemma Opening()
    ensures Run(START, OPENING, TTL) == ASKED
  {
    var s := START.(db := START.db.(roles := {1}));
    RunOne(START, AddRole(1), TTL);
    assert START.db.roles + {1} == {1};
    OpenRuns(s, ASK, ENV, TTL);
    OpenedIs(s, ASK, TTL);
    assert OpenedTxn(ASK, TTL) == OpenInserted(100, ROW, None);
    assert s.born + {100} + MintIds(None) == {100} && s.used + {100, 101} == {100, 101};
    assert s.audit + multiset{RequestCreated(100)} + MintEvents(None) == multiset{RequestCreated(100)};
    RunAppend(START, [AddRole(1)], [ASK] + [Advance(0, ENV)], TTL);
    assert OPENING == [AddRole(1)] + ([ASK] + [Advance(0, ENV)]);
  }

  // ---- the approver is deleted --------------------------------------------------------------------------

  lemma Minting()
    ensures CountedWith(ASKED.db.votes, 100, 11) == {11} && VotedWindow(60 * SECOND) == 60 * SECOND
    ensures VoteMint(ASKED.db, 11, 100, Approve, ENV) == Some(MINTED)
  {
    var v := ASKED.db.votes[Ballot(100, 11) := Approve];
    assert v[Ballot(100, 11)] == Approve;
    assert Approvers(v, 100) == {11};
  }

  /** After user 11's approval. */
  function Approved(): State { Voted(ASKED, 11, 100, Approve, ENV) }

  lemma ApprovedTables()
    ensures Approved().txns == map[] && Approved().db == Tables(
      map[100 := ROW.(status := Granted)], map[Ballot(100, 11) := Approve], map[102 := MINTED.grant], {1}, {},
        map[100 := {11}])
  {
    Minting();
    ApprovedIs(ASKED, 11, 100, ENV);
  }

  lemma ApproverDeleted()
    ensures var db := Step(Approved(), DeleteUser(11), TTL).s.db;
      && 100 in db.requests && db.requests[100] == ROW.(status := Granted)
      && Approvers(db.votes, 100) == {} && DeciderGone(db, 100)
  {
    ApprovedTables();
    assert !Held(Approved(), UserRef(11), {});
    var db := Without(Approved().db, UserRef(11));
    assert 11 in Deciders(db, 100);
  }

  /** User 11 approves and is deleted: the request stays granted with no approval left in the table. */
  lemma GrantedWithoutApprovals()
    ensures var db := Run(START, OPENING + (VoteScript(11, 100, Approve, ENV) + [DeleteUser(11)]), TTL).db;
      && 100 in db.requests && db.requests[100].status == Granted && db.requests[100].required == 1
      && Approvers(db.votes, 100) == {} && DeciderGone(db, 100)
  {
    var script := VoteScript(11, 100, Approve, ENV);
    Opening();
    RunAppend(START, OPENING, script + [DeleteUser(11)], TTL);
    RunAppend(ASKED, script, [DeleteUser(11)], TTL);
    VoteRuns(ASKED, 11, 100, Approve, ENV, TTL);
    RunOne(Approved(), DeleteUser(11), TTL);
    ApproverDeleted();
  }

  // ---- a mint during the cascade of its role ----------------------------------------------------------------

  /** The vote at a stage, with the cascade of role 1 between its update and its commit. */
  function During(t: Txn): State { ASKED.(txns := map[1 := EndUpdated(OfRole(1), {})][0 := t]) }

  lemma CascadeBegins()
    ensures Run(ASKED, [BeginEnd(1, OfRole(1))] + [Advance(1, ENV)], TTL)
      == ASKED.(txns := map[1 := EndUpdated(OfRole(1), {})])
  {
    var s1 := ASKED.(txns := map[1 := EndBegun(OfRole(1))]);
    assert ASKED.txns[1 := EndBegun(OfRole(1))] == s1.txns;
    assert EndingRows(OfRole(1), ASKED.db.grants, 0) == {};
    assert s1.txns[1 := EndUpdated(OfRole(1), {})] == map[1 := EndUpdated(OfRole(1), {})];
    RunTwo(ASKED, BeginEnd(1, OfRole(1)), s1, Advance(1, ENV), ASKED.(txns := map[1 := EndUpdated(OfRole(1), {})]),
      TTL);
  }

  lemma DuringMoves(t: Txn, u: Txn)
    ensures Put(During(t), 0, u) == During(u)
    ensures !Contended(During(t).txns, 0, {RequestRow(100)})
  {
    assert During(t).txns[0 := u] == During(u).txns;
  }

  lemma VoteLocks()
    ensures Step(During(VoteBegun(11, 100, Approve)), Advance(0, ENV), TTL)
      == Result(During(VoteLocked(11, 100, Approve)), Fine)
    ensures Step(During(VoteLocked(11, 100, Approve)), Advance(0, ENV), TTL)
      == Result(During(VoteChecked(11, 100, Approve)), Fine)
    ensures Step(During(VoteChecked(11, 100, Approve)), Advance(0, ENV), TTL)
      == Result(During(VoteCast(11, 100, Approve)), Fine)
  {
    DuringMoves(VoteBegun(11, 100, Approve), VoteLocked(11, 100, Approve));
    DuringMoves(VoteLocked(11, 100, Approve), VoteChecked(11, 100, Approve));
    DuringMoves(VoteChecked(11, 100, Approve), VoteCast(11, 100, Approve));
  }

  const CAST := VoteResolved(11, 100, Approve, Some(MINTED))

  /** The resolved vote has drawn its grant id. */
  function Resolved(): State { During(CAST).(used := {100, 101, 102}) }

  lemma VoteResolves()
    ensures Step(During(VoteCast(11, 100, Approve)), Advance(0, ENV), TTL) == Result(Resolved(), Fine)
  {
    Minting();
    DuringMoves(VoteCast(11, 100, Approve), CAST);
    assert ASKED.used + {102} == {100, 101, 102};
  }

  lemma VoteCommits()
    ensures Step(Resolved(), Advance(0, ENV), TTL) == Result(CommitVote(Resolved(), 0, CAST), Fine)
    ensures CommitVote(Resolved(), 0, CAST).txns == map[1 := EndUpdated(OfRole(1), {})]
  {
    assert Resolved().txns - {0} == map[1 := EndUpdated(OfRole(1), {})];
  }

  /** The cascade commits: the grant was not there at its update and is deleted unrecorded. */
  lemma CascadeEnds()
    ensures Unrecorded(Step(CommitVote(Resolved(), 0, CAST), Advance(1, ENV), TTL).s, 102)
  {
    var m := CommitVote(Resolved(), 0, CAST);
    VoteCommits();
    assert !Held(m, RoleRef(1), {1});
    assert m.audit[GrantEnded(102, Revoked)] == 0 && m.audit[GrantEnded(102, Expired)] == 0;
    assert EndEvents(OfRole(1), {}) == {};
  }

  const VOTING := [BeginVote(0, 11, 100, Approve)]
    + ([Advance(0, ENV)] + ([Advance(0, ENV)] + ([Advance(0, ENV)] + ([Advance(0, ENV)] + [Advance(0, ENV)]))))

  /** A grant minted between the cascade's update and its commit disappears without an end event and
      without a terminator call. */
  lemma LateMintUnrecorded()
    ensures Unrecorded(
      Run(START, OPENING + ([BeginEnd(1, OfRole(1))] + [Advance(1, ENV)] + (VOTING + [Advance(1, ENV)])), TTL), 102)
  {
    var cascade := [BeginEnd(1, OfRole(1))] + [Advance(1, ENV)];
    Opening();
    CascadeBegins();
    RunAppend(START, OPENING, cascade + (VOTING + [Advance(1, ENV)]), TTL);
    RunAppend(ASKED, cascade, VOTING + [Advance(1, ENV)], TTL);
    var s := ASKED.(txns := map[1 := EndUpdated(OfRole(1), {})]);
    RunAppend(s, VOTING, [Advance(1, ENV)], TTL);
    Votes(s);
    RunOne(CommitVote(Resolved(), 0, CAST), Advance(1, ENV), TTL);
    CascadeEnds();
  }

  lemma Votes(s: State)
    requires s == ASKED.(txns := map[1 := EndUpdated(OfRole(1), {})])
    ensures Run(s, VOTING, TTL) == CommitVote(Resolved(), 0, CAST)
  {
    var adv, m := Advance(0, ENV), CommitVote(Resolved(), 0, CAST);
    VoteLocks();
    VoteResolves();
    VoteCommits();
    RunTwo(During(VoteCast(11, 100, Approve)), adv, Resolved(), adv, m, TTL);
    RunFirst(During(VoteChecked(11, 100, Approve)), adv, [adv] + [adv], TTL, m, Fine);
    RunFirst(During(VoteLocked(11, 100, Approve)), adv, [adv] + ([adv] + [adv]), TTL, m, Fine);
    RunFirst(During(VoteBegun(11, 100, Approve)), adv, [adv] + ([adv] + ([adv] + [adv])), TTL, m, Fine);
    assert Step(s, BeginVote(0, 11, 100, Approve), TTL).s == During(VoteBegun(11, 100, Approve));
    RunFirst(s, BeginVote(0, 11, 100, Approve), [adv] + ([adv] + ([adv] + ([adv] + [adv]))), TTL, m, Fine);
  }
}
