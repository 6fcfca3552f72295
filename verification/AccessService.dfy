/** The access-request service as a class over its tables. Each method is one transaction running
    alone, and equals a run of the machine, so everything proved of runs holds of it. */
module AccessService {
  import opened Basics
  import opened Durations
  import opened AccessMachine
  import opened AccessSafety
  import opened AccessEnds

  // ---- one transaction running alone ---------------------------------------------------------------

  /** The outcome a caller sees: the first failure, if any. */
  ghost function RunOutcome(s: State, actions: seq<Action>, maxTtl: int): Outcome
    decreases |actions|
  {
    if actions == [] then Fine
    else
      var res := Step(s, actions[0], maxTtl);
      if res.out.Failed? then res.out else RunOutcome(res.s, actions[1..], maxTtl)
  }

  ghost predicate Runs(s: State, actions: seq<Action>, maxTtl: int, s': State, out: Outcome)
  {
    Run(s, actions, maxTtl) == s' && RunOutcome(s, actions, maxTtl) == out
  }

  lemma NothingToDrop(s: State)
    requires s.txns == map[]
    ensures Drop(s, 0) == s
  {
  }

  function Idle(s: State): State { s.(txns := map[]) }
  function At(s: State, t: Txn): State { s.(txns := map[0 := t]) }

  lemma RunFirst(s: State, a: Action, rest: seq<Action>, maxTtl: int, s': State, out: Outcome)
    requires !Step(s, a, maxTtl).out.Failed?
    requires Runs(Step(s, a, maxTtl).s, rest, maxTtl, s', out)
    ensures Runs(s, [a] + rest, maxTtl, s', out)
  {
  }

  lemma RunTwo(s: State, a: Action, s1: State, b: Action, s2: State, maxTtl: int)
    requires Step(s, a, maxTtl) == Result(s1, Fine) && Step(s1, b, maxTtl) == Result(s2, Fine)
    ensures Runs(s, [a] + [b], maxTtl, s2, Fine)
  {
    assert ([a] + [b])[1..] == [b] && [b][1..] == [];
    assert Run(s2, [], maxTtl) == s2 && RunOutcome(s2, [], maxTtl) == Fine;
    assert Run(s1, [b], maxTtl) == s2 && RunOutcome(s1, [b], maxTtl) == Fine;
  }

  /** After a failure the rest of the script does nothing. */
  lemma RunFailed(s: State, a: Action, rest: seq<Action>, maxTtl: int, e: Error)
    requires Step(s, a, maxTtl) == Result(Idle(s), Failed(e))
    requires forall i :: 0 <= i < |rest| ==> rest[i].Advance?
    ensures Runs(s, [a] + rest, maxTtl, Idle(s), Failed(e))
  {
    assert ([a] + rest)[1..] == rest;
    RunIdle(Idle(s), rest, maxTtl);
  }

  lemma {:induction false} RunIdle(s: State, actions: seq<Action>, maxTtl: int)
    requires s.txns == map[] && forall i :: 0 <= i < |actions| ==> actions[i].Advance?
    ensures Run(s, actions, maxTtl) == s
    decreases |actions|
  {
    if actions != [] {
      assert actions[0].Advance?;
      RunIdle(s, actions[1..], maxTtl);
    }
  }

  // ---- voting ------------------------------------------------------------------------------------------

  function VoteScript(a: Id, r: Id, d: Decision, env: Env): seq<Action>
  {
    [BeginVote(0, a, r, d)]
      + ([Advance(0, env)] + ([Advance(0, env)] + ([Advance(0, env)] + ([Advance(0, env)] + [Advance(0, env)]))))
  }

  function VoteError(db: Tables, a: Id, r: Id, d: Decision, env: Env): Option<Error>
  {
    if r !in db.requests then Some(NotPending)
    else
      var e := VoteCheck(db.requests[r], a, d, env);
      if e.Some? then e else CastError(db, a, r)
  }

  function VoteMint(db: Tables, a: Id, r: Id, d: Decision, env: Env): Option<Minted>
    requires r in db.requests
  {
    if Reaches(db, r, a, d)
    then Some(Minted(env.id, Mint(r, db.requests[r], env.now, VotedWindow(db.requests[r].granted)),
      CountedWith(db.votes, r, a)))
    else None
  }

  /** The state after an uninterrupted, accepted vote. */
  function Voted(s: State, a: Id, r: Id, d: Decision, env: Env): State
    requires r in s.db.requests
  {
    var mint := VoteMint(s.db, a, r, d, env);
    CommitVote(s.(used := s.used + MintIds(mint)), 0, VoteResolved(a, r, d, mint))
  }

  /** The accepted approval, spelled out. */
  lemma ApprovedIs(s: State, a: Id, r: Id, env: Env)
    requires s.txns == map[] && r in s.db.requests && s.db.requests[r].status == Pending
    ensures var mint := VoteMint(s.db, a, r, Approve, env);
      Voted(s, a, r, Approve, env) == State(
        Tables(s.db.requests[r := s.db.requests[r].(status := if mint.Some? then Granted else Pending)],
               s.db.votes[Ballot(r, a) := Approve], AddMint(s.db.grants, mint), s.db.roles, s.db.gone,
               if mint.Some? then s.db.decided[r := mint.value.counted] else s.db.decided),
        map[], s.used + MintIds(mint), s.born + MintIds(mint),
        s.audit + multiset{RequestApproved(r, a)} + MintEvents(mint), s.torn)
  {
  }

  /** The accepted denial, spelled out. */
  lemma DeniedIs(s: State, a: Id, r: Id, env: Env)
    requires s.txns == map[] && r in s.db.requests
    ensures Voted(s, a, r, Deny, env) == State(
      Tables(s.db.requests[r := s.db.requests[r].(status := Denied)], s.db.votes[Ballot(r, a) := Deny], s.db.grants,
             s.db.roles, s.db.gone, s.db.decided[r := {a}]),
      map[], s.used, s.born, s.audit + multiset{RequestDenied(r, a)}, s.torn)
  {
    assert s.audit + multiset{RequestDenied(r, a)} + MintEvents(None) == s.audit + multiset{RequestDenied(r, a)};
    assert s.used + MintIds(None) == s.used && s.born + MintIds(None) == s.born;
    NothingToDrop(s);
  }

  lemma ResolveAlone(s: State, a: Id, r: Id, d: Decision, env: Env, maxTtl: int)
    requires s.txns == map[] && r in s.db.requests && env.id !in s.used
    ensures var mint := VoteMint(s.db, a, r, d, env);
      Step(At(s, VoteCast(a, r, d)), Advance(0, env), maxTtl)
        == Result(At(s.(used := s.used + MintIds(mint)), VoteResolved(a, r, d, mint)), Fine)
  {
  }

  lemma CommitAlone(s: State, a: Id, r: Id, d: Decision, mint: Option<Minted>, env: Env, maxTtl: int)
    requires s.txns == map[] && r in s.db.requests
    ensures Step(At(s, VoteResolved(a, r, d, mint)), Advance(0, env), maxTtl)
      == Result(CommitVote(s, 0, VoteResolved(a, r, d, mint)), Fine)
  {
  }

  lemma VoteTail(s: State, a: Id, r: Id, d: Decision, env: Env, maxTtl: int)
    requires s.txns == map[] && r in s.db.requests && env.id !in s.used
    ensures Runs(At(s, VoteCast(a, r, d)), [Advance(0, env)] + [Advance(0, env)], maxTtl, Voted(s, a, r, d, env), Fine)
  {
    var mint := VoteMint(s.db, a, r, d, env);
    var s1 := s.(used := s.used + MintIds(mint));
    ResolveAlone(s, a, r, d, env, maxTtl);
    CommitAlone(s1, a, r, d, mint, env, maxTtl);
    RunTwo(At(s, VoteCast(a, r, d)), Advance(0, env), At(s1, VoteResolved(a, r, d, mint)), Advance(0, env),
      Voted(s, a, r, d, env), maxTtl);
  }

  /** An uninterrupted vote: the first check that fails decides the error and nothing changes,
      otherwise the whole vote takes effect. */
  lemma VoteRuns(s: State, a: Id, r: Id, d: Decision, env: Env, maxTtl: int)
    requires s.txns == map[] && env.id !in s.used
    ensures var e := VoteError(s.db, a, r, d, env);
      if e.Some? then Runs(s, VoteScript(a, r, d, env), maxTtl, s, Failed(e.value))
      else Runs(s, VoteScript(a, r, d, env), maxTtl, Voted(s, a, r, d, env), Fine)
  {
    var e := VoteError(s.db, a, r, d, env);
    var out, s' := if e.Some? then Failed(e.value) else Fine, if e.Some? then s else Voted(s, a, r, d, env);
    var adv := Advance(0, env);
    var r2 := [adv] + [adv];
    var r3 := [adv] + r2;
    var r4 := [adv] + r3;
    var begun, locked, checked, cast := At(s, VoteBegun(a, r, d)), At(s, VoteLocked(a, r, d)),
      At(s, VoteChecked(a, r, d)), At(s, VoteCast(a, r, d));
    assert Runs(begun, [adv] + r4, maxTtl, s', out) by {
      if r !in s.db.requests {
        StepFails(begun, adv, NotPending, maxTtl);
        RunFailed(begun, adv, r4, maxTtl, NotPending);
        assert Idle(begun) == s;
      } else {
        assert Step(begun, adv, maxTtl) == Result(locked, Fine);
        VoteFromLock(s, a, r, d, env, maxTtl);
        RunFirst(begun, adv, r4, maxTtl, s', out);
      }
    }
    assert Step(s, BeginVote(0, a, r, d), maxTtl) == Result(begun, Fine);
    RunFirst(s, BeginVote(0, a, r, d), [adv] + r4, maxTtl, s', out);
  }

  lemma StepFails(s: State, adv: Action, e: Error, maxTtl: int)
    requires s.txns.Keys == {0} && adv.Advance? && adv.tid == 0
    requires AdvanceStep(s, 0, adv.env) == Fail(s, 0, e)
    ensures Step(s, adv, maxTtl) == Result(Idle(s), Failed(e))
  {
  }

  lemma VoteChecksAlone(s: State, a: Id, r: Id, d: Decision, env: Env, maxTtl: int)
    requires s.txns == map[] && r in s.db.requests
    ensures var err := VoteCheck(s.db.requests[r], a, d, env); var locked := At(s, VoteLocked(a, r, d));
      Step(locked, Advance(0, env), maxTtl)
        == if err.Some? then Result(s, Failed(err.value)) else Result(At(s, VoteChecked(a, r, d)), Fine)
    ensures var err := CastError(s.db, a, r); var checked := At(s, VoteChecked(a, r, d));
      Step(checked, Advance(0, env), maxTtl)
        == if err.Some? then Result(s, Failed(err.value)) else Result(At(s, VoteCast(a, r, d)), Fine)
  {
  }

  lemma VoteFromLock(s: State, a: Id, r: Id, d: Decision, env: Env, maxTtl: int)
    requires s.txns == map[] && env.id !in s.used && r in s.db.requests
    ensures var e := VoteError(s.db, a, r, d, env); var adv := Advance(0, env);
      if e.Some? then Runs(At(s, VoteLocked(a, r, d)), [adv] + ([adv] + ([adv] + [adv])), maxTtl, s, Failed(e.value))
      else Runs(At(s, VoteLocked(a, r, d)), [adv] + ([adv] + ([adv] + [adv])), maxTtl, Voted(s, a, r, d, env), Fine)
  {
    var adv := Advance(0, env);
    var locked, checked := At(s, VoteLocked(a, r, d)), At(s, VoteChecked(a, r, d));
    var err, refused := VoteCheck(s.db.requests[r], a, d, env), CastError(s.db, a, r);
    VoteChecksAlone(s, a, r, d, env, maxTtl);
    if err.Some? {
      RunFailed(locked, adv, [adv] + ([adv] + [adv]), maxTtl, err.value);
    } else if refused.Some? {
      RunFailed(checked, adv, [adv] + [adv], maxTtl, refused.value);
      RunFirst(locked, adv, [adv] + ([adv] + [adv]), maxTtl, s, Failed(refused.value));
    } else {
      VoteTail(s, a, r, d, env, maxTtl);
      RunFirst(checked, adv, [adv] + [adv], maxTtl, Voted(s, a, r, d, env), Fine);
      RunFirst(locked, adv, [adv] + ([adv] + [adv]), maxTtl, Voted(s, a, r, d, env), Fine);
    }
  }

  // ---- cancelling and opening ---------------------------------------------------------------------------

  function CancelScript(u: Id, r: Id, env: Env): seq<Action>
  {
    [BeginCancel(0, u, r)] + ([Advance(0, env)] + ([Advance(0, env)] + [Advance(0, env)]))
  }

  function CancelError(db: Tables, u: Id, r: Id): Option<Error>
  {
    if r !in db.requests then Some(NotPending)
    else if db.requests[r].requester != u then Some(NotRequester)
    else if db.requests[r].status != Pending then Some(NotPending)
    else None
  }

  lemma CancelTail(s: State, u: Id, r: Id, env: Env, maxTtl: int)
    requires s.txns == map[] && r in s.db.requests
    ensures var e := CancelError(s.db, u, r); var adv := Advance(0, env);
      if e.Some? then Runs(At(s, CancelLocked(u, r)), [adv] + [adv], maxTtl, s, Failed(e.value))
      else Runs(At(s, CancelLocked(u, r)), [adv] + [adv], maxTtl, CommitCancel(s, 0, r), Fine)
  {
    var adv := Advance(0, env);
    var e := CancelError(s.db, u, r);
    var locked, ready := At(s, CancelLocked(u, r)), At(s, CancelSet(u, r));
    assert locked.txns - {0} == map[] && ready.txns - {0} == map[];
    if e.Some? {
      StepFails(locked, adv, e.value, maxTtl);
      RunFailed(locked, adv, [adv], maxTtl, e.value);
      assert Idle(locked) == s;
    } else {
      assert Step(locked, adv, maxTtl) == Result(ready, Fine);
      assert Step(ready, adv, maxTtl) == Result(CommitCancel(s, 0, r), Fine) by { NothingToDrop(s); }
      RunTwo(locked, adv, ready, adv, CommitCancel(s, 0, r), maxTtl);
    }
  }

  lemma CancelRuns(s: State, u: Id, r: Id, env: Env, maxTtl: int)
    requires s.txns == map[]
    ensures var e := CancelError(s.db, u, r);
      if e.Some? then Runs(s, CancelScript(u, r, env), maxTtl, s, Failed(e.value))
      else Runs(s, CancelScript(u, r, env), maxTtl, CommitCancel(s, 0, r), Fine)
  {
    var adv := Advance(0, env);
    var e := CancelError(s.db, u, r);
    var out, s' := if e.Some? then Failed(e.value) else Fine, if e.Some? then s else CommitCancel(s, 0, r);
    var begun := At(s, CancelBegun(u, r));
    assert Runs(begun, [adv] + ([adv] + [adv]), maxTtl, s', out) by {
      if r !in s.db.requests {
        StepFails(begun, adv, NotPending, maxTtl);
        RunFailed(begun, adv, [adv] + [adv], maxTtl, NotPending);
        assert Idle(begun) == s;
      } else {
        CancelTail(s, u, r, env, maxTtl);
        assert Step(begun, adv, maxTtl) == Result(At(s, CancelLocked(u, r)), Fine);
        RunFirst(begun, adv, [adv] + [adv], maxTtl, s', out);
      }
    }
    RunFirst(s, BeginCancel(0, u, r), [adv] + ([adv] + [adv]), maxTtl, s', out);
  }

  /** The error RequestAccess reports, checks in order. */
  function OpenError(db: Tables, a: Action, maxTtl: int): Option<Error>
    requires a.Open?
  {
    if !a.eligible then Some(NotEligible)
    else if a.rule.None? then Some(NotRequestable)
    else if a.held then Some(AlreadyActive)
    else
      var row := NewRequest(a, a.rule.value, maxTtl);
      if row.granted <= 0 then Some(NotRequestable)
      else if MissingRef(db, row).Some? then MissingRef(db, row)
      else if row.status == Pending && PendingTaken(db.requests, KeyOf(row)) then Some(DuplicatePending)
      else None
  }

  function Opened(s: State, a: Action, maxTtl: int): State
    requires a.Open? && a.rule.Some?
  {
    CommitOpen(s.(used := s.used + {a.id, a.grantId}), 0, OpenedTxn(a, maxTtl))
  }

  /** The opened request, spelled out. */
  lemma OpenedIs(s: State, a: Action, maxTtl: int)
    requires s.txns == map[] && a.Open? && a.rule.Some?
    ensures var t := OpenedTxn(a, maxTtl);
      Opened(s, a, maxTtl) == State(
        Tables(s.db.requests[a.id := t.row], s.db.votes, AddMint(s.db.grants, t.mint), s.db.roles, s.db.gone,
               if t.mint.Some? then s.db.decided[a.id := {}] else s.db.decided),
        map[], s.used + {a.id, a.grantId}, s.born + {a.id} + MintIds(t.mint),
        s.audit + multiset{RequestCreated(a.id)} + MintEvents(t.mint), s.torn)
  {
    NothingToDrop(s.(used := s.used + {a.id, a.grantId}));
  }

  lemma OpenFails(s: State, a: Action, maxTtl: int)
    requires s.txns == map[] && a.Open? && a.id !in s.used && a.grantId !in s.used && a.id != a.grantId
    requires OpenError(s.db, a, maxTtl).Some?
    ensures OpenStep(s, a, maxTtl) == Result(s, Failed(OpenError(s.db, a, maxTtl).value))
  {
  }

  function OpenedTxn(a: Action, maxTtl: int): Txn
    requires a.Open? && a.rule.Some?
  {
    var row := NewRequest(a, a.rule.value, maxTtl);
    var minted := Minted(a.grantId, Mint(a.id, row, a.now, row.granted), {});
    OpenInserted(a.id, row, if row.status == Granted then Some(minted) else None)
  }

  lemma OpenInserts(s: State, a: Action, maxTtl: int)
    requires s.txns == map[] && a.Open? && a.tid == 0 && a.id !in s.used && a.grantId !in s.used && a.id != a.grantId
    requires OpenError(s.db, a, maxTtl).None?
    ensures OpenStep(s, a, maxTtl) == Result(At(s.(used := s.used + {a.id, a.grantId}), OpenedTxn(a, maxTtl)), Fine)
  {
    var row := NewRequest(a, a.rule.value, maxTtl);
    assert !Contended(s.txns, 0, {PendingKey(KeyOf(row))});
  }

  lemma OpenCommits(s: State, a: Action, env: Env, maxTtl: int)
    requires s.txns == map[] && a.Open? && a.rule.Some?
    ensures Step(At(s.(used := s.used + {a.id, a.grantId}), OpenedTxn(a, maxTtl)), Advance(0, env), maxTtl)
      == Result(Opened(s, a, maxTtl), Fine)
  {
  }

  lemma OpenRefused(s: State, a: Action, env: Env, maxTtl: int)
    requires s.txns == map[] && a.Open? && a.id !in s.used && a.grantId !in s.used && a.id != a.grantId
    requires OpenError(s.db, a, maxTtl).Some?
    ensures Runs(s, [a] + [Advance(0, env)], maxTtl, s, Failed(OpenError(s.db, a, maxTtl).value))
  {
    OpenFails(s, a, maxTtl);
    assert Idle(s) == s;
    RunFailed(s, a, [Advance(0, env)], maxTtl, OpenError(s.db, a, maxTtl).value);
  }

  lemma OpenAccepted(s: State, a: Action, env: Env, maxTtl: int)
    requires s.txns == map[] && a.Open? && a.tid == 0 && a.id !in s.used && a.grantId !in s.used && a.id != a.grantId
    requires OpenError(s.db, a, maxTtl).None?
    ensures Runs(s, [a] + [Advance(0, env)], maxTtl, Opened(s, a, maxTtl), Fine)
  {
    OpenInserts(s, a, maxTtl);
    OpenCommits(s, a, env, maxTtl);
    RunTwo(s, a, At(s.(used := s.used + {a.id, a.grantId}), OpenedTxn(a, maxTtl)), Advance(0, env),
      Opened(s, a, maxTtl), maxTtl);
  }

  /** An uninterrupted request: refused with the first error, or opened in one piece. */
  lemma OpenRuns(s: State, a: Action, env: Env, maxTtl: int)
    requires s.txns == map[] && a.Open? && a.tid == 0 && a.id !in s.used && a.grantId !in s.used && a.id != a.grantId
    ensures var e := OpenError(s.db, a, maxTtl);
      if e.Some? then Runs(s, [a] + [Advance(0, env)], maxTtl, s, Failed(e.value))
      else Runs(s, [a] + [Advance(0, env)], maxTtl, Opened(s, a, maxTtl), Fine)
  {
    if OpenError(s.db, a, maxTtl).Some? { OpenRefused(s, a, env, maxTtl); } else { OpenAccepted(s, a, env, maxTtl); }
  }

  // ---- ending grants ------------------------------------------------------------------------------------

  function TearScript(order: seq<Id>, env: Env): seq<Action>
  {
    if order == [] then [Advance(0, env)] else [Advance(0, env.(next := order[0]))] + TearScript(order[1..], env)
  }

  function EndScript(route: Route, order: seq<Id>, env: Env): seq<Action>
  {
    [BeginEnd(0, route)] + ([Advance(0, env)] + ([Advance(0, env)] + TearScript(order, env)))
  }

  ghost predicate Enumerates(order: seq<Id>, rows: set<Id>)
  {
    multiset(order) == multiset(rows)
  }

  lemma DropFirst(rows: set<Id>, order: seq<Id>)
    requires order != [] && Enumerates(order, rows)
    ensures order[0] in rows && Enumerates(order[1..], rows - {order[0]})
  {
    var g := order[0];
    assert order == [g] + order[1..];
    assert g in multiset(order);
    forall x ensures multiset(order[1..])[x] == multiset(rows - {g})[x] {
      assert multiset(order)[x] == multiset(rows)[x];
    }
  }

  lemma {:induction false} TearRuns(s: State, rows: set<Id>, order: seq<Id>, env: Env, maxTtl: int)
    requires s.txns == map[] && Enumerates(order, rows)
    ensures Runs(At(s, Tearing(rows)), TearScript(order, env), maxTtl, s.(torn := s.torn + multiset(rows)), Fine)
    decreases |order|
  {
    var t := At(s, Tearing(rows));
    if order == [] {
      assert |multiset(rows)| == 0 && rows == {};
      assert t.txns - {0} == map[];
      assert s.torn + multiset(rows) == s.torn;
    } else {
      var g := order[0];
      DropFirst(rows, order);
      var s1 := s.(torn := s.torn + multiset{g});
      TearRuns(s1, rows - {g}, order[1..], env, maxTtl);
      assert s1.torn + multiset(rows - {g}) == s.torn + multiset(rows);
      assert Step(t, Advance(0, env.(next := g)), maxTtl) == Result(At(s1, Tearing(rows - {g})), Fine);
      RunFirst(t, Advance(0, env.(next := g)), TearScript(order[1..], env), maxTtl,
        s.(torn := s.torn + multiset(rows)), Fine);
    }
  }

  function EndError(grants: Grants, route: Route, env: Env): Option<Error>
  {
    if !route.One? then None
    else if route.grant !in grants then Some(GrantNotFound)
    else if !env.authorized then Some(RevokeForbidden)
    else if EndingRows(route, grants, env.now) == {} then Some(GrantInactive)
    else None
  }

  /** Everything an uninterrupted ending does: rows, audit rows and terminator calls. */
  function Ended(s: State, route: Route, now: int): State
  {
    var rows := EndingRows(route, s.db.grants, now);
    s.(db := EndedDb(s.db, route, rows), audit := s.audit + multiset(EndEvents(route, rows)),
      torn := s.torn + multiset(rows))
  }

  /** Which grants an uninterrupted ending records and tears down: exactly those its route matches, as
      expired by the reaper and as revoked otherwise. */
  lemma EndedExactly(s: State, route: Route, now: int, g: Id)
    ensures var s' := Ended(s, route, now); var hit := g in s.db.grants && Ends(route, g, s.db.grants[g], now);
      && s'.audit[GrantEnded(g, Expired)] == s.audit[GrantEnded(g, Expired)] + Times(hit && route == Reaper)
      && s'.audit[GrantEnded(g, Revoked)] == s.audit[GrantEnded(g, Revoked)] + Times(hit && route != Reaper)
      && s'.torn[g] == s.torn[g] + Times(hit)
  {
    var rows := EndingRows(route, s.db.grants, now);
    assert GrantEnded(g, HowOf(route)) in EndEvents(route, rows) <==> g in rows;
  }

  /** Deactivating a user leaves no grant of theirs unrevoked and no other grant touched. */
  lemma UserCascadeComplete(s: State, user: Id, now: int, g: Id)
    requires g in s.db.grants
    ensures var s' := Ended(s, OfUser(user), now);
      && g in s'.db.grants
      && s'.db.grants[g] == if s.db.grants[g].subject == user then s.db.grants[g].(revoked := true) else s.db.grants[g]
  {
  }

  /** Deleting a role removes exactly its requests and grants and leaves every other as it was. */
  lemma RoleCascadeRemoves(s: State, role: Id, now: int)
    ensures var db := Ended(s, OfRole(role), now).db;
      && db.roles == s.db.roles - {role} && db.gone == s.db.gone
      && (forall r :: r in db.requests <==> r in s.db.requests && s.db.requests[r].role != role)
      && (forall r :: r in db.requests ==> db.requests[r] == s.db.requests[r])
      && (forall x :: x in db.grants <==> x in s.db.grants && s.db.grants[x].role != role)
      && (forall x :: x in db.grants ==> db.grants[x] == s.db.grants[x])
  {
  }

  /** It records and tears down exactly the role's active grants: one that has expired but was not
      reaped yet disappears without an end event. */
  lemma RoleCascadeRecords(s: State, role: Id, now: int, g: Id)
    requires GrantsAudited(s.db.grants, s.audit) && g in s.db.grants && s.db.grants[g].role == role
    ensures var s' := Ended(s, OfRole(role), now); var row := s.db.grants[g];
      && (EndCount(s'.audit, g) == 1 <==> row.revoked || row.at + row.window > now)
      && s'.torn[g] == s.torn[g] + Times(!row.revoked && row.at + row.window > now)
  {
  }

  /** After a reap every unrevoked grant is still within its window, and no grant within its window was
      touched. */
  lemma ReapedExactly(s: State, now: int, g: Id)
    requires g in s.db.grants
    ensures var row, row' := s.db.grants[g], Ended(s, Reaper, now).db.grants[g];
      && (!row'.revoked ==> row'.at + row'.window > now)
      && row' == if row.at + row.window > now then row else row.(revoked := true)
  {
  }

  lemma EndTail(s: State, route: Route, order: seq<Id>, env: Env, maxTtl: int)
    requires s.txns == map[] && Enumerates(order, EndingRows(route, s.db.grants, env.now))
    ensures var rows := EndingRows(route, s.db.grants, env.now);
      Runs(At(s, EndUpdated(route, rows)), [Advance(0, env)] + TearScript(order, env), maxTtl,
        Ended(s, route, env.now), Fine)
  {
    var rows := EndingRows(route, s.db.grants, env.now);
    var t := At(s, EndUpdated(route, rows));
    var s1 := s.(db := EndedDb(s.db, route, rows), audit := s.audit + multiset(EndEvents(route, rows)));
    TearRuns(s1, rows, order, env, maxTtl);
    assert !Held(t, RoleRef(if route.OfRole? then route.role else 0), {0});
    assert Step(t, Advance(0, env), maxTtl) == Result(At(s1, Tearing(rows)), Fine);
    RunFirst(t, Advance(0, env), TearScript(order, env), maxTtl, Ended(s, route, env.now), Fine);
  }

  lemma {:induction false} TearScriptAdvances(order: seq<Id>, env: Env)
    ensures forall i :: 0 <= i < |TearScript(order, env)| ==> TearScript(order, env)[i].Advance?
    decreases |order|
  {
    if order != [] { TearScriptAdvances(order[1..], env); }
  }

  /** A refused ending is a run that changes nothing. */
  lemma EndRefused(s: State, route: Route, order: seq<Id>, env: Env, maxTtl: int)
    requires s.txns == map[] && EndError(s.db.grants, route, env).Some?
    ensures Runs(s, EndScript(route, order, env), maxTtl, s, Failed(EndError(s.db.grants, route, env).value))
  {
    var adv, e := Advance(0, env), EndError(s.db.grants, route, env).value;
    var begun := At(s, EndBegun(route));
    TearScriptAdvances(order, env);
    assert !Contended(begun.txns, 0, {GrantRow(route.grant)});
    assert AdvanceStep(begun, 0, env) == Fail(begun, 0, e);
    StepFails(begun, adv, e, maxTtl);
    assert Idle(begun) == s;
    RunFailed(begun, adv, [adv] + TearScript(order, env), maxTtl, e);
    RunFirst(s, BeginEnd(0, route), [adv] + ([adv] + TearScript(order, env)), maxTtl, s, Failed(e));
  }

  lemma EndAccepted(s: State, route: Route, order: seq<Id>, env: Env, maxTtl: int)
    requires s.txns == map[] && EndError(s.db.grants, route, env).None?
    requires Enumerates(order, EndingRows(route, s.db.grants, env.now))
    ensures Runs(s, EndScript(route, order, env), maxTtl, Ended(s, route, env.now), Fine)
  {
    var adv := Advance(0, env);
    var rows := EndingRows(route, s.db.grants, env.now);
    var begun := At(s, EndBegun(route));
    EndTail(s, route, order, env, maxTtl);
    assert Step(begun, adv, maxTtl) == Result(At(s, EndUpdated(route, rows)), Fine);
    RunFirst(begun, adv, [adv] + TearScript(order, env), maxTtl, Ended(s, route, env.now), Fine);
    RunFirst(s, BeginEnd(0, route), [adv] + ([adv] + TearScript(order, env)), maxTtl, Ended(s, route, env.now), Fine);
  }

  /** An uninterrupted ending, in any order of teardown: refused with nothing changed, or all of it. */
  lemma EndRuns(s: State, route: Route, order: seq<Id>, env: Env, maxTtl: int)
    requires s.txns == map[] && Enumerates(order, EndingRows(route, s.db.grants, env.now))
    ensures var e := EndError(s.db.grants, route, env);
      if e.Some? then Runs(s, EndScript(route, order, env), maxTtl, s, Failed(e.value))
      else Runs(s, EndScript(route, order, env), maxTtl, Ended(s, route, env.now), Fine)
  {
    if EndError(s.db.grants, route, env).Some? {
      EndRefused(s, route, order, env, maxTtl);
    } else {
      EndAccepted(s, route, order, env, maxTtl);
    }
  }

  lemma {:induction false} Enumerate(rows: set<Id>) returns (order: seq<Id>)
    ensures Enumerates(order, rows)
    decreases |rows|
  {
    if rows == {} {
      order := [];
    } else {
      var g :| g in rows;
      var rest := Enumerate(rows - {g});
      order := [g] + rest;
      assert multiset(rows) == multiset(rows - {g}) + multiset{g};
    }
  }

  /** There always is such an order, so every ending is a run of the machine. */
  lemma EndCanRun(s: State, route: Route, env: Env, maxTtl: int) returns (actions: seq<Action>)
    requires s.txns == map[]
    ensures var e := EndError(s.db.grants, route, env);
      if e.Some? then Runs(s, actions, maxTtl, s, Failed(e.value))
      else Runs(s, actions, maxTtl, Ended(s, route, env.now), Fine)
  {
    var order := Enumerate(EndingRows(route, s.db.grants, env.now));
    EndRuns(s, route, order, env, maxTtl);
    actions := EndScript(route, order, env);
  }

  /** Whatever a script of the machine leads to keeps the invariant; by the lemmas above this covers
      every method of the service. */
  lemma RunsKeep(s: State, actions: seq<Action>, maxTtl: int, s': State, out: Outcome)
    requires Inv(s, maxTtl) && Runs(s, actions, maxTtl, s', out)
    ensures Inv(s', maxTtl)
  {
    RunKeeps(s, actions, maxTtl);
  }

  // ---- the service ----------------------------------------------------------------------------------------

  class Service {
    var requests: Requests
    var votes: Votes
    var grants: Grants
    var roles: set<Id>
    var gone: set<Ref>
    ghost var decided: map<Id, set<Id>>
    var outbox: seq<Event>
    var calls: seq<Id>
    ghost var used: set<Id>
    ghost var born: set<Id>
    const maxTtl: int

    ghost function Snapshot(): State
      reads this
    {
      State(Tables(requests, votes, grants, roles, gone, decided), map[], used, born, multiset(outbox), multiset(calls))
    }

    constructor (maxTtl: int)
      ensures Snapshot() == START && this.maxTtl == maxTtl
    {
      requests, votes, grants, roles, gone, outbox, calls := map[], map[], map[], {}, {}, [], [];
      used, born, decided := {}, {}, map[];
      this.maxTtl := maxTtl;
    }

    /** Inserts an access_grants row with its audit row, on the caller's transaction. */
    method MintGrant(m: Minted)
      modifies this`grants, this`outbox, this`born
      ensures grants == AddMint(old(grants), Some(m)) && born == old(born) + MintIds(Some(m))
      ensures multiset(outbox) == old(multiset(outbox)) + MintEvents(Some(m))
    {
      grants := grants[m.id := m.grant];
      outbox := outbox + [GrantActivated(m.id)];
      born := born + {m.id};
    }

    method InsertRequest(a: Action, row: Request)
      requires a.Open? && a.rule.Some? && row == NewRequest(a, a.rule.value, maxTtl)
      modifies this
      ensures Snapshot() == Opened(old(Snapshot()), a, maxTtl)
    {
      ghost var s := Snapshot();
      ghost var mint := OpenedTxn(a, maxTtl).mint;
      requests := requests[a.id := row];
      outbox := outbox + [RequestCreated(a.id)];
      used, born := used + {a.id, a.grantId}, born + {a.id};
      OpenedIs(s, a, maxTtl);
      assert multiset(outbox) == s.audit + multiset{RequestCreated(a.id)};
      if row.status == Granted {
        MintGrant(Minted(a.grantId, Mint(a.id, row, a.now, row.granted), {}));
        decided := decided[a.id := {}];
        assert grants == AddMint(s.db.grants, mint);
      } else {
        assert mint == None;
        assert born == born + MintIds(None) && multiset(outbox) == multiset(outbox) + MintEvents(None);
      }
      assert Snapshot().db == Opened(s, a, maxTtl).db;
      assert born == s.born + {a.id} + MintIds(mint);
      assert multiset(outbox) == s.audit + multiset{RequestCreated(a.id)} + MintEvents(mint);
    }

    method RequestAccess(a: Action) returns (out: Outcome)
      requires a.Open?
      requires a.id !in used && a.grantId !in used && a.id != a.grantId
      modifies this
      ensures var e := OpenError(old(Snapshot()).db, a, maxTtl);
        if e.Some? then out == Failed(e.value) && Snapshot() == old(Snapshot())
        else out == Fine && Snapshot() == Opened(old(Snapshot()), a, maxTtl)
    {
      if !a.eligible { return Failed(NotEligible); }
      if a.rule.None? { return Failed(NotRequestable); }
      if a.held { return Failed(AlreadyActive); }
      var row := NewRequest(a, a.rule.value, maxTtl);
      if row.granted <= 0 { return Failed(NotRequestable); }
      if a.role !in roles { return Failed(NoSuchRole); }
      if UserRef(a.requester) in gone { return Failed(NoSuchUser); }
      if AssetRef(a.asset) in gone { return Failed(NoSuchAsset); }
      if row.status == Pending && PendingTaken(requests, KeyOf(row)) { return Failed(DuplicatePending); }
      InsertRequest(a, row);
      out := Fine;
    }

    method RecordDenial(approver: Id, request: Id, env: Env)
      requires request in requests
      modifies this
      ensures Snapshot() == Voted(old(Snapshot()), approver, request, Deny, env)
    {
      ghost var s := Snapshot();
      votes := votes[Ballot(request, approver) := Deny];
      requests := requests[request := requests[request].(status := Denied)];
      decided := decided[request := {approver}];
      outbox := outbox + [RequestDenied(request, approver)];
      DeniedIs(s, approver, request, env);
      assert multiset(outbox) == s.audit + multiset{RequestDenied(request, approver)};
    }

    method RecordApproval(approver: Id, request: Id, env: Env)
      requires request in requests && requests[request].status == Pending
      modifies this
      ensures Snapshot() == Voted(old(Snapshot()), approver, request, Approve, env)
    {
      ghost var s := Snapshot();
      ghost var mint := VoteMint(s.db, approver, request, Approve, env);
      var row := requests[request];
      votes := votes[Ballot(request, approver) := Approve];
      var count := |Approvers(votes, request)|;
      outbox := outbox + [RequestApproved(request, approver)];
      assert multiset(outbox) == s.audit + multiset{RequestApproved(request, approver)};
      assert mint.Some? <==> count >= row.required;
      ApprovedIs(s, approver, request, env);
      if count >= row.required {
        MintGrant(Minted(env.id, Mint(request, row, env.now, VotedWindow(row.granted)), Approvers(votes, request)));
        decided := decided[request := Approvers(votes, request)];
        requests := requests[request := row.(status := Granted)];
        used := used + {env.id};
      } else {
        assert mint == None;
        assert multiset(outbox) == multiset(outbox) + MintEvents(None);
        assert requests == requests[request := row.(status := Pending)];
        assert born == s.born + MintIds(None) && used == s.used + MintIds(None);
      }
    }

    method Vote(approver: Id, request: Id, decision: Decision, env: Env) returns (out: Outcome)
      requires env.id !in used
      modifies this
      ensures var e := VoteError(old(Snapshot()).db, approver, request, decision, env);
        if e.Some? then out == Failed(e.value) && Snapshot() == old(Snapshot())
        else out == Fine && Snapshot() == Voted(old(Snapshot()), approver, request, decision, env)
    {
      if request !in requests { return Failed(NotPending); }
      var row := requests[request];
      if row.status != Pending { return Failed(NotPending); }
      if !env.isApprover { return Failed(NotApprover); }
      if approver == row.requester { return Failed(SelfApprove); }
      if decision == Approve && !env.isEligible { return Failed(RequesterIneligible); }
      if Ballot(request, approver) in votes { return Failed(AlreadyVoted); }
      if UserRef(approver) in gone { return Failed(NoSuchUser); }
      if decision == Deny { RecordDenial(approver, request, env); } else { RecordApproval(approver, request, env); }
      out := Fine;
    }

    method Cancel(user: Id, request: Id) returns (out: Outcome)
      modifies this
      ensures var e := CancelError(old(Snapshot()).db, user, request);
        if e.Some? then out == Failed(e.value) && Snapshot() == old(Snapshot())
        else out == Fine && Snapshot() == CommitCancel(old(Snapshot()), 0, request)
    {
      ghost var s := Snapshot();
      if request !in requests { return Failed(NotPending); }
      var row := requests[request];
      if row.requester != user { return Failed(NotRequester); }
      if row.status != Pending { return Failed(NotPending); }
      requests := requests[request := row.(status := Cancelled)];
      outbox := outbox + [RequestCancelled(request)];
      out := Fine;
      assert Snapshot() == CommitCancel(s, 0, request);
    }

    /** The audit loop over the rows an update returned. */
    method EnqueueEnded(rows: set<Id>, route: Route)
      modifies this`outbox
      ensures multiset(outbox) == old(multiset(outbox)) + multiset(EndEvents(route, rows))
    {
      var left := rows;
      while left != {}
        invariant left <= rows
        invariant multiset(outbox) == old(multiset(outbox)) + multiset(EndEvents(route, rows - left))
      {
        var g :| g in left;
        outbox := outbox + [GrantEnded(g, HowOf(route))];
        assert EndEvents(route, rows - (left - {g})) == EndEvents(route, rows - left) + {GrantEnded(g, HowOf(route))};
        assert GrantEnded(g, HowOf(route)) !in EndEvents(route, rows - left);
        left := left - {g};
      }
      assert rows - {} == rows;
    }

    /** The teardown loop after the commit. */
    method TerminateAll(rows: set<Id>)
      modifies this`calls
      ensures multiset(calls) == old(multiset(calls)) + multiset(rows)
    {
      var left := rows;
      while left != {}
        invariant left <= rows
        invariant multiset(calls) == old(multiset(calls)) + multiset(rows - left)
      {
        var g :| g in left;
        calls := calls + [g];
        assert rows - (left - {g}) == (rows - left) + {g};
        left := left - {g};
      }
      assert rows - {} == rows;
    }

    method RevokeGrant(grant: Id, env: Env) returns (out: Outcome)
      modifies this
      ensures var e := EndError(old(grants), One(grant), env);
        if e.Some? then out == Failed(e.value) && Snapshot() == old(Snapshot())
        else out == Fine && Snapshot() == Ended(old(Snapshot()), One(grant), env.now)
    {
      ghost var s := Snapshot();
      if grant !in grants { return Failed(GrantNotFound); }
      if !env.authorized { return Failed(RevokeForbidden); }
      if grants[grant].revoked {
        assert EndingRows(One(grant), grants, env.now) == {};
        return Failed(GrantInactive);
      }
      assert EndingRows(One(grant), grants, env.now) == {grant};
      grants := MarkRevoked(grants, {grant});
      EnqueueEnded({grant}, One(grant));
      TerminateAll({grant});
      out := Fine;
      assert Snapshot() == Ended(s, One(grant), env.now);
    }

    method RevokeGrantsForUser(user: Id, env: Env) returns (n: nat)
      modifies this
      ensures Snapshot() == Ended(old(Snapshot()), OfUser(user), env.now)
      ensures n == |EndingRows(OfUser(user), old(grants), env.now)|
    {
      ghost var s := Snapshot();
      var revoked := EndingRows(OfUser(user), grants, env.now);
      grants := MarkRevoked(grants, revoked);
      EnqueueEnded(revoked, OfUser(user));
      TerminateAll(revoked);
      n := |revoked|;
      assert Snapshot() == Ended(s, OfUser(user), env.now);
    }

    /** What the foreign keys take along when a role, user or asset row is deleted. */
    method DeleteCascade(ref: Ref)
      modifies this`requests, this`votes, this`grants, this`roles, this`gone
      ensures Snapshot() == old(Snapshot()).(db := Without(old(Snapshot()).db, ref))
    {
      votes := map b | b in votes && ref != UserRef(b.approver)
        && !(b.request in requests && OfRequest(ref, requests[b.request])) :: votes[b];
      requests := map r | r in requests && !OfRequest(ref, requests[r]) :: requests[r];
      grants := map g | g in grants && !OfGrant(ref, grants[g]) :: grants[g];
      if ref.RoleRef? { roles := roles - {ref.id}; } else { gone := gone + {ref}; }
    }

    /** A deleted user's requests and grants go with them, and their ballots on other requests. */
    method DeleteUser(user: Id)
      modifies this
      ensures Snapshot() == DeleteStep(old(Snapshot()), UserRef(user)).s
    {
      DeleteCascade(UserRef(user));
    }

    method DeleteAsset(asset: Id)
      modifies this
      ensures Snapshot() == DeleteStep(old(Snapshot()), AssetRef(asset)).s
    {
      DeleteCascade(AssetRef(asset));
    }

    method DeleteRoleCascade(role: Id, env: Env)
      modifies this
      ensures Snapshot() == Ended(old(Snapshot()), OfRole(role), env.now)
    {
      ghost var s := Snapshot();
      var revoked := EndingRows(OfRole(role), grants, env.now);
      grants := MarkRevoked(grants, revoked);
      EnqueueEnded(revoked, OfRole(role));
      DeleteCascade(RoleRef(role));
      TerminateAll(revoked);
      assert Snapshot() == Ended(s, OfRole(role), env.now);
    }

    method ReapExpired(env: Env) returns (n: nat)
      modifies this
      ensures Snapshot() == Ended(old(Snapshot()), Reaper, env.now)
      ensures n == |EndingRows(Reaper, old(grants), env.now)| && EndingRows(Reaper, grants, env.now) == {}
    {
      ghost var s := Snapshot();
      var expired := EndingRows(Reaper, grants, env.now);
      grants := MarkRevoked(grants, expired);
      EnqueueEnded(expired, Reaper);
      TerminateAll(expired);
      n := |expired|;
      assert Snapshot() == Ended(s, Reaper, env.now);
    }
  }
}
