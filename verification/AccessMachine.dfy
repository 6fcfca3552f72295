/** The just-in-time access workflow as a machine of interleaved transactions: requests, votes,
    cancellations, the four ways a grant ends, the teardown that follows a commit, and the deletion of
    users and assets with everything that refers to them.
    A transaction keeps its writes to itself until it commits, holds row locks and unique-index
    entries while it runs, and may roll back at any point. */
module AccessMachine {
  import opened Basics
  import opened Durations

  // ---- tables -----------------------------------------------------------------------------

  datatype Status = Pending | Granted | Denied | Cancelled
  datatype Decision = Approve | Deny

  /** An access_requests row. `granted` is the clamped duration its interval column encodes;
      `seconds` and `cap` are what it was clamped from. */
  datatype Request = Request(
    requester: Id, role: Id, asset: Id, seconds: int, cap: Interval, granted: int, required: nat, status: Status)

  datatype Ballot = Ballot(request: Id, approver: Id)

  datatype Grant = Grant(request: Id, role: Id, asset: Id, subject: Id, at: int, window: int, revoked: bool)

  type Requests = map<Id, Request>
  type Votes = map<Ballot, Decision>
  type Grants = map<Id, Grant>

  /** A row of another table that requests, ballots and grants refer to. */
  datatype Ref = RoleRef(id: Id) | UserRef(id: Id) | AssetRef(id: Id)

  /** `gone` holds the users and assets that were deleted; ids are never reused. `decided` is history no
      query reads: the voters whose ballots decided a granted or denied request. */
  datatype Tables = Tables(
    requests: Requests, votes: Votes, grants: Grants, roles: set<Id>, gone: set<Ref>, decided: map<Id, set<Id>>)

  datatype Key = Key(requester: Id, role: Id, asset: Id)

  function KeyOf(r: Request): Key { Key(r.requester, r.role, r.asset) }

  function Approvers(votes: Votes, r: Id): set<Id>
  {
    set b | b in votes && b.request == r && votes[b] == Approve :: b.approver
  }

  function GrantsOf(grants: Grants, r: Id): set<Id>
  {
    set g | g in grants && grants[g].request == r
  }

  /** The uq_pending_request index would refuse this key. */
  predicate PendingTaken(requests: Requests, k: Key)
  {
    exists r :: r in requests && requests[r].status == Pending && KeyOf(requests[r]) == k
  }

  // ---- audit rows -------------------------------------------------------------------------

  datatype How = Revoked | Expired

  datatype Event =
    | RequestCreated(id: Id)
    | RequestApproved(id: Id, approver: Id)
    | RequestDenied(id: Id, approver: Id)
    | RequestCancelled(id: Id)
    | GrantActivated(id: Id)
    | GrantEnded(id: Id, how: How)

  // ---- transactions -----------------------------------------------------------------------

  /** A grant about to be inserted, and the approvers counted for it. */
  datatype Minted = Minted(id: Id, grant: Grant, counted: set<Id>)

  /** The ways grants end: one by id, a user's, a role's with the role itself, and the reaper. */
  datatype Route = One(grant: Id) | OfUser(user: Id) | OfRole(role: Id) | Reaper

  datatype Txn =
    | VoteBegun(approver: Id, request: Id, decision: Decision)
    | VoteLocked(approver: Id, request: Id, decision: Decision)
    | VoteChecked(approver: Id, request: Id, decision: Decision)
    | VoteCast(approver: Id, request: Id, decision: Decision)
    | VoteResolved(approver: Id, request: Id, decision: Decision, mint: Option<Minted>)
    | CancelBegun(user: Id, request: Id)
    | CancelLocked(user: Id, request: Id)
    | CancelSet(user: Id, request: Id)
    | OpenInserted(id: Id, row: Request, mint: Option<Minted>)
    | EndBegun(route: Route)
    | EndUpdated(route: Route, rows: set<Id>)
    | Tearing(rows: set<Id>)

  /** What a running transaction has to itself: locked rows, a pending-index entry, new ids, and the
      teardown calls it still owes. */
  datatype Claim = RequestRow(r: Id) | GrantRow(g: Id) | PendingKey(k: Key) | NewId(id: Id) | Teardown(g: Id)

  function MintClaim(mint: Option<Minted>): set<Claim>
  {
    match mint case None => {} case Some(m) => {NewId(m.id)}
  }

  function Claims(t: Txn): set<Claim>
  {
    match t
    case VoteBegun(_, _, _) => {}
    case VoteLocked(_, r, _) => {RequestRow(r)}
    case VoteChecked(_, r, _) => {RequestRow(r)}
    case VoteCast(_, r, _) => {RequestRow(r)}
    case VoteResolved(_, r, _, mint) => {RequestRow(r)} + MintClaim(mint)
    case CancelBegun(_, _) => {}
    case CancelLocked(_, r) => {RequestRow(r)}
    case CancelSet(_, r) => {RequestRow(r)}
    case OpenInserted(id, row, mint) =>
      {NewId(id)} + MintClaim(mint) + (if row.status == Pending then {PendingKey(KeyOf(row))} else {})
    case EndBegun(_) => {}
    case EndUpdated(_, rows) => set g | g in rows :: GrantRow(g)
    case Tearing(rows) => set g | g in rows :: Teardown(g)
  }

  type Txns = map<Id, Txn>

  /** `used` holds every id ever drawn, `born` every id ever committed; `torn` counts calls to the
      session terminator. */
  datatype State = State(
    db: Tables, txns: Txns, used: set<Id>, born: set<Id>, audit: multiset<Event>, torn: multiset<Id>)

  datatype Error =
    | NotEligible | NotRequestable | AlreadyActive | DuplicatePending | NotPending | NotApprover
    | RequesterIneligible | SelfApprove | AlreadyVoted | NotRequester | GrantNotFound | RevokeForbidden
    | GrantInactive | NoSuchRole | NoSuchUser | NoSuchAsset

  datatype Outcome = Fine | Blocked | Failed(error: Error)
  datatype Result = Result(s: State, out: Outcome)

  datatype Rule = Rule(required: nat, cap: Interval)

  /** What a step learns from outside: governance answers, the clock, a fresh id, which session to
      tear down next. */
  datatype Env = Env(isApprover: bool, isEligible: bool, authorized: bool, now: int, id: Id, next: Id)

  datatype Action =
    | AddRole(role: Id)
    | BeginVote(tid: Id, approver: Id, request: Id, decision: Decision)
    | BeginCancel(tid: Id, user: Id, request: Id)
    | BeginEnd(tid: Id, route: Route)
    | Open(tid: Id, requester: Id, role: Id, asset: Id, seconds: int, eligible: bool, rule: Option<Rule>, held: bool,
           id: Id, grantId: Id, now: int)
    | Advance(tid: Id, env: Env)
    | Rollback(tid: Id)
    | DeleteUser(user: Id)
    | DeleteAsset(target: Id)

  /** Another transaction holds one of these. */
  ghost predicate Contended(txns: Txns, tid: Id, want: set<Claim>)
  {
    exists t :: t in txns && t != tid && !(Claims(txns[t]) !! want)
  }

  function Put(s: State, tid: Id, t: Txn): State { s.(txns := s.txns[tid := t]) }
  function Drop(s: State, tid: Id): State { s.(txns := s.txns - {tid}) }
  function Fail(s: State, tid: Id, e: Error): Result { Result(Drop(s, tid), Failed(e)) }

  // ---- opening a request --------------------------------------------------------------------

  function Mint(r: Id, row: Request, now: int, window: int): Grant
  {
    Grant(r, row.role, row.asset, row.requester, now, window, false)
  }

  function NewRequest(a: Action, rule: Rule, maxTtl: int): Request
    requires a.Open?
  {
    Request(a.requester, a.role, a.asset, a.seconds, rule.cap, Clamp(RequestedDuration(a.seconds), rule.cap, maxTtl),
            rule.required, if rule.required == 0 then Granted else Pending)
  }

  /** The foreign keys of a new request. */
  function MissingRef(db: Tables, row: Request): Option<Error>
  {
    if row.role !in db.roles then Some(NoSuchRole)
    else if UserRef(row.requester) in db.gone then Some(NoSuchUser)
    else if AssetRef(row.asset) in db.gone then Some(NoSuchAsset)
    else None
  }

  /** RequestAccess up to its commit. */
  ghost function OpenStep(s: State, a: Action, maxTtl: int): Result
    requires a.Open?
  {
    if a.tid in s.txns || a.id in s.used || a.grantId in s.used || a.id == a.grantId then Result(s, Blocked)
    else if !a.eligible then Result(s, Failed(NotEligible))
    else if a.rule.None? then Result(s, Failed(NotRequestable))
    else if a.held then Result(s, Failed(AlreadyActive))
    else
      var row := NewRequest(a, a.rule.value, maxTtl);
      if row.granted <= 0 then Result(s, Failed(NotRequestable))
      else if MissingRef(s.db, row).Some? then Result(s, Failed(MissingRef(s.db, row).value))
      else if row.status == Pending && PendingTaken(s.db.requests, KeyOf(row)) then Result(s, Failed(DuplicatePending))
      else if row.status == Pending && Contended(s.txns, a.tid, {PendingKey(KeyOf(row))}) then Result(s, Blocked)
      else
        var minted := Minted(a.grantId, Mint(a.id, row, a.now, row.granted), {});
        var mint := if row.status == Granted then Some(minted) else None;
        Result(Put(s.(used := s.used + {a.id, a.grantId}), a.tid, OpenInserted(a.id, row, mint)), Fine)
  }

  // ---- voting ---------------------------------------------------------------------------------

  ghost function LockRequest(s: State, tid: Id, r: Id, next: Txn): Result
  {
    if r !in s.db.requests then Fail(s, tid, NotPending)
    else if Contended(s.txns, tid, {RequestRow(r)}) then Result(s, Blocked)
    else Result(Put(s, tid, next), Fine)
  }

  /** The checks after the row lock, in order. */
  function VoteCheck(row: Request, approver: Id, decision: Decision, env: Env): Option<Error>
  {
    if row.status != Pending then Some(NotPending)
    else if !env.isApprover then Some(NotApprover)
    else if approver == row.requester then Some(SelfApprove)
    else if decision == Approve && !env.isEligible then Some(RequesterIneligible)
    else None
  }

  /** The approvers counted by a vote, its own row being visible to the count. */
  function CountedWith(votes: Votes, r: Id, approver: Id): set<Id>
  {
    Approvers(votes[Ballot(r, approver) := Approve], r)
  }

  /** The vote being cast reaches the threshold. */
  predicate Reaches(db: Tables, r: Id, approver: Id, decision: Decision)
    requires r in db.requests
  {
    decision == Approve && |CountedWith(db.votes, r, approver)| >= db.requests[r].required
  }

  function ResolveVote(s: State, tid: Id, t: Txn, env: Env): Result
    requires t.VoteCast? && t.request in s.db.requests
  {
    if !Reaches(s.db, t.request, t.approver, t.decision) then
      Result(Put(s, tid, VoteResolved(t.approver, t.request, t.decision, None)), Fine)
    else if env.id in s.used then Result(s, Blocked)
    else
      var row := s.db.requests[t.request];
      var m := Minted(env.id, Mint(t.request, row, env.now, VotedWindow(row.granted)),
                      CountedWith(s.db.votes, t.request, t.approver));
      Result(Put(s.(used := s.used + {env.id}), tid, VoteResolved(t.approver, t.request, t.decision, Some(m))), Fine)
  }

  function AddMint(grants: Grants, mint: Option<Minted>): Grants
  {
    match mint case None => grants case Some(m) => grants[m.id := m.grant]
  }

  function MintEvents(mint: Option<Minted>): multiset<Event>
  {
    match mint case None => multiset{} case Some(m) => multiset{GrantActivated(m.id)}
  }

  function MintIds(mint: Option<Minted>): set<Id>
  {
    match mint case None => {} case Some(m) => {m.id}
  }

  function VoteStatus(t: Txn): Status
    requires t.VoteResolved?
  {
    if t.decision == Deny then Denied else if t.mint.Some? then Granted else Pending
  }

  function VoteDecided(decided: map<Id, set<Id>>, t: Txn): map<Id, set<Id>>
    requires t.VoteResolved?
  {
    if t.decision == Deny then decided[t.request := {t.approver}]
    else if t.mint.Some? then decided[t.request := t.mint.value.counted]
    else decided
  }

  function VotedDb(db: Tables, t: Txn): Tables
    requires t.VoteResolved? && t.request in db.requests
  {
    db.(requests := db.requests[t.request := db.requests[t.request].(status := VoteStatus(t))],
        votes := db.votes[Ballot(t.request, t.approver) := t.decision],
        grants := AddMint(db.grants, t.mint),
        decided := VoteDecided(db.decided, t))
  }

  function VoteEvent(t: Txn): Event
    requires t.VoteResolved?
  {
    if t.decision == Deny then RequestDenied(t.request, t.approver) else RequestApproved(t.request, t.approver)
  }

  function CommitVote(s: State, tid: Id, t: Txn): State
    requires t.VoteResolved? && t.request in s.db.requests
  {
    Drop(s, tid).(db := VotedDb(s.db, t), born := s.born + MintIds(t.mint),
                  audit := s.audit + multiset{VoteEvent(t)} + MintEvents(t.mint))
  }

  function CancelledDb(db: Tables, r: Id): Tables
    requires r in db.requests
  {
    db.(requests := db.requests[r := db.requests[r].(status := Cancelled)])
  }

  function CommitCancel(s: State, tid: Id, r: Id): State
    requires r in s.db.requests
  {
    Drop(s, tid).(db := CancelledDb(s.db, r), audit := s.audit + multiset{RequestCancelled(r)})
  }

  function OpenedDb(db: Tables, t: Txn): Tables
    requires t.OpenInserted?
  {
    db.(requests := db.requests[t.id := t.row], grants := AddMint(db.grants, t.mint),
        decided := if t.mint.Some? then db.decided[t.id := t.mint.value.counted] else db.decided)
  }

  function CommitOpen(s: State, tid: Id, t: Txn): State
    requires t.OpenInserted?
  {
    Drop(s, tid).(db := OpenedDb(s.db, t), born := s.born + {t.id} + MintIds(t.mint),
                  audit := s.audit + multiset{RequestCreated(t.id)} + MintEvents(t.mint))
  }

  // ---- ending grants --------------------------------------------------------------------------

  /** The WHERE clauses of the four updates. */
  predicate Ends(route: Route, id: Id, g: Grant, now: int)
  {
    && !g.revoked
    && match route
       case One(i) => id == i
       case OfUser(u) => g.subject == u
       case OfRole(r) => g.role == r && g.at + g.window > now
       case Reaper => g.at + g.window <= now
  }

  function EndingRows(route: Route, grants: Grants, now: int): set<Id>
  {
    set g | g in grants && Ends(route, g, grants[g], now)
  }

  function GrantRows(rows: set<Id>): set<Claim> { set g | g in rows :: GrantRow(g) }

  ghost function UpdateEnding(s: State, tid: Id, route: Route, env: Env): Result
  {
    if route.One? && route.grant !in s.db.grants then Fail(s, tid, GrantNotFound)
    else if route.One? && !env.authorized then Fail(s, tid, RevokeForbidden)
    else
      var rows := EndingRows(route, s.db.grants, env.now);
      if Contended(s.txns, tid, if route.One? then {GrantRow(route.grant)} else GrantRows(rows)) then Result(s, Blocked)
      else if route.One? && rows == {} then Fail(s, tid, GrantInactive)
      else Result(Put(s, tid, EndUpdated(route, rows)), Fine)
  }

  function HowOf(route: Route): How { if route.Reaper? then Expired else Revoked }

  function EndEvents(route: Route, rows: set<Id>): set<Event>
  {
    set g | g in rows :: GrantEnded(g, HowOf(route))
  }

  function MarkRevoked(grants: Grants, rows: set<Id>): Grants
  {
    map g | g in grants :: if g in rows then grants[g].(revoked := true) else grants[g]
  }

  // ---- foreign-key cascades -----------------------------------------------------------------------

  predicate Refers(ref: Ref, user: Id, role: Id, asset: Id)
  {
    match ref case RoleRef(i) => role == i case UserRef(i) => user == i case AssetRef(i) => asset == i
  }

  predicate OfRequest(ref: Ref, row: Request) { Refers(ref, row.requester, row.role, row.asset) }
  predicate OfGrant(ref: Ref, g: Grant) { Refers(ref, g.subject, g.role, g.asset) }

  /** What the deletion of a role, user or asset removes. A user's ballots on other requests go too. */
  function Without(db: Tables, ref: Ref): Tables
  {
    Tables(map r | r in db.requests && !OfRequest(ref, db.requests[r]) :: db.requests[r],
           map b | b in db.votes && ref != UserRef(b.approver)
             && !(b.request in db.requests && OfRequest(ref, db.requests[b.request])) :: db.votes[b],
           map g | g in db.grants && !OfGrant(ref, db.grants[g]) :: db.grants[g],
           if ref.RoleRef? then db.roles - {ref.id} else db.roles,
           if ref.RoleRef? then db.gone else db.gone + {ref},
           db.decided)
  }

  /** A running transaction other than these holds a row the deletion must remove, or is inserting one
      that refers to it. */
  ghost predicate Held(s: State, ref: Ref, but: set<Id>)
  {
    exists t :: t in s.txns && t !in but && Touches(s.db, s.txns[t], ref)
  }

  ghost predicate Touches(db: Tables, t: Txn, ref: Ref)
  {
    || (exists r :: RequestRow(r) in Claims(t) && r in db.requests && OfRequest(ref, db.requests[r]))
    || (exists g :: GrantRow(g) in Claims(t) && g in db.grants && OfGrant(ref, db.grants[g]))
    || (t.OpenInserted? && OfRequest(ref, t.row))
    || ((t.VoteCast? || t.VoteResolved?) && ref == UserRef(t.approver))
  }

  /** DELETE of a user or an asset, a transaction of its own. */
  ghost function DeleteStep(s: State, ref: Ref): Result
  {
    if Held(s, ref, {}) then Result(s, Blocked) else Result(s.(db := Without(s.db, ref)), Fine)
  }

  function EndedDb(db: Tables, route: Route, rows: set<Id>): Tables
  {
    var ended := db.(grants := MarkRevoked(db.grants, rows));
    if route.OfRole? then Without(ended, RoleRef(route.role)) else ended
  }

  function CommitEnd(s: State, tid: Id, route: Route, rows: set<Id>): State
  {
    Put(s.(db := EndedDb(s.db, route, rows), audit := s.audit + multiset(EndEvents(route, rows))), tid, Tearing(rows))
  }

  ghost function EndStep(s: State, tid: Id, route: Route, rows: set<Id>): Result
  {
    if route.OfRole? && Held(s, RoleRef(route.role), {tid}) then Result(s, Blocked)
    else Result(CommitEnd(s, tid, route, rows), Fine)
  }

  /** One terminator call, after the commit. */
  function TearStep(s: State, tid: Id, rows: set<Id>, next: Id): Result
  {
    if rows == {} then Result(Drop(s, tid), Fine)
    else if next !in rows then Result(s, Blocked)
    else Result(Put(s.(torn := s.torn + multiset{next}), tid, Tearing(rows - {next})), Fine)
  }

  // ---- one step and runs ------------------------------------------------------------------------

  function CheckVoteStep(s: State, tid: Id, a: Id, r: Id, d: Decision, env: Env): Result
  {
    if r !in s.db.requests then Fail(s, tid, NotPending)
    else
      var e := VoteCheck(s.db.requests[r], a, d, env);
      if e.Some? then Fail(s, tid, e.value) else Result(Put(s, tid, VoteChecked(a, r, d)), Fine)
  }

  /** Why the ballot cannot be inserted. */
  function CastError(db: Tables, a: Id, r: Id): Option<Error>
  {
    if Ballot(r, a) in db.votes then Some(AlreadyVoted)
    else if UserRef(a) in db.gone then Some(NoSuchUser)
    else None
  }

  function CastStep(s: State, tid: Id, a: Id, r: Id, d: Decision): Result
  {
    var e := CastError(s.db, a, r);
    if e.Some? then Fail(s, tid, e.value) else Result(Put(s, tid, VoteCast(a, r, d)), Fine)
  }

  function CheckCancelStep(s: State, tid: Id, u: Id, r: Id): Result
  {
    if r !in s.db.requests then Fail(s, tid, NotPending)
    else if s.db.requests[r].requester != u then Fail(s, tid, NotRequester)
    else if s.db.requests[r].status != Pending then Fail(s, tid, NotPending)
    else Result(Put(s, tid, CancelSet(u, r)), Fine)
  }

  ghost function AdvanceStep(s: State, tid: Id, env: Env): Result
    requires tid in s.txns
  {
    var t := s.txns[tid];
    match t
    case VoteBegun(a, r, d) => LockRequest(s, tid, r, VoteLocked(a, r, d))
    case VoteLocked(a, r, d) => CheckVoteStep(s, tid, a, r, d, env)
    case VoteChecked(a, r, d) => CastStep(s, tid, a, r, d)
    case VoteCast(a, r, d) => if r !in s.db.requests then Fail(s, tid, NotPending) else ResolveVote(s, tid, t, env)
    case VoteResolved(a, r, d, m) =>
      if r !in s.db.requests then Fail(s, tid, NotPending) else Result(CommitVote(s, tid, t), Fine)
    case CancelBegun(u, r) => LockRequest(s, tid, r, CancelLocked(u, r))
    case CancelLocked(u, r) => CheckCancelStep(s, tid, u, r)
    case CancelSet(u, r) =>
      if r !in s.db.requests then Fail(s, tid, NotPending) else Result(CommitCancel(s, tid, r), Fine)
    case OpenInserted(_, _, _) => Result(CommitOpen(s, tid, t), Fine)
    case EndBegun(route) => UpdateEnding(s, tid, route, env)
    case EndUpdated(route, rows) => EndStep(s, tid, route, rows)
    case Tearing(rows) => TearStep(s, tid, rows, env.next)
  }

  function Begin(s: State, tid: Id, t: Txn): Result
  {
    if tid in s.txns then Result(s, Blocked) else Result(Put(s, tid, t), Fine)
  }

  ghost function Step(s: State, a: Action, maxTtl: int): Result
  {
    match a
    case AddRole(role) => Result(s.(db := s.db.(roles := s.db.roles + {role})), Fine)
    case BeginVote(tid, u, r, d) => Begin(s, tid, VoteBegun(u, r, d))
    case BeginCancel(tid, u, r) => Begin(s, tid, CancelBegun(u, r))
    case BeginEnd(tid, route) => Begin(s, tid, EndBegun(route))
    case Open(_, _, _, _, _, _, _, _, _, _, _) => OpenStep(s, a, maxTtl)
    case Advance(tid, env) => if tid in s.txns then AdvanceStep(s, tid, env) else Result(s, Blocked)
    case Rollback(tid) => Result(Drop(s, tid), Fine)
    case DeleteUser(user) => DeleteStep(s, UserRef(user))
    case DeleteAsset(target) => DeleteStep(s, AssetRef(target))
  }

  ghost function Run(s: State, actions: seq<Action>, maxTtl: int): State
    decreases |actions|
  {
    if actions == [] then s else Run(Step(s, actions[0], maxTtl).s, actions[1..], maxTtl)
  }

  const START := State(Tables(map[], map[], map[], {}, {}, map[]), map[], {}, {}, multiset{}, multiset{})
}
