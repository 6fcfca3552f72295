/** Delegation: users bind roles to one another, write request policies and add role rewrites under
    the no-escalation rule, in any order and number, on a fixed catalog tree. */
module Delegation {
  import opened Basics
  import opened Capabilities
  import opened Forest
  import opened Ltree
  import opened Catalog
  import opened RoleClosure

  datatype Role = Role(home: Option<Id>, caps: seq<string>)

  /** The roles; neither their homes nor their capability patterns ever change. */
  type Roles = map<Id, Role>

  function HomesOf(roles: Roles): Homes { map r | r in roles :: roles[r].home }

  function HomeObj(r: Role): Obj { match r.home case None => NoObject case Some(f) => FolderObj(f) }

  /** The rows the authorization queries read, the request policies, and the requests waiting for
      approval. */
  datatype State = State(facts: Facts, policies: map<Id, PolicyRow>, pending: set<JitGrant>)

  // ---- who holds which capability where -----------------------------------------------------

  /** The folder a place sits in. */
  function NodeOf(t: Tree, p: Obj): Option<Id>
  {
    match p
    case FolderObj(f) => Some(f)
    case AssetObj(a) => if a in t.assets then Some(t.assets[a].folder) else None
    case NoObject => None
  }

  /** What is held on o counts at p: it is held globally, on that very asset, or on a folder at or
      above the place. */
  ghost predicate InForce(t: Tree, o: Obj, p: Obj)
  {
    match o
    case NoObject => true
    case AssetObj(_) => o == p
    case FolderObj(f) => NodeOf(t, p).Some? && f in Ancestors(ParentsOf(t.folders), NodeOf(t, p).value)
  }

  ghost predicate HoldsAt(f: Facts, user: Id, role: Id, p: Obj)
  {
    || GloballyHolds(f, user, role)
    || exists o :: o != NoObject && InForce(f.tree, o, p) && Holds(f, user, true, Goal(role, o))
  }

  predicate HasCap(roles: Roles, role: Id, pattern: string)
  {
    role in roles && pattern in roles[role].caps
  }

  ghost predicate HeldPattern(roles: Roles, f: Facts, user: Id, p: Obj, pattern: string)
  {
    exists r :: HasCap(roles, r, pattern) && HoldsAt(f, user, r, p)
  }

  /** The path test of the folder arm: path_ids @> path_ids. */
  predicate PathInForce(t: Tree, o: Obj, p: Obj)
  {
    match o
    case NoObject => false
    case AssetObj(_) => o == p
    case FolderObj(f) =>
      && f in t.folders && NodeOf(t, p).Some? && NodeOf(t, p).value in t.folders
      && t.folders[f].path <= t.folders[NodeOf(t, p).value].path
  }

  lemma PathTestIs(t: Tree, o: Obj, p: Obj)
    requires ForestOk(t.folders) && o != NoObject
    ensures PathInForce(t, o, p) <==> InForce(t, o, p)
  {
    if o.FolderObj? && NodeOf(t, p).Some? {
      var parents, paths, node := ParentsOf(t.folders), PathsOf(t.folders), NodeOf(t, p).value;
      ReachesIn(parents, node, o.id);
      if o.id in t.folders && node in t.folders { PrefixDecidesSubtree(parents, paths, node, o.id); }
      if Reaches(parents, node, o.id) {
        var n: nat :| Up(parents, node, n) == Some(o.id);
        UpIn(parents, node, n);
      }
    }
  }

  /** CapabilitiesOnScope: the patterns of every role held globally or on an object in force. */
  method CapabilitiesOnScope(roles: Roles, f: Facts, user: Id, p: Obj) returns (patterns: set<string>)
    requires ForestOk(f.tree.folders)
    ensures forall c :: c in patterns <==> HeldPattern(roles, f, user, p, c)
  {
    var everywhere := GlobalHeld(f, user);
    var held := Held(f, user, true);
    var here := set g | g in held && PathInForce(f.tree, g.obj, p) :: g.role;
    forall r ensures r in everywhere + here <==> HoldsAt(f, user, r, p) {
      forall g: Goal | g.obj != NoObject ensures PathInForce(f.tree, g.obj, p) <==> InForce(f.tree, g.obj, p) {
        PathTestIs(f.tree, g.obj, p);
      }
      forall o | o != NoObject && InForce(f.tree, o, p) && Holds(f, user, true, Goal(r, o)) ensures r in here {
        assert Goal(r, o) in held && Goal(r, o).role == r;
      }
    }
    patterns := set r, c | r in everywhere + here && r in roles && c in roles[r].caps :: c;
    forall c | HeldPattern(roles, f, user, p, c) ensures c in patterns {
      var r :| HasCap(roles, r, c) && HoldsAt(f, user, r, p);
      assert r in everywhere + here;
    }
  }

  /** The caller holds, at the place, a pattern covering each of these. */
  ghost predicate Grantable(roles: Roles, f: Facts, caller: Id, caps: seq<string>, p: Obj)
  {
    forall i :: 0 <= i < |caps| ==> Vouches(roles, f, caller, caps[i], p)
  }

  ghost predicate Vouches(roles: Roles, f: Facts, caller: Id, pattern: string, p: Obj)
  {
    exists h :: HeldPattern(roles, f, caller, p, h) && Covers1(h, pattern)
  }

  predicate CoveredBy(held: set<string>, pattern: string) { exists h :: h in held && Covers1(h, pattern) }

  lemma GrantableIs(roles: Roles, f: Facts, caller: Id, caps: seq<string>, p: Obj, held: set<string>)
    requires forall c :: c in held <==> HeldPattern(roles, f, caller, p, c)
    ensures Grantable(roles, f, caller, caps, p) <==> forall i :: 0 <= i < |caps| ==> CoveredBy(held, caps[i])
  {
    forall i | 0 <= i < |caps| ensures Vouches(roles, f, caller, caps[i], p) <==> CoveredBy(held, caps[i]) {}
  }

  method CoversAll(held: set<string>, caps: seq<string>) returns (ok: bool)
    ensures ok <==> forall i :: 0 <= i < |caps| ==> CoveredBy(held, caps[i])
  {
    for i := 0 to |caps|
      invariant forall j :: 0 <= j < i ==> CoveredBy(held, caps[j])
    {
      if !CoveredBy(held, caps[i]) {
        return false;
      }
    }
    return true;
  }

  method RequireGrantable(roles: Roles, f: Facts, caller: Id, caps: seq<string>, p: Obj) returns (ok: bool)
    requires ForestOk(f.tree.folders)
    ensures ok <==> Grantable(roles, f, caller, caps, p)
  {
    var held := CapabilitiesOnScope(roles, f, caller, p);
    ok := CoversAll(held, caps);
    GrantableIs(roles, f, caller, caps, p, held);
  }

  // ---- delegations --------------------------------------------------------------------------

  datatype Op =
    | Bind(caller: Id, id: Id, binding: BindingRow)
    | Unbind(id: Id)
    | AddPolicy(caller: Id, id: Id, policy: PolicyRow)
    | RemovePolicy(id: Id)
    | AddRewrite(caller: Id, edge: RoleGrant)
    | RemoveRewrite(edge: RoleGrant)
    | Ask(grant: JitGrant)
    | Withdraw(grant: JitGrant)
    | Mint(grant: JitGrant)
    | End(grant: JitGrant)
    | SetMembers(members: set<Membership>)
    | SetActive(active: set<Id>)

  /** One binding or policy may be written: the guard, then containment and the foreign keys. */
  ghost predicate MayWrite(roles: Roles, f: Facts, caller: Id, role: Id, s: Scope)
  {
    && role in roles && Grantable(roles, f, caller, roles[role].caps, ObjOf(s))
    && Contained(f.tree, HomesOf(roles), role, s) && ScopeOk(f.tree, s)
  }

  /** AddRoleGrant vouches for the recipient role at the recipient role's own home. */
  ghost predicate MayRewrite(roles: Roles, f: Facts, caller: Id, e: RoleGrant)
  {
    && e.role in roles && Grantable(roles, f, caller, roles[e.role].caps, HomeObj(roles[e.role]))
    && !(e.via == SameObject && e.role == e.source) && e.source in roles
  }

  /** Some policy for the role applies to the asset. */
  ghost predicate Requestable(st: State, g: JitGrant)
  {
    exists q :: q in st.policies && st.policies[q].role == g.role
      && InForce(st.facts.tree, ObjOf(st.policies[q].scope), AssetObj(g.asset))
  }

  ghost predicate Accepted(roles: Roles, st: State, op: Op)
  {
    match op
    case Bind(caller, id, row) => id !in st.facts.bindings && MayWrite(roles, st.facts, caller, row.role, row.scope)
    case AddPolicy(caller, id, row) => id !in st.policies && MayWrite(roles, st.facts, caller, row.role, row.scope)
    case AddRewrite(caller, e) => e !in st.facts.rewrites && MayRewrite(roles, st.facts, caller, e)
    case Ask(g) => Requestable(st, g)
    case Mint(g) => g in st.pending
    case _ => true
  }

  function Write(st: State, op: Op): State
  {
    var f := st.facts;
    match op
    case Bind(_, id, row) => st.(facts := f.(bindings := f.bindings[id := row]))
    case Unbind(id) => st.(facts := f.(bindings := f.bindings - {id}))
    case AddPolicy(_, id, row) => st.(policies := st.policies[id := row])
    case RemovePolicy(id) => st.(policies := st.policies - {id})
    case AddRewrite(_, e) => st.(facts := f.(rewrites := f.rewrites + {e}))
    case RemoveRewrite(e) => st.(facts := f.(rewrites := f.rewrites - {e}))
    case Ask(g) => st.(pending := st.pending + {g})
    case Withdraw(g) => st.(pending := st.pending - {g})
    case Mint(g) => st.(facts := f.(jit := f.jit + {g}), pending := st.pending - {g})
    case End(g) => st.(facts := f.(jit := f.jit - {g}))
    case SetMembers(members) => st.(facts := f.(members := members))
    case SetActive(active) => st.(facts := f.(active := active))
  }

  /** What is taken back is gone, and only that. */
  lemma RemovalsExactly(roles: Roles, st: State, id: Id, e: RoleGrant, g: JitGrant)
    ensures Step(roles, st, Unbind(id)) == st.(facts := st.facts.(bindings := st.facts.bindings - {id}))
    ensures Step(roles, st, RemovePolicy(id)) == st.(policies := st.policies - {id})
    ensures Step(roles, st, RemoveRewrite(e)) == st.(facts := st.facts.(rewrites := st.facts.rewrites - {e}))
    ensures Step(roles, st, Withdraw(g)) == st.(pending := st.pending - {g})
    ensures Step(roles, st, End(g)) == st.(facts := st.facts.(jit := st.facts.jit - {g}))
  {
  }

  ghost function Step(roles: Roles, st: State, op: Op): State
  {
    if Accepted(roles, st, op) then Write(st, op) else st
  }

  ghost function Run(roles: Roles, st: State, ops: seq<Op>): State
    decreases |ops|
  {
    if ops == [] then st else Run(roles, Step(roles, st, ops[0]), ops[1..])
  }

  // ---- authority ----------------------------------------------------------------------------

  /** What a role held on an object confers in one rewrite; a globally held role confers globally. */
  function ConferStep(t: Tree, grants: set<RoleGrant>, h: Goal): set<Goal>
  {
    if h.obj == NoObject then set e | e in grants && e.source == h.role :: Goal(e.role, NoObject)
    else HeldStep(t, grants, h)
  }

  function Onward(f: Facts): Goal -> set<Goal> { h => ConferStep(f.tree, f.rewrites, h) }

  function BindingGoals(bindings: map<Id, BindingRow>): set<Goal>
  {
    set b | b in bindings :: Goal(bindings[b].role, ObjOf(bindings[b].scope))
  }

  function PolicyGoals(policies: map<Id, PolicyRow>): set<Goal>
  {
    set q | q in policies :: Goal(policies[q].role, ObjOf(policies[q].scope))
  }

  function GrantGoals(grants: set<JitGrant>): set<Goal>
  {
    set g | g in grants :: Goal(g.role, AssetObj(g.asset))
  }

  /** Every role-and-object pair some row gives out or lets be requested, whoever it names. */
  function Entries(st: State): set<Goal>
  {
    BindingGoals(st.facts.bindings) + PolicyGoals(st.policies) + GrantGoals(st.pending) + GrantGoals(st.facts.jit)
  }

  ghost predicate Reached(st: State, g: Goal)
  {
    FromSet(Onward(st.facts), Entries(st), g)
  }

  /** Holding g gives this pattern at p. */
  ghost predicate Gives(roles: Roles, t: Tree, g: Goal, p: Obj, pattern: string)
  {
    InForce(t, g.obj, p) && HasCap(roles, g.role, pattern)
  }

  /** The pattern is handed out at p. */
  ghost predicate Authority(roles: Roles, st: State, p: Obj, pattern: string)
  {
    exists g :: Reached(st, g) && Gives(roles, st.facts.tree, g, p, pattern)
  }

  /** A pattern handed out at p is this one or covers it. */
  ghost predicate Backed(roles: Roles, st: State, p: Obj, pattern: string)
  {
    exists root :: Authority(roles, st, p, root) && (root == pattern || Covers1(root, pattern))
  }

  /** Nothing is handed out in st' that was not in st. */
  ghost predicate AllBacked(roles: Roles, st: State, st': State)
  {
    forall p, c :: Authority(roles, st', p, c) ==> Backed(roles, st, p, c)
  }

  /** Everything holding h gives under the rewrites of f, everywhere it is in force, is backed. */
  ghost predicate ClosureBacked(roles: Roles, st: State, f: Facts, h: Goal)
  {
    forall g, p, c :: Path(Onward(f), h, g) && Gives(roles, f.tree, g, p, c) ==> Backed(roles, st, p, c)
  }

  /** The rewrite confers g from h, which is already given out. */
  ghost predicate Newly(st: State, e: RoleGrant, h: Goal, g: Goal)
  {
    Reached(st, h) && g in ConferStep(st.facts.tree, {e}, h)
  }

  /** What the guard would have to check: the whole rewrite closure of the bound role at its scope,
      and of what an added rewrite newly confers wherever its source is conferred. */
  ghost predicate Vouched(roles: Roles, st: State, op: Op)
  {
    match op
    case Bind(_, _, row) => ClosureBacked(roles, st, st.facts, Goal(row.role, ObjOf(row.scope)))
    case AddPolicy(_, _, row) => ClosureBacked(roles, st, st.facts, Goal(row.role, ObjOf(row.scope)))
    case AddRewrite(_, e) =>
      forall h, g :: Newly(st, e, h, g) ==> ClosureBacked(roles, st, Write(st, op).facts, g)
    case _ => true
  }

  // ---- paths --------------------------------------------------------------------------------

  lemma {:induction false} PathJoin<T(!new)>(next: T -> set<T>, s: T, m: T, g: T, i: nat, j: nat)
    requires PathN(next, s, m, i) && PathN(next, m, g, j)
    ensures PathN(next, s, g, i + j)
    decreases i
  {
    if i > 0 {
      var x :| x in next(s) && PathN(next, x, m, i - 1);
      PathJoin(next, x, m, g, i - 1, j);
    }
  }

  /** Every edge out of a kept node leads to a kept one and has an image. */
  ghost predicate Simulates<T(!new)>(next: T -> set<T>, kept: T -> bool, image: T -> T)
  {
    forall x, y :: kept(x) && y in next(x) ==> kept(y) && image(y) in next(image(x))
  }

  lemma {:induction false} PathImage<T(!new)>(next: T -> set<T>, kept: T -> bool, image: T -> T, s: T, g: T, n: nat)
    requires Simulates(next, kept, image) && kept(s) && PathN(next, s, g, n)
    ensures kept(g) && PathN(next, image(s), image(g), n)
    decreases n
  {
    if n > 0 {
      var m :| m in next(s) && PathN(next, m, g, n - 1);
      PathImage(next, kept, image, m, g, n - 1);
      assert image(m) in next(image(s));
    }
  }

  /** From s over old edges to h, one new edge to x, and any edges to g. */
  ghost predicate UsesNew<T(!new)>(next: T -> set<T>, extra: T -> set<T>, next': T -> set<T>, s: T, g: T, h: T, x: T)
  {
    Path(next, s, h) && x in extra(h) && Path(next', x, g)
  }

  /** A path over old and new edges does without the new ones, or is old up to its first new edge. */
  lemma {:induction false} FirstUse<T(!new)>(
      next: T -> set<T>, extra: T -> set<T>, next': T -> set<T>, s: T, g: T, n: nat)
    requires (forall x :: next'(x) == next(x) + extra(x)) && PathN(next', s, g, n)
    ensures Path(next, s, g) || exists h, x :: UsesNew(next, extra, next', s, g, h, x)
    decreases n
  {
    if n == 0 {
      assert PathN(next, s, g, 0);
    } else {
      var m :| m in next'(s) && PathN(next', m, g, n - 1);
      if m in extra(s) {
        assert PathN(next, s, s, 0);
        assert UsesNew(next, extra, next', s, g, s, m);
      } else {
        FirstUse(next, extra, next', m, g, n - 1);
        if Path(next, m, g) {
          PathFirst(next, s, m, g);
        } else {
          var h, x :| UsesNew(next, extra, next', m, g, h, x);
          PathFirst(next, s, m, h);
          assert UsesNew(next, extra, next', s, g, h, x);
        }
      }
    }
  }

  lemma PathFirst<T(!new)>(next: T -> set<T>, s: T, m: T, g: T)
    requires m in next(s) && Path(next, m, g)
    ensures Path(next, s, g)
  {
    var n: nat :| PathN(next, m, g, n);
    assert PathN(next, s, g, n + 1);
  }

  function Through(t: Tree, e: RoleGrant): Goal -> set<Goal> { h => ConferStep(t, {e}, h) }

  lemma ConferGrows(t: Tree, grants: set<RoleGrant>, grants': set<RoleGrant>, h: Goal)
    requires grants <= grants'
    ensures ConferStep(t, grants, h) <= ConferStep(t, grants', h)
  {
  }

  lemma ConferSplits(t: Tree, grants: set<RoleGrant>, e: RoleGrant, h: Goal)
    ensures ConferStep(t, grants + {e}, h) == ConferStep(t, grants, h) + ConferStep(t, {e}, h)
  {
  }

  lemma FewerRewrites(f: Facts, f': Facts, s: Goal, g: Goal)
    requires f.tree == f'.tree && f.rewrites <= f'.rewrites && Path(Onward(f), s, g)
    ensures Path(Onward(f'), s, g)
  {
    forall x ensures Onward(f)(x) <= Onward(f')(x) { ConferGrows(f.tree, f.rewrites, f'.rewrites, x); }
    var n: nat :| PathN(Onward(f), s, g, n);
    PathsGrow(Onward(f), Onward(f'), s, g, n);
  }

  // ---- holding is a part of authority ---------------------------------------------------------

  /** A global pair confers only global pairs, as authz_global_held closes them. */
  lemma {:induction false} GlobalPaths(f: Facts, role: Id, g: Goal, n: nat)
    ensures PathN(Onward(f), Goal(role, NoObject), g, n) <==>
      g.obj == NoObject && PathN(GlobalStep(f), role, g.role, n)
    decreases n
  {
    if n > 0 {
      forall r { GlobalPaths(f, r, g, n - 1); }
      forall m | m in Onward(f)(Goal(role, NoObject))
        ensures m == Goal(m.role, NoObject) && m.role in GlobalStep(f)(role)
      {
      }
      forall r | r in GlobalStep(f)(role) ensures Goal(r, NoObject) in Onward(f)(Goal(role, NoObject)) {}
    }
  }

  /** A pair on an object confers as authz_held closes it, and only pairs on objects. */
  lemma {:induction false} ObjectPaths(f: Facts, s: Goal, g: Goal, n: nat)
    requires s.obj != NoObject
    ensures PathN(Onward(f), s, g, n) <==> PathN(Forward(f), s, g, n)
    ensures PathN(Onward(f), s, g, n) ==> g.obj != NoObject
    decreases n
  {
    if n > 0 {
      assert Onward(f)(s) == Forward(f)(s);
      forall m | m in Forward(f)(s) ensures PathN(Onward(f), m, g, n - 1) <==> PathN(Forward(f), m, g, n - 1)
        ensures PathN(Onward(f), m, g, n - 1) ==> g.obj != NoObject
      {
        ObjectPaths(f, m, g, n - 1);
      }
    }
  }

  /** A NULL object stays NULL. */
  lemma NullStep(t: Tree, grants: set<RoleGrant>, s: Goal, m: Goal)
    requires s.obj == NoObject && m in HeldStep(t, grants, s)
    ensures m.obj == NoObject
  {
  }

  lemma NullPaths(f: Facts, s: Goal, g: Goal, n: nat)
    requires s.obj == NoObject && PathN(Forward(f), s, g, n)
    ensures g.obj == NoObject
  {
    var kept, same := (x: Goal) => x.obj == NoObject, (x: Goal) => x;
    forall x, y | kept(x) && y in Forward(f)(x) ensures kept(y) { NullStep(f.tree, f.rewrites, x, y); }
    PathImage(Forward(f), kept, same, s, g, n);
  }

  ghost predicate Derives(f: Facts, user: Id, g: Goal)
  {
    exists b :: Base(f, user, true, b) && Path(Onward(f), b, g)
  }

  /** Holding a role at a place is deriving it on an object in force there. */
  lemma HoldsAtIs(f: Facts, user: Id, role: Id, p: Obj)
    ensures HoldsAt(f, user, role, p) <==> exists o :: InForce(f.tree, o, p) && Derives(f, user, Goal(role, o))
  {
    if GloballyHolds(f, user, role) {
      var b :| Base(f, user, false, Goal(b, NoObject)) && Path(GlobalStep(f), b, role);
      var n: nat :| PathN(GlobalStep(f), b, role, n);
      GlobalPaths(f, b, Goal(role, NoObject), n);
      assert Base(f, user, true, Goal(b, NoObject));
      assert Derives(f, user, Goal(role, NoObject)) && InForce(f.tree, NoObject, p);
    }
    forall o | o != NoObject && Holds(f, user, true, Goal(role, o)) ensures Derives(f, user, Goal(role, o)) {
      var b :| Base(f, user, true, b) && Path(Forward(f), b, Goal(role, o));
      var n: nat :| PathN(Forward(f), b, Goal(role, o), n);
      if b.obj == NoObject { NullPaths(f, b, Goal(role, o), n); } else { ObjectPaths(f, b, Goal(role, o), n); }
    }
    forall o | Derives(f, user, Goal(role, o))
      ensures if o == NoObject then GloballyHolds(f, user, role) else Holds(f, user, true, Goal(role, o))
    {
      var b :| Base(f, user, true, b) && Path(Onward(f), b, Goal(role, o));
      var n: nat :| PathN(Onward(f), b, Goal(role, o), n);
      if b.obj == NoObject {
        assert b == Goal(b.role, NoObject);
        GlobalPaths(f, b.role, Goal(role, o), n);
        assert Base(f, user, false, Goal(b.role, NoObject));
      } else {
        ObjectPaths(f, b, Goal(role, o), n);
      }
    }
  }

  lemma BaseIsEntry(st: State, user: Id, b: Goal)
    requires Base(st.facts, user, true, b)
    ensures b in Entries(st)
  {
    if r :| Confers(st.facts, user, r, b) {
      assert b == Goal(st.facts.bindings[r].role, ObjOf(st.facts.bindings[r].scope));
    } else {
      var j := JitGrant(b.role, b.obj.id, user);
      assert b == Goal(j.role, AssetObj(j.asset));
    }
  }

  /** What a user holds is handed out. */
  lemma HeldIsAuthority(roles: Roles, st: State, user: Id, p: Obj, pattern: string)
    requires HeldPattern(roles, st.facts, user, p, pattern)
    ensures Authority(roles, st, p, pattern)
  {
    var r :| HasCap(roles, r, pattern) && HoldsAt(st.facts, user, r, p);
    HoldsAtIs(st.facts, user, r, p);
    var o :| InForce(st.facts.tree, o, p) && Derives(st.facts, user, Goal(r, o));
    var b :| Base(st.facts, user, true, b) && Path(Onward(st.facts), b, Goal(r, o));
    BaseIsEntry(st, user, b);
    assert Reached(st, Goal(r, o)) && Gives(roles, st.facts.tree, Goal(r, o), p, pattern);
  }

  // ---- the structural cascade -----------------------------------------------------------------

  /** What is in force at a place is in force wherever that place is. */
  lemma InForceTransitive(t: Tree, a: Obj, b: Obj, c: Obj)
    requires InForce(t, a, b) && InForce(t, b, c)
    ensures InForce(t, a, c)
  {
    if a.FolderObj? && b.FolderObj? {
      var parents, node := ParentsOf(t.folders), NodeOf(t, c).value;
      ReachesIn(parents, b.id, a.id);
      ReachesIn(parents, node, b.id);
      ReachesTrans(parents, node, b.id, a.id);
      ReachesIn(parents, node, a.id);
    }
  }

  lemma BackedCovers(roles: Roles, st: State, p: Obj, q: Obj, root: string, pattern: string)
    requires Backed(roles, st, p, root) && (root == pattern || Covers1(root, pattern))
    requires InForce(st.facts.tree, p, q) || p == q
    ensures Backed(roles, st, q, pattern)
  {
    var top :| Authority(roles, st, p, top) && (top == root || Covers1(top, root));
    var g :| Reached(st, g) && Gives(roles, st.facts.tree, g, p, top);
    if p != q { InForceTransitive(st.facts.tree, g.obj, p, q); }
    assert Gives(roles, st.facts.tree, g, q, top);
    assert Authority(roles, st, q, top);
    if top != root && root != pattern { Covers1Transitive(top, root, pattern); }
  }

  /** What the guard does check is backed. */
  lemma GrantableBacked(roles: Roles, st: State, caller: Id, role: Id, p: Obj, q: Obj, pattern: string)
    requires role in roles && Grantable(roles, st.facts, caller, roles[role].caps, p)
    requires HasCap(roles, role, pattern) && InForce(st.facts.tree, p, q)
    ensures Backed(roles, st, q, pattern)
  {
    var i :| 0 <= i < |roles[role].caps| && roles[role].caps[i] == pattern;
    assert Vouches(roles, st.facts, caller, roles[role].caps[i], p);
    var h :| HeldPattern(roles, st.facts, caller, p, h) && Covers1(h, pattern);
    HeldIsAuthority(roles, st, caller, p, h);
    assert Backed(roles, st, p, h);
    BackedCovers(roles, st, p, q, h, pattern);
  }

  lemma BackedTransitive(roles: Roles, st0: State, st: State, st': State)
    requires AllBacked(roles, st0, st) && AllBacked(roles, st, st') && st0.facts.tree == st.facts.tree
    ensures AllBacked(roles, st0, st')
  {
    forall p, c | Authority(roles, st', p, c) ensures Backed(roles, st0, p, c) {
      var root :| Authority(roles, st, p, root) && (root == c || Covers1(root, c));
      BackedCovers(roles, st0, p, p, root, c);
    }
  }

  // ---- one delegation -------------------------------------------------------------------------

  lemma ReachedFewer(st: State, st': State, g: Goal)
    requires st'.facts.tree == st.facts.tree && st'.facts.rewrites <= st.facts.rewrites
    requires Entries(st') <= Entries(st) && Reached(st', g)
    ensures Reached(st, g)
  {
    var b :| b in Entries(st') && Path(Onward(st'.facts), b, g);
    FewerRewrites(st'.facts, st.facts, b, g);
  }

  lemma FewerKeeps(roles: Roles, st: State, st': State)
    requires st'.facts.tree == st.facts.tree && st'.facts.rewrites <= st.facts.rewrites
    requires Entries(st') <= Entries(st)
    ensures AllBacked(roles, st, st')
  {
    forall p, c | Authority(roles, st', p, c) ensures Backed(roles, st, p, c) {
      var g :| Reached(st', g) && Gives(roles, st'.facts.tree, g, p, c);
      ReachedFewer(st, st', g);
      assert Authority(roles, st, p, c);
    }
  }

  /** One more entry: nothing new is handed out exactly when its whole closure is backed. */
  lemma EntryKeepsExactly(roles: Roles, st: State, st': State, b: Goal)
    requires st'.facts.tree == st.facts.tree && st'.facts.rewrites == st.facts.rewrites
    requires Entries(st') == Entries(st) + {b}
    ensures AllBacked(roles, st, st') <==> ClosureBacked(roles, st, st.facts, b)
  {
    if AllBacked(roles, st, st') {
      forall g, p, c | Path(Onward(st.facts), b, g) && Gives(roles, st.facts.tree, g, p, c)
        ensures Backed(roles, st, p, c)
      {
        FewerRewrites(st.facts, st'.facts, b, g);
        assert b in Entries(st') && Reached(st', g);
        assert Authority(roles, st', p, c);
      }
    }
    if ClosureBacked(roles, st, st.facts, b) {
      forall p, c | Authority(roles, st', p, c) ensures Backed(roles, st, p, c) {
        var g :| Reached(st', g) && Gives(roles, st'.facts.tree, g, p, c);
        var s :| s in Entries(st') && Path(Onward(st'.facts), s, g);
        FewerRewrites(st'.facts, st.facts, s, g);
        if s in Entries(st) {
          assert Reached(st, g);
          assert Authority(roles, st, p, c);
        }
      }
    }
  }

  /** One more rewrite: the same, for what it newly confers wherever its source is conferred. */
  lemma RewriteKeepsExactly(roles: Roles, st: State, st': State, e: RoleGrant)
    requires st' == st.(facts := st.facts.(rewrites := st.facts.rewrites + {e}))
    ensures AllBacked(roles, st, st') <==>
      forall h, g :: Newly(st, e, h, g) ==> ClosureBacked(roles, st, st'.facts, g)
  {
    if AllBacked(roles, st, st') {
      forall h, x, g, p, c | Newly(st, e, h, x) && Path(Onward(st'.facts), x, g) && Gives(roles, st.facts.tree, g, p, c)
        ensures Backed(roles, st, p, c)
      {
        NewlyReached(st, st', e, h, x, g);
        assert Authority(roles, st', p, c);
      }
    }
    if forall h, g :: Newly(st, e, h, g) ==> ClosureBacked(roles, st, st'.facts, g) {
      forall p, c | Authority(roles, st', p, c) ensures Backed(roles, st, p, c) {
        var g :| Reached(st', g) && Gives(roles, st'.facts.tree, g, p, c);
        RewriteReaches(st, st', e, g);
        if Reached(st, g) {
          assert Authority(roles, st, p, c);
        } else {
          var h, x :| Newly(st, e, h, x) && Path(Onward(st'.facts), x, g);
          assert ClosureBacked(roles, st, st'.facts, x);
        }
      }
    }
  }

  lemma NewlyReached(st: State, st': State, e: RoleGrant, h: Goal, x: Goal, g: Goal)
    requires st' == st.(facts := st.facts.(rewrites := st.facts.rewrites + {e}))
    requires Newly(st, e, h, x) && Path(Onward(st'.facts), x, g)
    ensures Reached(st', g)
  {
    var b :| b in Entries(st) && Path(Onward(st.facts), b, h);
    var next := Onward(st'.facts);
    FewerRewrites(st.facts, st'.facts, b, h);
    ConferGrows(st.facts.tree, {e}, st'.facts.rewrites, h);
    PathFirst(next, h, x, g);
    var i: nat :| PathN(next, b, h, i);
    var j: nat :| PathN(next, h, g, j);
    PathJoin(next, b, h, g, i, j);
    assert b in Entries(st') && Path(next, b, g);
  }

  lemma RewriteReaches(st: State, st': State, e: RoleGrant, g: Goal)
    requires st' == st.(facts := st.facts.(rewrites := st.facts.rewrites + {e})) && Reached(st', g)
    ensures Reached(st, g) || exists h, x :: Newly(st, e, h, x) && Path(Onward(st'.facts), x, g)
  {
    var b :| b in Entries(st') && Path(Onward(st'.facts), b, g);
    var n: nat :| PathN(Onward(st'.facts), b, g, n);
    forall h ensures Onward(st'.facts)(h) == Onward(st.facts)(h) + Through(st.facts.tree, e)(h) {
      ConferSplits(st.facts.tree, st.facts.rewrites, e, h);
    }
    FirstUse(Onward(st.facts), Through(st.facts.tree, e), Onward(st'.facts), b, g, n);
    assert b in Entries(st);
    if Path(Onward(st.facts), b, g) {
      assert Reached(st, g);
    } else {
      var h, x :| UsesNew(Onward(st.facts), Through(st.facts.tree, e), Onward(st'.facts), b, g, h, x);
      assert Newly(st, e, h, x);
    }
  }

  /** Only same-object rewrites apply to an asset, and they apply alike to anything above it. */
  lemma AssetStep(t: Tree, grants: set<RoleGrant>, role: Id, a: Id, o: Obj, m: Goal)
    requires m in ConferStep(t, grants, Goal(role, AssetObj(a)))
    ensures m.obj == AssetObj(a) && Goal(m.role, o) in ConferStep(t, grants, Goal(role, o))
  {
  }

  lemma AssetPaths(f: Facts, role: Id, a: Id, o: Obj, g: Goal, n: nat)
    requires PathN(Onward(f), Goal(role, AssetObj(a)), g, n)
    ensures g.obj == AssetObj(a) && PathN(Onward(f), Goal(role, o), Goal(g.role, o), n)
  {
    var kept, lifted := (x: Goal) => x.obj == AssetObj(a), (x: Goal) => Goal(x.role, o);
    forall x, y | kept(x) && y in Onward(f)(x) ensures kept(y) && lifted(y) in Onward(f)(lifted(x)) {
      assert x == Goal(x.role, AssetObj(a));
      AssetStep(f.tree, f.rewrites, x.role, a, o, y);
    }
    PathImage(Onward(f), kept, lifted, Goal(role, AssetObj(a)), g, n);
  }

  /** A request hands out nothing its policy did not. */
  lemma AskVouched(roles: Roles, st: State, j: JitGrant)
    requires Requestable(st, j)
    ensures ClosureBacked(roles, st, st.facts, Goal(j.role, AssetObj(j.asset)))
  {
    var q :| q in st.policies && st.policies[q].role == j.role
      && InForce(st.facts.tree, ObjOf(st.policies[q].scope), AssetObj(j.asset));
    var o := ObjOf(st.policies[q].scope);
    assert Goal(j.role, o) in Entries(st);
    forall g, p, c | Path(Onward(st.facts), Goal(j.role, AssetObj(j.asset)), g) && Gives(roles, st.facts.tree, g, p, c)
      ensures Backed(roles, st, p, c)
    {
      var n: nat :| PathN(Onward(st.facts), Goal(j.role, AssetObj(j.asset)), g, n);
      AssetPaths(st.facts, j.role, j.asset, o, g, n);
      assert Reached(st, Goal(g.role, o));
      assert Gives(roles, st.facts.tree, Goal(g.role, o), p, c);
      assert Authority(roles, st, p, c);
    }
  }

  lemma AddedBinding(m: map<Id, BindingRow>, id: Id, row: BindingRow)
    requires id !in m
    ensures BindingGoals(m[id := row]) == BindingGoals(m) + {Goal(row.role, ObjOf(row.scope))}
  {
    forall b | b in m ensures m[b] == m[id := row][b] {}
    assert m[id := row][id] == row;
  }

  lemma AddedPolicy(m: map<Id, PolicyRow>, id: Id, row: PolicyRow)
    requires id !in m
    ensures PolicyGoals(m[id := row]) == PolicyGoals(m) + {Goal(row.role, ObjOf(row.scope))}
  {
    forall q | q in m ensures m[q] == m[id := row][q] {}
    assert m[id := row][id] == row;
  }

  /** Each accepted step hands out nothing new exactly when the whole closure of what it adds was
      backed where it comes into force. Taking away, asking, minting, and any change of members or
      of who is active never hand out anything new. */
  lemma StepKeepsExactly(roles: Roles, st: State, op: Op)
    requires Accepted(roles, st, op)
    ensures AllBacked(roles, st, Step(roles, st, op)) <==> Vouched(roles, st, op)
  {
    var st' := Write(st, op);
    match op
    case Bind(_, id, row) =>
      AddedBinding(st.facts.bindings, id, row);
      EntryKeepsExactly(roles, st, st', Goal(row.role, ObjOf(row.scope)));
    case AddPolicy(_, id, row) =>
      AddedPolicy(st.policies, id, row);
      EntryKeepsExactly(roles, st, st', Goal(row.role, ObjOf(row.scope)));
    case AddRewrite(_, e) => RewriteKeepsExactly(roles, st, st', e);
    case Ask(g) =>
      AskVouched(roles, st, g);
      EntryKeepsExactly(roles, st, st', Goal(g.role, AssetObj(g.asset)));
    case Mint(g) =>
      assert Goal(g.role, AssetObj(g.asset)) in Entries(st);
      FewerKeeps(roles, st, st');
    case _ => FewerKeeps(roles, st, st');
  }

  // ---- when the guard suffices ------------------------------------------------------------------

  predicate Leaf(f: Facts, role: Id) { forall e :: e in f.rewrites ==> e.source != role }

  lemma LeafPath(f: Facts, s: Goal, g: Goal)
    requires Leaf(f, s.role) && Path(Onward(f), s, g)
    ensures g == s
  {
    var n: nat :| PathN(Onward(f), s, g, n);
    assert Onward(f)(s) == {};
  }

  /** Writing a binding or a policy for a role that confers no other is always vouched for. */
  lemma LeafWriteVouched(roles: Roles, st: State, op: Op)
    requires Accepted(roles, st, op)
    requires (op.Bind? && Leaf(st.facts, op.binding.role)) || (op.AddPolicy? && Leaf(st.facts, op.policy.role))
    ensures Vouched(roles, st, op)
  {
    var role := if op.Bind? then op.binding.role else op.policy.role;
    var s := if op.Bind? then op.binding.scope else op.policy.scope;
    forall g, p, c | Path(Onward(st.facts), Goal(role, ObjOf(s)), g) && Gives(roles, st.facts.tree, g, p, c)
      ensures Backed(roles, st, p, c)
    {
      LeafPath(st.facts, Goal(role, ObjOf(s)), g);
      GrantableBacked(roles, st, op.caller, role, ObjOf(s), p, c);
    }
  }

  /** A rewrite is vouched for when its recipient confers no other role and the recipient's home, where
      the guard looks, is in force wherever the rewrite comes to apply; so always for a global one. */
  lemma LeafRewriteVouched(roles: Roles, st: State, op: Op)
    requires op.AddRewrite? && Accepted(roles, st, op) && Leaf(Write(st, op).facts, op.edge.role)
    requires forall h, g :: Newly(st, op.edge, h, g) ==> InForce(st.facts.tree, HomeObj(roles[op.edge.role]), g.obj)
    ensures Vouched(roles, st, op)
  {
    forall h, x | Newly(st, op.edge, h, x) ensures ClosureBacked(roles, st, Write(st, op).facts, x) {
      RecipientBacked(roles, st, op.caller, op.edge.role, Write(st, op).facts, x);
    }
  }

  lemma RecipientBacked(roles: Roles, st: State, caller: Id, role: Id, f: Facts, x: Goal)
    requires role in roles && Grantable(roles, st.facts, caller, roles[role].caps, HomeObj(roles[role]))
    requires f.tree == st.facts.tree && Leaf(f, role) && x.role == role
    requires InForce(f.tree, HomeObj(roles[role]), x.obj)
    ensures ClosureBacked(roles, st, f, x)
  {
    forall g, p, c | Path(Onward(f), x, g) && Gives(roles, f.tree, g, p, c) ensures Backed(roles, st, p, c) {
      LeafPath(f, x, g);
      InForceTransitive(f.tree, HomeObj(roles[role]), x.obj, p);
      GrantableBacked(roles, st, caller, role, HomeObj(roles[role]), p, c);
    }
  }

  // ---- runs -------------------------------------------------------------------------------------

  ghost predicate VouchedRun(roles: Roles, st: State, ops: seq<Op>)
    decreases |ops|
  {
    ops != [] ==>
      && (Accepted(roles, st, ops[0]) ==> Vouched(roles, st, ops[0]))
      && VouchedRun(roles, Step(roles, st, ops[0]), ops[1..])
  }

  lemma AlwaysBacked(roles: Roles, st: State)
    ensures AllBacked(roles, st, st)
  {
    FewerKeeps(roles, st, st);
  }

  lemma {:induction false} RunBacked(roles: Roles, st0: State, st: State, ops: seq<Op>)
    requires AllBacked(roles, st0, st) && st0.facts.tree == st.facts.tree && VouchedRun(roles, st, ops)
    ensures AllBacked(roles, st0, Run(roles, st, ops))
    decreases |ops|
  {
    if ops != [] {
      var st' := Step(roles, st, ops[0]);
      if Accepted(roles, st, ops[0]) { StepKeepsExactly(roles, st, ops[0]); } else { AlwaysBacked(roles, st); }
      BackedTransitive(roles, st0, st, st');
      RunBacked(roles, st0, st', ops[1..]);
    }
  }

  ghost predicate Allowed(roles: Roles, f: Facts, user: Id, p: Obj, request: string)
  {
    exists c :: HeldPattern(roles, f, user, p, c) && CapMatch(c, request)
  }

  ghost predicate HandedOut(roles: Roles, st: State, p: Obj, request: string)
  {
    exists c :: Authority(roles, st, p, c) && CapMatch(c, request)
  }

  /** No vouched-for run of delegations creates authority: whatever a user is allowed at a place in
      the end was handed out at that place in the beginning. */
  lemma NoEscalation(roles: Roles, st: State, ops: seq<Op>, user: Id, p: Obj, request: string)
    requires VouchedRun(roles, st, ops) && Allowed(roles, Run(roles, st, ops).facts, user, p, request)
    ensures HandedOut(roles, st, p, request)
  {
    var end := Run(roles, st, ops);
    AlwaysBacked(roles, st);
    RunBacked(roles, st, st, ops);
    var c :| HeldPattern(roles, end.facts, user, p, c) && CapMatch(c, request);
    HeldIsAuthority(roles, end, user, p, c);
    var root :| Authority(roles, st, p, root) && (root == c || Covers1(root, c));
    if root != c { Covers1Sound(root, c, request); }
  }

  /** Without rewrites the guard alone keeps every run from creating authority. */
  lemma NoEscalationWithoutRewrites(roles: Roles, st: State, ops: seq<Op>, user: Id, p: Obj, request: string)
    requires st.facts.rewrites == {} && forall i :: 0 <= i < |ops| ==> !ops[i].AddRewrite?
    requires Allowed(roles, Run(roles, st, ops).facts, user, p, request)
    ensures HandedOut(roles, st, p, request)
  {
    PlainRunVouched(roles, st, ops);
    NoEscalation(roles, st, ops, user, p, request);
  }

  lemma {:induction false} PlainRunVouched(roles: Roles, st: State, ops: seq<Op>)
    requires st.facts.rewrites == {} && forall i :: 0 <= i < |ops| ==> !ops[i].AddRewrite?
    ensures VouchedRun(roles, st, ops)
    decreases |ops|
  {
    if ops != [] {
      if Accepted(roles, st, ops[0]) && (ops[0].Bind? || ops[0].AddPolicy?) { LeafWriteVouched(roles, st, ops[0]); }
      PlainRunVouched(roles, Step(roles, st, ops[0]), ops[1..]);
    }
  }

  ghost predicate GivenToSomeone(f: Facts, b: Goal) { exists u :: Base(f, u, true, b) }

  /** Every row gives its role to some active user. */
  ghost predicate Staffed(st: State)
  {
    forall b :: b in Entries(st) ==> GivenToSomeone(st.facts, b)
  }

  /** Then whatever is handed out at a place is held there by a user. */
  lemma StaffedIsHeld(roles: Roles, st: State, p: Obj, request: string)
    requires Staffed(st) && HandedOut(roles, st, p, request)
    ensures exists u :: Allowed(roles, st.facts, u, p, request)
  {
    var c :| Authority(roles, st, p, c) && CapMatch(c, request);
    var g :| Reached(st, g) && Gives(roles, st.facts.tree, g, p, c);
    var b :| b in Entries(st) && Path(Onward(st.facts), b, g);
    assert GivenToSomeone(st.facts, b);
    var u :| Base(st.facts, u, true, b);
    DerivedIsHeld(roles, st.facts, u, g, p, c);
    assert Allowed(roles, st.facts, u, p, request);
  }

  lemma DerivedIsHeld(roles: Roles, f: Facts, user: Id, g: Goal, p: Obj, pattern: string)
    requires Derives(f, user, g) && Gives(roles, f.tree, g, p, pattern)
    ensures HeldPattern(roles, f, user, p, pattern)
  {
    assert g == Goal(g.role, g.obj);
    HoldsAtIs(f, user, g.role, p);
  }

  // ---- where the guard does not suffice -----------------------------------------------------------

  /** Two sibling folders, 1 and 2. Global role 10 is bound to user 5 on folder 2; role 20, homed in
      folder 1, is bound there to user 6 and is the only one with a capability. */
  function Siblings(): State
  {
    var folders := map[1 := FolderRow("f", None, [1]), 2 := FolderRow("g", None, [2])];
    var bindings := map[
      100 := BindingRow(10, Scope(Some(2), None), User(5)),
      101 := BindingRow(20, Scope(Some(1), None), User(6))];
    State(Facts(Tree(folders, map[]), {}, bindings, {}, {}, {5, 6}), map[], {})
  }

  function SiblingRoles(pattern: string): Roles
  {
    map[10 := Role(None, []), 20 := Role(Some(1), [pattern])]
  }

  const ESCAPE := RoleGrant(20, 10, SameObject)

  /** The same folders and roles with user 5's binding gone and role 10 conferring role 20. */
  function Conferring(): State
  {
    Write(Write(Siblings(), AddRewrite(6, ESCAPE)), Unbind(100))
  }

  lemma SiblingsApart(n: nat)
    ensures Up(ParentsOf(Siblings().facts.tree.folders), 2, n) == if n == 0 then Some(2) else None
    ensures Up(ParentsOf(Siblings().facts.tree.folders), 1, n) == if n == 0 then Some(1) else None
  {
  }

  lemma SiblingsInForce()
    ensures var t := Siblings().facts.tree;
      InForce(t, FolderObj(1), FolderObj(1)) && InForce(t, FolderObj(2), FolderObj(2)) &&
        !InForce(t, FolderObj(1), FolderObj(2))
  {
    var p := ParentsOf(Siblings().facts.tree.folders);
    SiblingsApart(0);
    forall n: nat ensures Up(p, 2, n) != Some(1) { SiblingsApart(n); }
  }

  lemma BoundDirectly(roles: Roles, f: Facts, user: Id, b: Id, o: Obj, pattern: string)
    requires user in f.active && o != NoObject && b in f.bindings && Confers(f, user, b, Goal(f.bindings[b].role, o))
    requires HasCap(roles, f.bindings[b].role, pattern) && InForce(f.tree, o, o)
    ensures HeldPattern(roles, f, user, o, pattern)
  {
    var g := Goal(f.bindings[b].role, o);
    assert PathN(Onward(f), g, g, 0);
    assert Base(f, user, true, g) && Path(Onward(f), g, g);
    DerivedIsHeld(roles, f, user, g, o, pattern);
  }

  /** Entries of roles that confer no other give out their own patterns and no more. */
  lemma LeafAuthority(roles: Roles, st: State, p: Obj, pattern: string)
    requires (forall b :: b in Entries(st) ==> Leaf(st.facts, b.role)) && Authority(roles, st, p, pattern)
    ensures exists b :: b in Entries(st) && Gives(roles, st.facts.tree, b, p, pattern)
  {
    var g :| Reached(st, g) && Gives(roles, st.facts.tree, g, p, pattern);
    var b :| b in Entries(st) && Path(Onward(st.facts), b, g);
    LeafPath(st.facts, b, g);
  }

  lemma SiblingEntries()
    ensures Entries(Siblings()) == {Goal(10, FolderObj(2)), Goal(20, FolderObj(1))}
    ensures Entries(Conferring()) == {Goal(20, FolderObj(1))}
  {
    assert Siblings().facts.bindings[100].role == 10 && Siblings().facts.bindings[101].role == 20;
    assert Conferring().facts.bindings.Keys == {101};
  }

  lemma NothingOnFolder2(pattern: string, st: State, root: string)
    requires st.facts.tree == Siblings().facts.tree
    requires Entries(st) <= {Goal(10, FolderObj(2)), Goal(20, FolderObj(1))}
    requires forall b :: b in Entries(st) ==> Leaf(st.facts, b.role)
    ensures !Authority(SiblingRoles(pattern), st, FolderObj(2), root)
  {
    SiblingsInForce();
    if Authority(SiblingRoles(pattern), st, FolderObj(2), root) {
      LeafAuthority(SiblingRoles(pattern), st, FolderObj(2), root);
    }
  }

  /** Somebody gets at p what was not handed out there. */
  lemma Escapes(roles: Roles, st: State, op: Op, user: Id, p: Obj, pattern: string)
    requires Accepted(roles, st, op) && HeldPattern(roles, Step(roles, st, op).facts, user, p, pattern)
    requires forall root :: !Authority(roles, st, p, root)
    ensures !Vouched(roles, st, op) && !Backed(roles, st, p, pattern)
  {
    HeldIsAuthority(roles, Step(roles, st, op), user, p, pattern);
    StepKeepsExactly(roles, st, op);
  }

  lemma RewriteAccepted(pattern: string)
    requires WellFormed(Segments(pattern))
    ensures Accepted(SiblingRoles(pattern), Siblings(), AddRewrite(6, ESCAPE))
  {
    var roles, st := SiblingRoles(pattern), Siblings();
    SiblingsInForce();
    BoundDirectly(roles, st.facts, 6, 101, FolderObj(1), pattern);
    Covers1Self(pattern);
    assert Vouches(roles, st.facts, 6, roles[20].caps[0], FolderObj(1));
  }

  lemma EscapedHold(pattern: string)
    ensures HeldPattern(SiblingRoles(pattern), Write(Siblings(), AddRewrite(6, ESCAPE)).facts, 5, FolderObj(2), pattern)
  {
    var f := Write(Siblings(), AddRewrite(6, ESCAPE)).facts;
    var b, g := Goal(10, FolderObj(2)), Goal(20, FolderObj(2));
    SiblingsInForce();
    assert Confers(f, 5, 100, b);
    assert g in Onward(f)(b) && PathN(Onward(f), g, g, 0);
    assert PathN(Onward(f), b, g, 1);
    assert Base(f, 5, true, b) && Path(Onward(f), b, g);
    DerivedIsHeld(SiblingRoles(pattern), f, 5, g, FolderObj(2), pattern);
  }

  /** The guard looks at the recipient role at its own home and nowhere else: user 6 lets role 10
      confer role 20, and user 5 holds its capability on folder 2, where nobody held anything. */
  lemma RewriteEscapes(pattern: string)
    requires WellFormed(Segments(pattern))
    ensures var roles, st, op := SiblingRoles(pattern), Siblings(), AddRewrite(6, ESCAPE);
      && Accepted(roles, st, op) && !Vouched(roles, st, op)
      && HeldPattern(roles, Step(roles, st, op).facts, 5, FolderObj(2), pattern)
      && !Backed(roles, st, FolderObj(2), pattern)
  {
    var roles, st, op := SiblingRoles(pattern), Siblings(), AddRewrite(6, ESCAPE);
    RewriteAccepted(pattern);
    EscapedHold(pattern);
    SiblingEntries();
    forall root ensures !Authority(roles, st, FolderObj(2), root) { NothingOnFolder2(pattern, st, root); }
    Escapes(roles, st, op, 5, FolderObj(2), pattern);
  }

  lemma BindAccepted(pattern: string, caller: Id)
    ensures Accepted(SiblingRoles(pattern), Conferring(), Bind(caller, 100, Siblings().facts.bindings[100]))
  {
    assert Contained(Conferring().facts.tree, HomesOf(SiblingRoles(pattern)), 10, Scope(Some(2), None));
  }

  /** A binding is checked against the role's own patterns only: binding role 10, which has none, to
      user 5 on folder 2 needs nothing there and gives role 20's capability. */
  lemma BindEscapes(pattern: string, caller: Id)
    ensures var roles, st := SiblingRoles(pattern), Conferring();
      var op := Bind(caller, 100, Siblings().facts.bindings[100]);
      && Accepted(roles, st, op) && !Vouched(roles, st, op)
      && HeldPattern(roles, Step(roles, st, op).facts, 5, FolderObj(2), pattern)
      && !Backed(roles, st, FolderObj(2), pattern)
  {
    var roles, st, op := SiblingRoles(pattern), Conferring(), Bind(caller, 100, Siblings().facts.bindings[100]);
    BindAccepted(pattern, caller);
    assert Write(st, op).facts == Write(Siblings(), AddRewrite(6, ESCAPE)).facts;
    EscapedHold(pattern);
    SiblingEntries();
    forall root ensures !Authority(roles, st, FolderObj(2), root) { NothingOnFolder2(pattern, st, root); }
    Escapes(roles, st, op, 5, FolderObj(2), pattern);
  }
}
