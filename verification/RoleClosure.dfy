/** Who holds which role where: the forward closure that lists everything a user holds, the
    backward closure that answers one question, and the path enumeration that explains it.
    All three read the same rewrite edges and must agree, cyclic edges included. */
module RoleClosure {
  import opened Basics
  import opened Catalog

  // ---- reachability -----------------------------------------------------------------

  /** g is reached from s in n steps. */
  ghost predicate PathN<T(!new)>(next: T -> set<T>, s: T, g: T, n: nat)
  {
    if n == 0 then s == g else exists m :: m in next(s) && PathN(next, m, g, n - 1)
  }

  ghost predicate Path<T(!new)>(next: T -> set<T>, s: T, g: T)
  {
    exists n: nat :: PathN(next, s, g, n)
  }

  ghost predicate FromSet<T(!new)>(next: T -> set<T>, start: set<T>, g: T)
  {
    exists s :: s in start && Path(next, s, g)
  }

  lemma {:induction false} PathSnoc<T(!new)>(next: T -> set<T>, s: T, m: T, g: T, n: nat)
    requires PathN(next, s, m, n) && g in next(m)
    ensures PathN(next, s, g, n + 1)
    decreases n
  {
    if n == 0 {
      assert PathN(next, g, g, 0);
    } else {
      var x :| x in next(s) && PathN(next, x, m, n - 1);
      PathSnoc(next, x, m, g, n - 1);
    }
  }

  lemma {:induction false} PathsGrow<T(!new)>(next: T -> set<T>, next': T -> set<T>, s: T, g: T, n: nat)
    requires (forall x :: next(x) <= next'(x)) && PathN(next, s, g, n)
    ensures PathN(next', s, g, n)
    decreases n
  {
    if n > 0 {
      var m :| m in next(s) && PathN(next, m, g, n - 1);
      PathsGrow(next, next', m, g, n - 1);
      assert m in next'(s);
    }
  }

  /** Following converse edges reverses paths. */
  lemma {:induction false} PathReverse<T(!new)>(next: T -> set<T>, back: T -> set<T>, s: T, g: T, n: nat)
    requires forall a, b :: b in next(a) <==> a in back(b)
    requires PathN(next, s, g, n)
    ensures PathN(back, g, s, n)
    decreases n
  {
    if n > 0 {
      var m :| m in next(s) && PathN(next, m, g, n - 1);
      PathReverse(next, back, m, g, n - 1);
      PathSnoc(back, g, m, s, n - 1);
    }
  }

  lemma {:induction false} PathStays<T(!new)>(next: T -> set<T>, s: T, g: T, n: nat, all: set<T>)
    requires PathN(next, s, g, n) && s in all && forall x :: x in all ==> next(x) <= all
    ensures g in all
    decreases n
  {
    if n > 0 {
      var m :| m in next(s) && PathN(next, m, g, n - 1);
      PathStays(next, m, g, n - 1, all);
    }
  }

  /** A recursive query with UNION: expand the newest rows until nothing new appears. Any cycle is
      cut by the duplicate elimination; the finite universe bounds the rounds. */
  method Closure<T(!new, ==)>(start: set<T>, next: T -> set<T>, ghost universe: set<T>) returns (all: set<T>)
    requires start <= universe && ClosedUnder(next, universe)
    ensures forall g :: g in all <==> FromSet(next, start, g)
  {
    all := start;
    var work := start;
    PartialStart(next, start);
    while work != {}
      invariant Partial(next, start, all, work) && work <= all <= universe
      decreases |universe - all|, work != {}
    {
      var added := Expand(work, next) - all;
      PartialStep(next, start, all, work);
      ExpandStays(next, work, universe);
      Shrinks(universe, all, added);
      all := all + added;
      work := added;
    }
    PartialDone(next, start, all);
  }

  ghost predicate ClosedUnder<T(!new)>(next: T -> set<T>, universe: set<T>)
  {
    forall x :: x in universe ==> next(x) <= universe
  }

  lemma ExpandStays<T(!new)>(next: T -> set<T>, work: set<T>, universe: set<T>)
    requires ClosedUnder(next, universe) && work <= universe
    ensures Expand(work, next) <= universe
  {
  }

  lemma Shrinks<T>(universe: set<T>, all: set<T>, added: set<T>)
    requires added <= universe && added !! all
    ensures added == {} ==> all + added == all
    ensures added != {} ==> |universe - (all + added)| < |universe - all|
  {
    if g :| g in added {
      assert universe - (all + added) <= universe - all - {g};
      SubsetSize(universe - (all + added), universe - all - {g});
    } else {
      assert all + added == all;
    }
  }

  lemma PartialStart<T(!new)>(next: T -> set<T>, start: set<T>)
    ensures Partial(next, start, start, start)
  {
    forall s | s in start ensures FromSet(next, start, s) { assert PathN(next, s, s, 0); }
  }

  lemma PartialDone<T(!new)>(next: T -> set<T>, start: set<T>, all: set<T>)
    requires Partial(next, start, all, {})
    ensures forall g :: g in all <==> FromSet(next, start, g)
  {
    forall g | FromSet(next, start, g) ensures g in all { FromSetStays(next, start, g, all); }
  }

  /** Everything found is reachable, and everything expanded has its successors found. */
  ghost predicate Partial<T(!new)>(next: T -> set<T>, start: set<T>, all: set<T>, work: set<T>)
  {
    && start <= all && work <= all
    && (forall x :: x in all && x !in work ==> next(x) <= all)
    && (forall g :: g in all ==> FromSet(next, start, g))
  }

  lemma PartialStep<T(!new)>(next: T -> set<T>, start: set<T>, all: set<T>, work: set<T>)
    requires Partial(next, start, all, work)
    ensures Partial(next, start, all + (Expand(work, next) - all), Expand(work, next) - all)
  {
    var added := Expand(work, next) - all;
    forall g | g in added ensures FromSet(next, start, g) {
      var x :| x in work && g in next(x);
      FromSetSnoc(next, start, x, g);
    }
    forall x | x in all ensures next(x) <= all + added {
      if x in work { assert next(x) <= Expand(work, next); }
    }
  }

  function Expand<T(!new, ==)>(work: set<T>, next: T -> set<T>): set<T>
  {
    set x, y | x in work && y in next(x) :: y
  }

  lemma FromSetSnoc<T(!new)>(next: T -> set<T>, start: set<T>, x: T, g: T)
    requires FromSet(next, start, x) && g in next(x)
    ensures FromSet(next, start, g)
  {
    var s :| s in start && Path(next, s, x);
    var n: nat :| PathN(next, s, x, n);
    PathSnoc(next, s, x, g, n);
    assert Path(next, s, g);
  }

  lemma FromSetStays<T(!new)>(next: T -> set<T>, start: set<T>, g: T, all: set<T>)
    requires FromSet(next, start, g) && start <= all && forall x :: x in all ==> next(x) <= all
    ensures g in all
  {
    var s :| s in start && Path(next, s, g);
    var n: nat :| PathN(next, s, g, n);
    PathStays(next, s, g, n, all);
  }

  // ---- cycle-free derivations ---------------------------------------------------------

  ghost predicate IsWalk<T(!new)>(next: T -> set<T>, w: seq<T>)
  {
    |w| > 0 && forall i :: 0 <= i < |w| - 1 ==> w[i + 1] in next(w[i])
  }

  /** The in-path guard: no step repeats. */
  ghost predicate Simple<T(!new)>(w: seq<T>)
  {
    forall i, j :: 0 <= i < j < |w| ==> w[i] != w[j]
  }

  lemma {:induction false} WalkOf<T(!new)>(next: T -> set<T>, s: T, g: T, n: nat) returns (w: seq<T>)
    requires PathN(next, s, g, n)
    ensures IsWalk(next, w) && w[0] == s && w[|w| - 1] == g
    decreases n
  {
    if n == 0 {
      w := [s];
    } else {
      var m :| m in next(s) && PathN(next, m, g, n - 1);
      var rest := WalkOf(next, m, g, n - 1);
      w := [s] + rest;
    }
  }

  /** Cutting loops out of a walk leaves a walk between the same ends with no repetition. */
  lemma {:induction false} SimpleWalk<T(!new)>(next: T -> set<T>, w: seq<T>) returns (v: seq<T>)
    requires IsWalk(next, w)
    ensures IsWalk(next, v) && Simple(v) && v[0] == w[0] && v[|v| - 1] == w[|w| - 1]
    decreases |w|
  {
    if Simple(w) {
      v := w;
    } else {
      var i, j :| 0 <= i < j < |w| && w[i] == w[j];
      var cut := w[..i] + w[j..];
      forall k | 0 <= k < |cut| - 1 ensures cut[k + 1] in next(cut[k]) {
        if k == i - 1 { assert cut[k + 1] == w[i]; }
      }
      v := SimpleWalk(next, cut);
    }
  }

  lemma {:induction false} WalkPath<T(!new)>(next: T -> set<T>, w: seq<T>)
    requires IsWalk(next, w)
    ensures PathN(next, w[0], w[|w| - 1], |w| - 1)
    decreases |w|
  {
    if |w| > 1 {
      assert IsWalk(next, w[1..]);
      WalkPath(next, w[1..]);
    }
  }

  // ---- role rewrites ------------------------------------------------------------------

  /** NoObject is the NULL object a scopeless binding contributes. */
  datatype Obj = FolderObj(id: Id) | AssetObj(id: Id) | NoObject

  datatype Goal = Goal(role: Id, obj: Obj)

  function ObjOf(s: Scope): Obj
  {
    if s.asset.Some? then AssetObj(s.asset.value)
    else if s.folder.Some? then FolderObj(s.folder.value)
    else NoObject
  }

  /** The object a parent rewrite reads from. */
  function ParentObj(t: Tree, o: Obj): Option<Obj>
  {
    match o
    case AssetObj(a) => if a in t.assets then Some(FolderObj(t.assets[a].folder)) else None
    case FolderObj(f) =>
      if f in t.folders && t.folders[f].parent.Some? then Some(FolderObj(t.folders[f].parent.value)) else None
    case NoObject => None
  }

  /** authz_role_goals, one step back: what would confer g. */
  function GoalStep(t: Tree, grants: set<RoleGrant>, g: Goal): set<Goal>
  {
    (set e | e in grants && e.role == g.role && e.via == SameObject :: Goal(e.source, g.obj))
    + (match ParentObj(t, g.obj)
       case None => {}
       case Some(o) => set e | e in grants && e.role == g.role && e.via == Parent :: Goal(e.source, o))
  }

  /** authz_held_impl, one step forward: what holding h confers, on the same object and on the
      child folders and assets of a held folder. */
  function HeldStep(t: Tree, grants: set<RoleGrant>, h: Goal): set<Goal>
  {
    (set e | e in grants && e.source == h.role && e.via == SameObject :: Goal(e.role, h.obj))
    + (set e, f | e in grants && e.source == h.role && e.via == Parent
         && f in t.folders && t.folders[f].parent.Some? && h.obj == FolderObj(t.folders[f].parent.value)
         :: Goal(e.role, FolderObj(f)))
    + (set e, a | e in grants && e.source == h.role && e.via == Parent
         && a in t.assets && h.obj == FolderObj(t.assets[a].folder)
         :: Goal(e.role, AssetObj(a)))
  }

  /** The two queries walk the same edges in opposite directions. */
  lemma StepsConverse(t: Tree, grants: set<RoleGrant>, a: Goal, b: Goal)
    ensures b in HeldStep(t, grants, a) <==> a in GoalStep(t, grants, b)
  {
  }

  // ---- the queries over one database ------------------------------------------------

  datatype Membership = Membership(group: Id, member: Subject)

  /** A live row of active_access_grants. */
  datatype JitGrant = JitGrant(role: Id, asset: Id, user: Id)

  datatype Facts = Facts(
    tree: Tree,
    rewrites: set<RoleGrant>,
    bindings: map<Id, BindingRow>,
    jit: set<JitGrant>,
    members: set<Membership>,
    active: set<Id>)

  function Forward(f: Facts): Goal -> set<Goal> { h => HeldStep(f.tree, f.rewrites, h) }
  function Backward(f: Facts): Goal -> set<Goal> { g => GoalStep(f.tree, f.rewrites, g) }
  function GroupsOf(f: Facts): Id -> set<Id> { g => DirectGroups(f, Group(g)) }

  function DirectGroups(f: Facts, s: Subject): set<Id>
  {
    set m | m in f.members && m.member == s :: m.group
  }

  /** authz_user_groups: membership closed over nested groups. */
  ghost predicate InGroup(f: Facts, user: Id, g: Id)
  {
    FromSet(GroupsOf(f), DirectGroups(f, User(user)), g)
  }

  ghost predicate IsSubject(f: Facts, user: Id, s: Subject)
  {
    match s case User(u) => u == user case Group(g) => InGroup(f, user, g)
  }

  /** Binding b gives the user exactly goal g. */
  ghost predicate Confers(f: Facts, user: Id, b: Id, g: Goal)
  {
    && b in f.bindings && f.bindings[b].role == g.role && ObjOf(f.bindings[b].scope) == g.obj
    && IsSubject(f, user, f.bindings[b].subject)
  }

  /** The base rows: standing bindings, and live grants when they count. A deactivated user has none. */
  ghost predicate Base(f: Facts, user: Id, withGrants: bool, g: Goal)
  {
    && user in f.active
    && (|| (exists b :: Confers(f, user, b, g))
        || (withGrants && g.obj.AssetObj? && JitGrant(g.role, g.obj.id, user) in f.jit))
  }

  /** What the user holds: reachable from a base row by rewrites. */
  ghost predicate Holds(f: Facts, user: Id, withGrants: bool, g: Goal)
  {
    exists b :: Base(f, user, withGrants, b) && Path(Forward(f), b, g)
  }

  /** Some rewrite of this kind confers g.role, and its source is held on this object. */
  ghost predicate Conferred(f: Facts, user: Id, withGrants: bool, g: Goal, via: Via, obj: Obj)
  {
    exists e :: e in f.rewrites && e.role == g.role && e.via == via && Holds(f, user, withGrants, Goal(e.source, obj))
  }

  /** The folder directly above. */
  ghost predicate Below(t: Tree, o: Obj, folder: Id)
  {
    || (o.FolderObj? && o.id in t.folders && t.folders[o.id].parent == Some(folder))
    || (o.AssetObj? && o.id in t.assets && t.assets[o.id].folder == folder)
  }

  lemma {:induction false} PathLast<T(!new)>(next: T -> set<T>, s: T, g: T, n: nat) returns (m: T)
    requires n > 0 && PathN(next, s, g, n)
    ensures PathN(next, s, m, n - 1) && g in next(m)
    decreases n
  {
    var x :| x in next(s) && PathN(next, x, g, n - 1);
    if n == 1 {
      m := s;
    } else {
      m := PathLast(next, x, g, n - 1);
    }
  }

  lemma HoldsStep(f: Facts, user: Id, withGrants: bool, h: Goal, g: Goal)
    requires Holds(f, user, withGrants, h) && g in HeldStep(f.tree, f.rewrites, h)
    ensures Holds(f, user, withGrants, g)
  {
    var b :| Base(f, user, withGrants, b) && Path(Forward(f), b, h);
    var n: nat :| PathN(Forward(f), b, h, n);
    PathSnoc(Forward(f), b, h, g, n);
    assert Path(Forward(f), b, g);
  }

  /** A role is held on an object exactly if a base row says so, a same-object rewrite confers it from a role
      held there, or a parent rewrite confers it from a role held on the folder directly above. */
  lemma HoldsExactly(f: Facts, user: Id, withGrants: bool, g: Goal)
    ensures Holds(f, user, withGrants, g) <==>
      || Base(f, user, withGrants, g)
      || Conferred(f, user, withGrants, g, SameObject, g.obj)
      || exists folder :: Below(f.tree, g.obj, folder) && Conferred(f, user, withGrants, g, Parent, FolderObj(folder))
  {
    if Holds(f, user, withGrants, g) { HeldIsDerived(f, user, withGrants, g); }
    if Base(f, user, withGrants, g) {
      assert PathN(Forward(f), g, g, 0);
      assert Path(Forward(f), g, g);
    }
    if Conferred(f, user, withGrants, g, SameObject, g.obj) {
      var e :| e in f.rewrites && e.role == g.role && e.via == SameObject &&
        Holds(f, user, withGrants, Goal(e.source, g.obj));
      HoldsStep(f, user, withGrants, Goal(e.source, g.obj), g);
    }
    if folder :| Below(f.tree, g.obj, folder) && Conferred(f, user, withGrants, g, Parent, FolderObj(folder)) {
      var e :| e in f.rewrites && e.role == g.role && e.via == Parent &&
        Holds(f, user, withGrants, Goal(e.source, FolderObj(folder)));
      HoldsStep(f, user, withGrants, Goal(e.source, FolderObj(folder)), g);
    }
  }

  lemma HeldIsDerived(f: Facts, user: Id, withGrants: bool, g: Goal)
    requires Holds(f, user, withGrants, g)
    ensures
      || Base(f, user, withGrants, g)
      || Conferred(f, user, withGrants, g, SameObject, g.obj)
      || exists folder :: Below(f.tree, g.obj, folder) && Conferred(f, user, withGrants, g, Parent, FolderObj(folder))
  {
    var b :| Base(f, user, withGrants, b) && Path(Forward(f), b, g);
    var n: nat :| PathN(Forward(f), b, g, n);
    if n > 0 {
      var h := PathLast(Forward(f), b, g, n);
      assert Path(Forward(f), b, h);
      assert Holds(f, user, withGrants, h);
      StepDerives(f, user, withGrants, h, g);
    }
  }

  lemma StepDerives(f: Facts, user: Id, withGrants: bool, h: Goal, g: Goal)
    requires Holds(f, user, withGrants, h) && g in HeldStep(f.tree, f.rewrites, h)
    ensures
      || Conferred(f, user, withGrants, g, SameObject, g.obj)
      || exists folder :: Below(f.tree, g.obj, folder) && Conferred(f, user, withGrants, g, Parent, FolderObj(folder))
  {
    StepsConverse(f.tree, f.rewrites, h, g);
    if e :| e in f.rewrites && e.role == g.role && e.via == SameObject && h == Goal(e.source, g.obj) {
      assert Conferred(f, user, withGrants, g, SameObject, g.obj);
    } else {
      var e :| e in f.rewrites && e.role == g.role && e.via == Parent && h.role == e.source;
      var folder := h.obj.id;
      assert h == Goal(e.source, FolderObj(folder)) && Below(f.tree, g.obj, folder);
      assert Conferred(f, user, withGrants, g, Parent, FolderObj(folder));
    }
  }

  method UserGroups(f: Facts, user: Id) returns (groups: set<Id>)
    ensures forall g :: g in groups <==> InGroup(f, user, g)
  {
    groups := Closure(DirectGroups(f, User(user)), GroupsOf(f), set m | m in f.members :: m.group);
  }

  /** A user is in a group exactly as a member of it, or through a group they are in. */
  lemma InGroupExactly(f: Facts, user: Id, g: Id)
    ensures InGroup(f, user, g) <==>
      || Membership(g, User(user)) in f.members
      || exists h :: InGroup(f, user, h) && Membership(g, Group(h)) in f.members
  {
    var next, start := GroupsOf(f), DirectGroups(f, User(user));
    if InGroup(f, user, g) {
      var s :| s in start && Path(next, s, g);
      var n: nat :| PathN(next, s, g, n);
      if n > 0 {
        var h := PathLast(next, s, g, n);
        assert Path(next, s, h);
        assert InGroup(f, user, h) && Membership(g, Group(h)) in f.members;
      }
    }
    if Membership(g, User(user)) in f.members {
      assert Membership(g, User(user)).group in start;
      assert PathN(next, g, g, 0);
    }
    if h :| InGroup(f, user, h) && Membership(g, Group(h)) in f.members {
      assert Membership(g, Group(h)).group in next(h);
      FromSetSnoc(next, start, h, g);
    }
  }

  /** A deactivated user holds nothing, anywhere. */
  lemma DeactivatedHoldsNothing(f: Facts, user: Id, withGrants: bool, g: Goal)
    requires user !in f.active
    ensures !Holds(f, user, withGrants, g) && !GloballyHolds(f, user, g.role)
  {
  }

  /** Standing answers are those with no grant in the table. */
  lemma StandingIgnoresGrants(f: Facts, user: Id, g: Goal)
    ensures Holds(f, user, false, g) <==> Holds(f.(jit := {}), user, true, g)
  {
    var f' := f.(jit := {});
    forall b ensures Base(f, user, false, b) <==> Base(f', user, true, b) {
      forall i ensures Confers(f, user, i, b) <==> Confers(f', user, i, b) { SameSubjects(f, f', user, i); }
    }
    forall b ensures Path(Forward(f), b, g) <==> Path(Forward(f'), b, g) { SamePaths(f, f', b, g); }
  }

  lemma SameSubjects(f: Facts, f': Facts, user: Id, b: Id)
    requires f' == f.(jit := {})
    ensures b in f.bindings ==>
      (IsSubject(f, user, f.bindings[b].subject) <==> IsSubject(f', user, f.bindings[b].subject))
  {
    forall x | InGroup(f, user, x) ensures InGroup(f', user, x) { SameGroups(f, f', user, x); }
    forall x | InGroup(f', user, x) ensures InGroup(f, user, x) { SameGroups(f', f, user, x); }
  }

  lemma SameGroups(f: Facts, f': Facts, user: Id, g: Id)
    requires f'.members == f.members && InGroup(f, user, g)
    ensures InGroup(f', user, g)
  {
    var s :| s in DirectGroups(f, User(user)) && Path(GroupsOf(f), s, g);
    var n: nat :| PathN(GroupsOf(f), s, g, n);
    PathsGrow(GroupsOf(f), GroupsOf(f'), s, g, n);
    assert Path(GroupsOf(f'), s, g);
  }

  lemma SamePaths(f: Facts, f': Facts, b: Goal, g: Goal)
    requires f'.tree == f.tree && f'.rewrites == f.rewrites
    ensures Path(Forward(f), b, g) <==> Path(Forward(f'), b, g)
  {
    if Path(Forward(f), b, g) {
      var n: nat :| PathN(Forward(f), b, g, n);
      PathsGrow(Forward(f), Forward(f'), b, g, n);
    }
    if Path(Forward(f'), b, g) {
      var n: nat :| PathN(Forward(f'), b, g, n);
      PathsGrow(Forward(f'), Forward(f), b, g, n);
    }
  }

  method BaseRows(f: Facts, user: Id, withGrants: bool) returns (base: set<Goal>)
    ensures forall g :: g in base <==> Base(f, user, withGrants, g)
  {
    if user !in f.active {
      return {};
    }
    var groups := UserGroups(f, user);
    var standing := set b | b in f.bindings
      && (match f.bindings[b].subject case User(u) => u == user case Group(g) => g in groups)
      :: Goal(f.bindings[b].role, ObjOf(f.bindings[b].scope));
    var granted := set j | j in f.jit && j.user == user :: Goal(j.role, AssetObj(j.asset));
    base := if withGrants then standing + granted else standing;
    forall g ensures g in standing <==> exists b :: Confers(f, user, b, g) {
      forall b | Confers(f, user, b, g) ensures g in standing {
        assert g == Goal(f.bindings[b].role, ObjOf(f.bindings[b].scope));
      }
      if g in standing {
        var b :| b in f.bindings && g == Goal(f.bindings[b].role, ObjOf(f.bindings[b].scope))
          && (match f.bindings[b].subject case User(u) => u == user case Group(gr) => gr in groups);
        assert Confers(f, user, b, g);
      }
    }
    forall g ensures g in granted <==> g.obj.AssetObj? && JitGrant(g.role, g.obj.id, user) in f.jit {
      if g.obj.AssetObj? && JitGrant(g.role, g.obj.id, user) in f.jit {
        var j := JitGrant(g.role, g.obj.id, user);
        assert g == Goal(j.role, AssetObj(j.asset));
      }
    }
  }

  /** Every role a step can mention. */
  function RolesOf(f: Facts, extra: set<Goal>): set<Id>
  {
    (set g | g in extra :: g.role) + (set e | e in f.rewrites :: e.role) + (set e | e in f.rewrites :: e.source)
  }

  /** Every object a step can mention. */
  function ObjsOf(t: Tree, extra: set<Goal>): set<Obj>
  {
    (set g | g in extra :: g.obj)
    + (set x | x in t.folders :: FolderObj(x)) + (set a | a in t.assets :: AssetObj(a))
    + (set a | a in t.assets :: FolderObj(t.assets[a].folder))
    + (set x | x in t.folders && t.folders[x].parent.Some? :: FolderObj(t.folders[x].parent.value))
  }

  /** A finite set of goals closed under both step functions. */
  function Universe(f: Facts, extra: set<Goal>): set<Goal>
  {
    set r, o | r in RolesOf(f, extra) && o in ObjsOf(f.tree, extra) :: Goal(r, o)
  }

  lemma InUniverse(f: Facts, extra: set<Goal>, g: Goal)
    ensures g in Universe(f, extra) <==> g.role in RolesOf(f, extra) && g.obj in ObjsOf(f.tree, extra)
  {
  }

  lemma ForwardStays(f: Facts, extra: set<Goal>, g: Goal, b: Goal)
    requires g.obj in ObjsOf(f.tree, extra) && b in HeldStep(f.tree, f.rewrites, g)
    ensures b.role in RolesOf(f, extra) && b.obj in ObjsOf(f.tree, extra)
  {
  }

  lemma BackwardStays(f: Facts, extra: set<Goal>, g: Goal, b: Goal)
    requires g.obj in ObjsOf(f.tree, extra) && b in GoalStep(f.tree, f.rewrites, g)
    ensures b.role in RolesOf(f, extra) && b.obj in ObjsOf(f.tree, extra)
  {
  }

  lemma UniverseClosed(f: Facts, extra: set<Goal>)
    ensures extra <= Universe(f, extra)
    ensures ClosedUnder(Forward(f), Universe(f, extra)) && ClosedUnder(Backward(f), Universe(f, extra))
  {
    var u := Universe(f, extra);
    forall g | g in extra ensures g in u { InUniverse(f, extra, g); }
    forall g, b | g in u && b in Forward(f)(g) ensures b in u {
      InUniverse(f, extra, g);
      ForwardStays(f, extra, g, b);
      InUniverse(f, extra, b);
    }
    forall g, b | g in u && b in Backward(f)(g) ensures b in u {
      InUniverse(f, extra, g);
      BackwardStays(f, extra, g, b);
      InUniverse(f, extra, b);
    }
  }

  /** authz_held / authz_held_standing. */
  method Held(f: Facts, user: Id, withGrants: bool) returns (held: set<Goal>)
    ensures forall g :: g in held <==> Holds(f, user, withGrants, g)
  {
    var base := BaseRows(f, user, withGrants);
    UniverseClosed(f, base);
    held := Closure(base, Forward(f), Universe(f, base));
  }

  function GlobalStep(f: Facts): Id -> set<Id>
  {
    r => set e | e in f.rewrites && e.source == r :: e.role
  }

  /** A role held globally: a scopeless binding closed over rewrites of both kinds, with no object. */
  ghost predicate GloballyHolds(f: Facts, user: Id, role: Id)
  {
    exists b :: Base(f, user, false, Goal(b, NoObject)) && Path(GlobalStep(f), b, role)
  }

  /** A role is held globally exactly if a scopeless binding gives it, or any rewrite confers it from a role
      held globally. */
  lemma GloballyHoldsExactly(f: Facts, user: Id, role: Id)
    ensures GloballyHolds(f, user, role) <==>
      || Base(f, user, false, Goal(role, NoObject))
      || exists e :: e in f.rewrites && e.role == role && GloballyHolds(f, user, e.source)
  {
    if GloballyHolds(f, user, role) {
      var b :| Base(f, user, false, Goal(b, NoObject)) && Path(GlobalStep(f), b, role);
      var n: nat :| PathN(GlobalStep(f), b, role, n);
      if n > 0 {
        var m := PathLast(GlobalStep(f), b, role, n);
        assert Path(GlobalStep(f), b, m);
        var e :| e in f.rewrites && e.source == m && e.role == role;
        assert GloballyHolds(f, user, e.source);
      }
    }
    if Base(f, user, false, Goal(role, NoObject)) {
      assert PathN(GlobalStep(f), role, role, 0);
      assert Path(GlobalStep(f), role, role);
    }
    if e :| e in f.rewrites && e.role == role && GloballyHolds(f, user, e.source) {
      var b :| Base(f, user, false, Goal(b, NoObject)) && Path(GlobalStep(f), b, e.source);
      var n: nat :| PathN(GlobalStep(f), b, e.source, n);
      PathSnoc(GlobalStep(f), b, e.source, role, n);
      assert Path(GlobalStep(f), b, role);
    }
  }

  /** authz_global_held. */
  method GlobalHeld(f: Facts, user: Id) returns (roles: set<Id>)
    ensures forall r :: r in roles <==> GloballyHolds(f, user, r)
  {
    var base := BaseRows(f, user, false);
    var start := set g | g in base && g.obj == NoObject :: g.role;
    forall r ensures r in start <==> Base(f, user, false, Goal(r, NoObject)) {
      if Goal(r, NoObject) in base { assert Goal(r, NoObject).role in start; }
    }
    roles := Closure(start, GlobalStep(f), start + (set e | e in f.rewrites :: e.role));
  }

  /** HoldsRole / HoldsRoleStanding answer by backward search what the forward closure holds. */
  method HoldsRole(f: Facts, user: Id, withGrants: bool, role: Id, obj: Obj) returns (r: bool)
    requires obj != NoObject
    ensures r <==> Holds(f, user, withGrants, Goal(role, obj))
  {
    var seed := Goal(role, obj);
    UniverseClosed(f, {seed});
    var goals := Closure({seed}, Backward(f), Universe(f, {seed}));
    var base := BaseRows(f, user, withGrants);
    r := exists g :: g in goals && g in base;
    forall b ensures b in goals <==> Path(Forward(f), b, seed) {
      BackwardFinds(f, seed, b);
      if b in goals { assert FromSet(Backward(f), {seed}, b); }
      if Path(Backward(f), seed, b) { assert seed in {seed}; }
    }
  }

  lemma BackwardFinds(f: Facts, seed: Goal, b: Goal)
    ensures Path(Backward(f), seed, b) <==> Path(Forward(f), b, seed)
  {
    forall x, y ensures y in Forward(f)(x) <==> x in Backward(f)(y) { StepsConverse(f.tree, f.rewrites, x, y); }
    if Path(Forward(f), b, seed) {
      var n: nat :| PathN(Forward(f), b, seed, n);
      PathReverse(Forward(f), Backward(f), b, seed, n);
    }
    if Path(Backward(f), seed, b) {
      var n: nat :| PathN(Backward(f), seed, b, n);
      PathReverse(Backward(f), Forward(f), seed, b, n);
    }
  }

  /** One ExplainRole row: a repetition-free chain of goals down to a satisfied one. */
  ghost predicate Explains(f: Facts, user: Id, seed: Goal, w: seq<Goal>)
  {
    IsWalk(Backward(f), w) && Simple(w) && w[0] == seed && Base(f, user, true, w[|w| - 1])
  }

  /** The in-path cycle guard loses nothing: there is an explanation exactly when the role is held. */
  lemma ExplainedIffHeld(f: Facts, user: Id, seed: Goal)
    ensures (exists w :: Explains(f, user, seed, w)) <==> Holds(f, user, true, seed)
  {
    if w :| Explains(f, user, seed, w) {
      WalkPath(Backward(f), w);
      BackwardFinds(f, seed, w[|w| - 1]);
    }
    if Holds(f, user, true, seed) {
      var b :| Base(f, user, true, b) && Path(Forward(f), b, seed);
      BackwardFinds(f, seed, b);
      var n: nat :| PathN(Backward(f), seed, b, n);
      var w := WalkOf(Backward(f), seed, b, n);
      var v := SimpleWalk(Backward(f), w);
      assert Explains(f, user, seed, v);
    }
  }
}
