/** The catalog and access services over their tables: what the code computes before it writes,
    proved to decide what Catalog demands of the tables after the write. */
module CatalogService {
  import opened Basics
  import opened Forest
  import opened Ltree
  import opened Catalog
  import opened CatalogSafety

  /** homeContained: a global role is never a constraint. */
  predicate HomeContained(home: Option<Id>, ancestors: set<Id>)
  {
    home.None? || home.value in ancestors
  }

  /** The closed formula for a folder's ancestors after the move, from sets read before it. */
  ghost function NewAncestors(p: Parents, id: Id, np: Option<Id>, node: Id): set<Id>
  {
    (Ancestors(p, node) * Subtree(p, id)) + Above(p, np)
  }

  /** Testing the formula is testing containment in the moved tree. */
  lemma FormulaDecides(t: Tree, roles: Homes, id: Id, np: Option<Id>, role: Id, s: Scope)
    requires ForestOk(t.folders) && id in t.folders && role in roles
    requires np.Some? ==> np.value !in Subtree(ParentsOf(t.folders), id)
    requires ScopedIn(t.assets, Subtree(ParentsOf(t.folders), id), s)
    ensures Contained(t.(folders := Reparent(t.folders, id, np)), roles, role, s)
            <==> HomeContained(roles[role], NewAncestors(ParentsOf(t.folders), id, np, ScopeNode(t.assets, s).value))
  {
    ReparentShape(t.folders, id, np);
    MoveInside(ParentsOf(t.folders), id, np, ScopeNode(t.assets, s).value);
  }

  lemma FormulaDecidesAll(t: Tree, roles: Homes, id: Id, np: Option<Id>, refs: set<Id>, s: Scope)
    requires ForestOk(t.folders) && id in t.folders && refs <= roles.Keys
    requires np.Some? ==> np.value !in Subtree(ParentsOf(t.folders), id)
    requires ScopedIn(t.assets, Subtree(ParentsOf(t.folders), id), s)
    ensures forall r :: r in refs ==>
      (Contained(t.(folders := Reparent(t.folders, id, np)), roles, r, s)
       <==> HomeContained(roles[r], NewAncestors(ParentsOf(t.folders), id, np, ScopeNode(t.assets, s).value)))
  {
    forall r | r in refs
      ensures Contained(t.(folders := Reparent(t.folders, id, np)), roles, r, s)
              <==> HomeContained(roles[r], NewAncestors(ParentsOf(t.folders), id, np, ScopeNode(t.assets, s).value))
    {
      FormulaDecides(t, roles, id, np, r, s);
    }
  }

  lemma PolicyRefsIn(db: Db, q: Id)
    requires Inv(db) && q in db.policies
    ensures RoleRefs(db.policies[q]) <= db.roles.Keys
  {
  }

  lemma AssetMoveDecides(t: Tree, roles: Homes, id: Id, name: string, dest: Id, role: Id, s: Scope)
    requires role in roles && s.folder.None? && s.asset == Some(id)
    ensures Contained(MoveAsset(t, id, name, dest), roles, role, s)
            <==> HomeContained(roles[role], Ancestors(ParentsOf(t.folders), dest))
  {
  }

  class Service {
    var folders: map<Id, FolderRow>
    var assets: map<Id, AssetRow>
    var names: Names
    var roles: Homes
    var groups: Homes
    var users: set<Id>
    var bindings: map<Id, BindingRow>
    var policies: map<Id, PolicyRow>
    var subjects: map<Id, PolicySubject>
    var rewrites: set<RoleGrant>

    ghost function State(): Db
      reads this
    {
      Db(Tree(folders, assets), names, roles, groups, users, bindings, policies, subjects, rewrites)
    }

    ghost predicate Valid()
      reads this
    {
      Inv(State())
    }

    constructor ()
      ensures State() == EMPTY && Valid()
    {
      folders, assets, names, roles, bindings, policies := map[], map[], map[], map[], map[], map[];
      groups, users, subjects, rewrites := map[], {}, map[], {};
      new;
      Reachable([]);
    }

    // ---- move validation --------------------------------------------------------------

    /** newAnc: the post-move ancestors of one scope folder, memoised. */
    method NewAnc(cache: map<Id, set<Id>>, node: Id, ghost id: Id, ghost np: Option<Id>, sub: set<Id>,
        parentAnc: set<Id>)
      returns (anc: set<Id>, cache': map<Id, set<Id>>)
      requires Valid()
      requires sub == Subtree(ParentsOf(folders), id) && parentAnc == Above(ParentsOf(folders), np)
      requires forall n :: n in cache ==> cache[n] == NewAncestors(ParentsOf(folders), id, np, n)
      ensures anc == NewAncestors(ParentsOf(folders), id, np, node)
      ensures forall n :: n in cache' ==> cache'[n] == NewAncestors(ParentsOf(folders), id, np, n)
    {
      if node in cache {
        return cache[node], cache;
      }
      var cur := AncestorsAndSelf(ParentsOf(folders), node);
      anc := (cur * sub) + parentAnc;
      cache' := cache[node := anc];
    }

    method BindingMoveOk(b: Id, anc: set<Id>, ghost id: Id, ghost np: Option<Id>) returns (ok: bool)
      requires Valid() && id in folders && b in bindings
      requires np.Some? ==> np.value !in Subtree(ParentsOf(folders), id)
      requires ScopedIn(assets, Subtree(ParentsOf(folders), id), bindings[b].scope)
      requires anc == NewAncestors(ParentsOf(folders), id, np, ScopeNode(assets, bindings[b].scope).value)
      ensures ok <==> Contained(Tree(Reparent(folders, id, np), assets), roles, bindings[b].role, bindings[b].scope)
    {
      assert RowOk(Tree(folders, assets), roles, bindings[b].role, bindings[b].scope);
      FormulaDecides(Tree(folders, assets), roles, id, np, bindings[b].role, bindings[b].scope);
      ok := HomeContained(roles[bindings[b].role], anc);
    }

    method BindingsMoveOk(id: Id, np: Option<Id>, sub: set<Id>, parentAnc: set<Id>) returns (ok: bool)
      requires Valid() && id in folders
      requires sub == Subtree(ParentsOf(folders), id) && parentAnc == Above(ParentsOf(folders), np)
      requires np.Some? ==> np.value !in sub
      ensures ok <==> forall b :: b in bindings && ScopedIn(assets, sub, bindings[b].scope) ==>
                Contained(Tree(Reparent(folders, id, np), assets), roles, bindings[b].role, bindings[b].scope)
    {
      var cache: map<Id, set<Id>> := map[];
      var todo := bindings.Keys;
      while todo != {}
        invariant todo <= bindings.Keys
        invariant forall n :: n in cache ==> cache[n] == NewAncestors(ParentsOf(folders), id, np, n)
        invariant forall b :: b in bindings && b !in todo && ScopedIn(assets, sub, bindings[b].scope) ==>
                    Contained(Tree(Reparent(folders, id, np), assets), roles, bindings[b].role, bindings[b].scope)
        decreases todo
      {
        var b :| b in todo;
        var node := ScopeNode(assets, bindings[b].scope);
        if node.Some? && node.value in sub {
          var anc;
          anc, cache := NewAnc(cache, node.value, id, np, sub, parentAnc);
          var one := BindingMoveOk(b, anc, id, np);
          if !one {
            return false;
          }
        }
        todo := todo - {b};
      }
      return true;
    }

    /** One policy's role references against one ancestor set that decides them. */
    method RefsContained(refs: set<Id>, anc: set<Id>, ghost t': Tree, ghost s: Scope) returns (ok: bool)
      requires forall r :: r in refs ==> r in roles && (Contained(t', roles, r, s) <==> HomeContained(roles[r], anc))
      ensures ok <==> forall r :: r in refs ==> Contained(t', roles, r, s)
    {
      var todo := refs;
      while todo != {}
        invariant todo <= refs
        invariant forall r :: r in refs && r !in todo ==> Contained(t', roles, r, s)
        decreases todo
      {
        var r :| r in todo;
        if !HomeContained(roles[r], anc) {
          return false;
        }
        todo := todo - {r};
      }
      return true;
    }

    method PolicyMoveOk(q: Id, anc: set<Id>, ghost id: Id, ghost np: Option<Id>) returns (ok: bool)
      requires Valid() && id in folders && q in policies
      requires np.Some? ==> np.value !in Subtree(ParentsOf(folders), id)
      requires ScopedIn(assets, Subtree(ParentsOf(folders), id), policies[q].scope)
      requires anc == NewAncestors(ParentsOf(folders), id, np, ScopeNode(assets, policies[q].scope).value)
      ensures ok <==> forall r :: r in RoleRefs(policies[q]) ==>
                Contained(Tree(Reparent(folders, id, np), assets), roles, r, policies[q].scope)
    {
      PolicyRefsIn(State(), q);
      FormulaDecidesAll(Tree(folders, assets), roles, id, np, RoleRefs(policies[q]), policies[q].scope);
      ok := RefsContained(RoleRefs(policies[q]), anc, Tree(Reparent(folders, id, np), assets), policies[q].scope);
    }

    method AssetPolicyMoveOk(q: Id, destAnc: set<Id>, ghost id: Id, ghost name: string, ghost dest: Id)
      returns (ok: bool)
      requires Valid() && id in assets && q in policies && policies[q].scope.asset == Some(id)
      requires destAnc == Ancestors(ParentsOf(folders), dest)
      ensures ok <==> forall r :: r in RoleRefs(policies[q]) ==>
                Contained(MoveAsset(Tree(folders, assets), id, name, dest), roles, r, policies[q].scope)
    {
      assert RowOk(Tree(folders, assets), roles, policies[q].role, policies[q].scope);
      forall r | r in RoleRefs(policies[q])
        ensures Contained(MoveAsset(Tree(folders, assets), id, name, dest), roles, r, policies[q].scope)
                <==> HomeContained(roles[r], destAnc)
      {
        AssetMoveDecides(Tree(folders, assets), roles, id, name, dest, r, policies[q].scope);
      }
      ok := RefsContained(RoleRefs(policies[q]), destAnc, MoveAsset(Tree(folders, assets), id, name, dest),
        policies[q].scope);
    }

    method PoliciesMoveOk(id: Id, np: Option<Id>, sub: set<Id>, parentAnc: set<Id>) returns (ok: bool)
      requires Valid() && id in folders
      requires sub == Subtree(ParentsOf(folders), id) && parentAnc == Above(ParentsOf(folders), np)
      requires np.Some? ==> np.value !in sub
      ensures ok <==> forall q, r ::
                q in policies && ScopedIn(assets, sub, policies[q].scope) && r in RoleRefs(policies[q]) ==>
                Contained(Tree(Reparent(folders, id, np), assets), roles, r, policies[q].scope)
    {
      var cache: map<Id, set<Id>> := map[];
      var todo := policies.Keys;
      while todo != {}
        invariant todo <= policies.Keys
        invariant forall n :: n in cache ==> cache[n] == NewAncestors(ParentsOf(folders), id, np, n)
        invariant forall q, r ::
              q in policies && q !in todo && ScopedIn(assets, sub, policies[q].scope) && r in RoleRefs(policies[q]) ==>
              Contained(Tree(Reparent(folders, id, np), assets), roles, r, policies[q].scope)
        decreases todo
      {
        var q :| q in todo;
        var node := ScopeNode(assets, policies[q].scope);
        if node.Some? && node.value in sub {
          var anc;
          anc, cache := NewAnc(cache, node.value, id, np, sub, parentAnc);
          var one := PolicyMoveOk(q, anc, id, np);
          if !one {
            return false;
          }
        }
        todo := todo - {q};
      }
      return true;
    }

    /** validateFolderMove accepts exactly the moves after which everything scoped in the moved
        subtree is contained. */
    method ValidateFolderMove(id: Id, np: Option<Id>) returns (ok: bool)
      requires Valid() && id in folders
      requires np.Some? ==> np.value !in Subtree(ParentsOf(folders), id)
      ensures ok <==> AllContainedIn(State(), Tree(Reparent(folders, id, np), assets), Subtree(ParentsOf(folders), id))
    {
      var sub := SubtreeIds(ParentsOf(folders), id);
      var parentAnc: set<Id> := {};
      if np.Some? {
        parentAnc := AncestorsAndSelf(ParentsOf(folders), np.value);
      }
      ok := BindingsMoveOk(id, np, sub, parentAnc);
      if ok {
        ok := PoliciesMoveOk(id, np, sub, parentAnc);
      }
    }

    method AssetBindingsMoveOk(id: Id, name: string, dest: Id, destAnc: set<Id>) returns (ok: bool)
      requires Valid() && id in assets && destAnc == Ancestors(ParentsOf(folders), dest)
      ensures ok <==> forall b :: b in bindings && bindings[b].scope.asset == Some(id) ==>
                Contained(MoveAsset(Tree(folders, assets), id, name, dest), roles, bindings[b].role, bindings[b].scope)
    {
      var todo := bindings.Keys;
      while todo != {}
        invariant todo <= bindings.Keys
        invariant forall b :: b in bindings && b !in todo && bindings[b].scope.asset == Some(id) ==>
                    Contained(MoveAsset(Tree(folders, assets), id, name, dest), roles, bindings[b].role,
                      bindings[b].scope)
        decreases todo
      {
        var b :| b in todo;
        if bindings[b].scope.asset == Some(id) {
          assert RowOk(Tree(folders, assets), roles, bindings[b].role, bindings[b].scope);
          AssetMoveDecides(Tree(folders, assets), roles, id, name, dest, bindings[b].role, bindings[b].scope);
          if !HomeContained(roles[bindings[b].role], destAnc) {
            return false;
          }
        }
        todo := todo - {b};
      }
      return true;
    }

    /** validateAssetMove over the asset's own bindings and policies. */
    method ValidateAssetMove(id: Id, name: string, dest: Id) returns (ok: bool)
      requires Valid() && id in assets
      ensures ok <==> AssetMoveSafe(State(), id, MoveAsset(Tree(folders, assets), id, name, dest))
    {
      var destAnc := AncestorsAndSelf(ParentsOf(folders), dest);
      ok := AssetBindingsMoveOk(id, name, dest, destAnc);
      if !ok { return; }
      var todo := policies.Keys;
      while todo != {}
        invariant ok && todo <= policies.Keys
        invariant forall q, r ::
                    q in policies && q !in todo && policies[q].scope.asset == Some(id) && r in RoleRefs(policies[q]) ==>
                    Contained(MoveAsset(Tree(folders, assets), id, name, dest), roles, r, policies[q].scope)
        decreases todo
      {
        var q :| q in todo;
        if policies[q].scope.asset == Some(id) {
          ok := AssetPolicyMoveOk(q, destAnc, id, name, dest);
          if !ok { return; }
        }
        todo := todo - {q};
      }
    }

    // ---- catalog writes ---------------------------------------------------------------

    method CreateFolder(id: Id, parent: Option<Id>, name: string) returns (out: Outcome)
      requires Valid()
      modifies this`folders, this`names
      ensures Valid() && Step(State(), out) == Apply(old(State()), OpCreateFolder(id, parent, name))
    {
      CreateFolderKeeps(State(), id, parent, name);
      var path := NewPath(PathsOf(folders), parent, id);
      if path.None? { return Refused(Internal); }
      if !Canonical(name) { return Refused(InvalidArgument); }
      if id in folders || NameKey(parent, name) in names { return Refused(AlreadyExists); }
      folders := folders[id := FolderRow(name, parent, path.value)];
      names := names[NameKey(parent, name) := FolderEntry(id)];
      out := Done;
    }

    /** The cycle guard, the containment check and the foreign key, in order. */
    method CheckFolderMove(id: Id, np: Option<Id>) returns (e: Option<Code>)
      requires Valid() && id in folders
      ensures e == FolderMoveError(State(), id, np)
    {
      if np.Some? {
        var sub := SubtreeIds(ParentsOf(folders), id);
        if np.value in sub { return Some(FailedPrecondition); }
      }
      var ok := ValidateFolderMove(id, np);
      if !ok { return Some(FailedPrecondition); }
      e := if np.Some? && np.value !in folders then Some(InvalidArgument) else None;
    }

    method WriteFolder(id: Id, moved: map<Id, FolderRow>, np: Option<Id>, name: string) returns (out: Outcome)
      requires id in moved
      modifies this`folders, this`names
      ensures Step(State(), out) == PutFolder(old(State()), id, moved, np, name)
    {
      if !Canonical(name) { return Refused(InvalidArgument); }
      var names' := Rename(names, FolderEntry(id), NameKey(np, name));
      if names'.None? { return Refused(AlreadyExists); }
      folders := moved[id := moved[id].(name := name)];
      names := names'.value;
      out := Done;
    }

    /** Checks, then the writes; an error at any point rolls all back. */
    method UpdateFolder(id: Id, name: Option<string>, parent: Option<Option<Id>>) returns (out: Outcome)
      requires Valid()
      modifies this`folders, this`names
      ensures Valid() && Step(State(), out) == Apply(old(State()), OpUpdateFolder(id, name, parent))
    {
      UpdateFolderKeeps(State(), id, name, parent);
      if id !in folders { return Refused(NotFound); }
      var cur := folders[id];
      var newName := if name.Some? then name.value else cur.name;
      var np := if parent.Some? then parent.value else cur.parent;
      if np != cur.parent {
        var e := CheckFolderMove(id, np);
        if e.Some? { return Refused(e.value); }
        out := WriteFolder(id, Reparent(folders, id, np), np, newName);
      } else if newName != cur.name {
        out := WriteFolder(id, folders, np, newName);
      } else {
        out := Done;
      }
    }

    method DeleteFolder(id: Id) returns (out: Outcome)
      requires Valid()
      modifies this`folders, this`names
      ensures Valid() && Step(State(), out) == Apply(old(State()), OpDeleteFolder(id))
    {
      DeleteFolderKeeps(State(), id);
      var db := Db(Tree(folders, assets), names, roles, groups, users, bindings, policies, subjects, rewrites);
      if FolderReferenced(db, id) {
        return Refused(FailedPrecondition);
      }
      folders := folders - {id};
      names := DropEntry(names, FolderEntry(id));
      out := Done;
    }

    method CheckAssetMove(id: Id, name: string, dest: Id) returns (e: Option<Code>)
      requires Valid() && id in assets
      ensures e == AssetMoveError(State(), id, name, dest)
    {
      var ok := ValidateAssetMove(id, name, dest);
      if !ok { return Some(FailedPrecondition); }
      e := if dest !in folders then Some(InvalidArgument) else None;
    }

    method WriteAsset(id: Id, name: string, dest: Id) returns (out: Outcome)
      modifies this`assets, this`names
      ensures Step(State(), out) == PutAsset(old(State()), id, name, dest)
    {
      if !Canonical(name) { return Refused(InvalidArgument); }
      var names' := Rename(names, AssetEntry(id), NameKey(Some(dest), name));
      if names'.None? { return Refused(AlreadyExists); }
      assets := assets[id := AssetRow(name, dest)];
      names := names'.value;
      out := Done;
    }

    method UpdateAsset(id: Id, name: Option<string>, folder: Option<Id>) returns (out: Outcome)
      requires Valid()
      modifies this`assets, this`names
      ensures Valid() && Step(State(), out) == Apply(old(State()), OpUpdateAsset(id, name, folder))
    {
      UpdateAssetKeeps(State(), id, name, folder);
      if id !in assets { return Refused(NotFound); }
      var cur := assets[id];
      var newName := if name.Some? then name.value else cur.name;
      var dest := if folder.Some? then folder.value else cur.folder;
      if dest != cur.folder {
        var e := CheckAssetMove(id, newName, dest);
        if e.Some? { return Refused(e.value); }
        out := WriteAsset(id, newName, dest);
      } else if newName != cur.name {
        out := WriteAsset(id, newName, dest);
      } else {
        out := Done;
      }
    }

    // ---- bindings and policies ----------------------------------------------------------

    /** containedInRoleSubtree. */
    method ContainedInRoleSubtree(role: Id, s: Scope) returns (out: Outcome)
      requires Valid()
      ensures out == CheckContained(State(), role, s)
    {
      if role !in roles { return Refused(InvalidArgument); }
      if roles[role].None? { return Done; }
      var target;
      if s.folder.Some? {
        target := s.folder.value;
      } else if s.asset.Some? {
        if s.asset.value !in assets { return Refused(InvalidArgument); }
        target := assets[s.asset.value].folder;
      } else {
        return Refused(FailedPrecondition);
      }
      var ancestors := AncestorsAndSelf(ParentsOf(folders), target);
      out := if roles[role].value in ancestors then Done else Refused(FailedPrecondition);
    }

    /** CreateRoleBinding; `grantable` is the answer of the no-escalation guard. */
    method CreateRoleBinding(id: Id, row: BindingRow, grantable: bool) returns (out: Outcome)
      requires Valid()
      modifies this`bindings
      ensures Valid() && Step(State(), out) == Apply(old(State()), OpCreateBinding(id, row, grantable))
    {
      CreateBindingKeeps(State(), id, row, grantable);
      if row.role !in roles { return Refused(NotFound); }
      if !grantable { return Refused(PermissionDenied); }
      out := ContainedInRoleSubtree(row.role, row.scope);
      if out != Done { return; }
      if !ScopeOk(Tree(folders, assets), row.scope) || !SubjectOk(users, groups, row.subject) {
        return Refused(InvalidArgument);
      }
      if id in bindings { return Refused(AlreadyExists); }
      bindings := bindings[id := row];
    }

    method CreateRequestPolicy(id: Id, row: PolicyRow, grantable: bool) returns (out: Outcome)
      requires Valid()
      modifies this`policies
      ensures Valid() && Step(State(), out) == Apply(old(State()), OpCreatePolicy(id, row, grantable))
    {
      CreatePolicyKeeps(State(), id, row, grantable);
      if row.role !in roles { return Refused(NotFound); }
      if !grantable { return Refused(PermissionDenied); }
      out := ContainedInRoleSubtree(row.role, row.scope);
      if out != Done { return; }
      if !ScopeOk(Tree(folders, assets), row.scope) || !OptIn(row.requester, roles) || !OptIn(row.approver, roles) {
        return Refused(InvalidArgument);
      }
      if id in policies || PolicyTaken(policies, row) { return Refused(AlreadyExists); }
      policies := policies[id := row];
    }
  }
}
