/** What a caller of the catalog sees: which rows an accepted write leaves, and exactly when a write is
    accepted. Both are stated on the columns of the tables, not through the transactions that make them. */
module CatalogEffects {
  import opened Basics
  import opened Forest
  import opened Catalog
  import opened CatalogSafety

  /** A refused write changes nothing. */
  lemma RefusedChangesNothing(db: Db, op: Op)
    requires Apply(db, op).out.Refused?
    ensures Apply(db, op).db == db
  {
  }

  // ---- folders --------------------------------------------------------------------------------------

  /** Row f has the same name and parent in both tables. */
  ghost predicate SamePlace(folders: map<Id, FolderRow>, folders': map<Id, FolderRow>, f: Id)
  {
    f in folders && f in folders' && folders'[f].name == folders[f].name && folders'[f].parent == folders[f].parent
  }

  /** The folder tables differ only in where id is and what it is called. */
  ghost predicate OnlyPlaced(
      folders: map<Id, FolderRow>, folders': map<Id, FolderRow>, id: Id, parent: Option<Id>, name: string)
  {
    && id in folders' && folders'[id].parent == parent && folders'[id].name == name
    && folders'.Keys == folders.Keys + {id} && forall f :: f in folders && f != id ==> SamePlace(folders, folders', f)
  }

  /** With the mirror exact, an entry sits under one key only. */
  lemma RenameMovesEntry(names: Names, e: Entry, was: NameKey, key: NameKey)
    requires was in names && forall k :: k in names && names[k] == e ==> k == was
    ensures names[was] == e && Rename(names, e, key).Some? ==>
      Rename(names, e, key).value == (names - {was})[key := e]
  {
  }

  lemma FolderEntryOnce(t: Tree, names: Names, id: Id)
    requires NamesOk(t, names) && id in t.folders
    ensures var was := FolderKey(t.folders[id]);
      && was in names && names[was] == FolderEntry(id)
      && forall k :: k in names && names[k] == FolderEntry(id) ==> k == was
  {
    assert FolderNamed(t.folders, names, id);
  }

  /** The name and parent a folder has after an update request. */
  function NameAfter(row: FolderRow, name: Option<string>): string { if name.Some? then name.value else row.name }
  function ParentAfter(row: FolderRow, parent: Option<Option<Id>>): Option<Id>
  {
    if parent.Some? then parent.value else row.parent
  }

  lemma PlacedByPut(db: Db, id: Id, np: Option<Id>, moved: map<Id, FolderRow>, name: string)
    requires MovedTo(db, id, np, moved)
    ensures OnlyPlaced(db.tree.folders, moved[id := moved[id].(name := name)], id, np, name)
  {
    if np != db.tree.folders[id].parent { ReparentShape(db.tree.folders, id, np); }
  }

  /** The folder table an accepted update to this parent writes to. */
  function MovedRows(folders: map<Id, FolderRow>, id: Id, np: Option<Id>): map<Id, FolderRow>
    requires id in folders
  {
    if np == folders[id].parent then folders else Reparent(folders, id, np)
  }

  lemma DoneUpdate(db: Db, id: Id, name: Option<string>, parent: Option<Option<Id>>)
    requires UpdateFolder(db, id, name, parent).out == Done
    ensures id in db.tree.folders
    ensures var row := db.tree.folders[id];
      var np, newName := ParentAfter(row, parent), NameAfter(row, name);
      var moved := MovedRows(db.tree.folders, id, np);
      && MovedTo(db, id, np, moved)
      && (|| UpdateFolder(db, id, name, parent) == PutFolder(db, id, moved, np, newName)
          || (np == row.parent && newName == row.name && UpdateFolder(db, id, name, parent) == Step(db, Done)))
  {
  }

  /** What an accepted PutFolder leaves. */
  ghost predicate FolderPut(db: Db, db': Db, id: Id, np: Option<Id>, name: string)
  {
    && id in db.tree.folders
    && OnlyPlaced(db.tree.folders, db'.tree.folders, id, np, name)
    && db'.names == (db.names - {FolderKey(db.tree.folders[id])})[NameKey(np, name) := FolderEntry(id)]
    && db' == db.(tree := db.tree.(folders := db'.tree.folders), names := db'.names)
  }

  lemma PutPlaces(db: Db, id: Id, np: Option<Id>, moved: map<Id, FolderRow>, name: string)
    requires NamesOk(db.tree, db.names) && MovedTo(db, id, np, moved)
    requires PutFolder(db, id, moved, np, name).out == Done
    ensures FolderPut(db, PutFolder(db, id, moved, np, name).db, id, np, name)
  {
    FolderEntryOnce(db.tree, db.names, id);
    RenameMovesEntry(db.names, FolderEntry(id), FolderKey(db.tree.folders[id]), NameKey(np, name));
    PlacedByPut(db, id, np, moved, name);
  }

  /** An accepted update puts the folder where and under the name the caller asked for, keeps what was not
      asked for, moves its entry in the names table to the new key, and touches nothing else. */
  lemma FolderUpdated(db: Db, id: Id, name: Option<string>, parent: Option<Option<Id>>)
    requires NamesOk(db.tree, db.names) && Apply(db, OpUpdateFolder(id, name, parent)).out == Done
    ensures id in db.tree.folders
    ensures var db', row := Apply(db, OpUpdateFolder(id, name, parent)).db, db.tree.folders[id];
      var key := NameKey(ParentAfter(row, parent), NameAfter(row, name));
      && OnlyPlaced(db.tree.folders, db'.tree.folders, id, key.parent, key.name)
      && db'.names == (db.names - {NameKey(row.parent, row.name)})[key := FolderEntry(id)]
      && db' == db.(tree := db.tree.(folders := db'.tree.folders), names := db'.names)
  {
    DoneUpdate(db, id, name, parent);
    var row := db.tree.folders[id];
    var np, newName := ParentAfter(row, parent), NameAfter(row, name);
    var moved := MovedRows(db.tree.folders, id, np);
    if UpdateFolder(db, id, name, parent) == PutFolder(db, id, moved, np, newName) {
      PutPlaces(db, id, np, moved, newName);
    } else {
      FolderEntryOnce(db.tree, db.names, id);
      assert (db.names - {FolderKey(row)})[FolderKey(row) := FolderEntry(id)] == db.names;
    }
  }

  // ---- when a folder may move -------------------------------------------------------------------------

  /** The scope is folder n, or an asset in it. */
  ghost predicate Sits(assets: map<Id, AssetRow>, s: Scope, n: Id)
  {
    s.folder == Some(n) || (s.asset.Some? && s.asset.value in assets && assets[s.asset.value].folder == n)
  }

  /** The role is global, or homed at n or above. */
  ghost predicate HomedAbove(p: Parents, roles: Homes, role: Id, n: Id)
  {
    role in roles && (roles[role].Some? ==> roles[role].value in Ancestors(p, n))
  }

  ghost predicate MaybeHomedAbove(p: Parents, roles: Homes, role: Option<Id>, n: Id)
  {
    role.Some? ==> HomedAbove(p, roles, role.value, n)
  }

  /** With these parent links, every role a binding or policy on one of these folders names has a home
      there or above. */
  ghost predicate RolesStayHome(db: Db, p: Parents, sub: set<Id>)
  {
    && (forall b, n :: b in db.bindings && Sits(db.tree.assets, db.bindings[b].scope, n) && n in sub ==>
          HomedAbove(p, db.roles, db.bindings[b].role, n))
    && (forall q, n :: q in db.policies && Sits(db.tree.assets, db.policies[q].scope, n) && n in sub ==>
          && HomedAbove(p, db.roles, db.policies[q].role, n)
          && MaybeHomedAbove(p, db.roles, db.policies[q].requester, n)
          && MaybeHomedAbove(p, db.roles, db.policies[q].approver, n))
  }

  lemma ScopedInSits(t: Tree, sub: set<Id>, s: Scope)
    requires ScopeOk(t, s)
    ensures ScopedIn(t.assets, sub, s) <==> exists n :: Sits(t.assets, s, n) && n in sub
    ensures forall n: Id :: Sits(t.assets, s, n) <==> ScopeNode(t.assets, s) == Some(n)
  {
    if ScopedIn(t.assets, sub, s) { assert Sits(t.assets, s, ScopeNode(t.assets, s).value); }
  }

  lemma ContainedFits(t: Tree, t': Tree, roles: Homes, role: Id, s: Scope, n: Id)
    requires t'.assets == t.assets && ScopeOk(t, s) && Sits(t.assets, s, n)
    ensures Contained(t', roles, role, s) <==> HomedAbove(ParentsOf(t'.folders), roles, role, n)
  {
  }

  lemma RefsByField(p: PolicyRow, r: Id)
    ensures r in RoleRefs(p) <==> r == p.role || p.requester == Some(r) || p.approver == Some(r)
  {
  }

  lemma StayHomeContains(db: Db, t': Tree, sub: set<Id>)
    requires BindingsOk(db.tree, db.roles, db.bindings) && PoliciesOk(db.tree, db.roles, db.policies)
    requires t'.assets == db.tree.assets && RolesStayHome(db, ParentsOf(t'.folders), sub)
    ensures AllContainedIn(db, t', sub)
  {
    forall b | b in db.bindings && ScopedIn(db.tree.assets, sub, db.bindings[b].scope)
      ensures Contained(t', db.roles, db.bindings[b].role, db.bindings[b].scope)
    {
      var row := db.bindings[b];
      assert RowOk(db.tree, db.roles, row.role, row.scope);
      ScopedInSits(db.tree, sub, row.scope);
      var n :| Sits(db.tree.assets, row.scope, n) && n in sub;
      ContainedFits(db.tree, t', db.roles, row.role, row.scope, n);
    }
    forall q, r
      | q in db.policies && ScopedIn(db.tree.assets, sub, db.policies[q].scope) && r in RoleRefs(db.policies[q])
      ensures Contained(t', db.roles, r, db.policies[q].scope)
    {
      var row := db.policies[q];
      assert RowOk(db.tree, db.roles, row.role, row.scope);
      ScopedInSits(db.tree, sub, row.scope);
      var n :| Sits(db.tree.assets, row.scope, n) && n in sub;
      RefsByField(row, r);
      ContainedFits(db.tree, t', db.roles, r, row.scope, n);
    }
  }

  lemma ContainedStaysHome(db: Db, t': Tree, sub: set<Id>)
    requires BindingsOk(db.tree, db.roles, db.bindings) && PoliciesOk(db.tree, db.roles, db.policies)
    requires t'.assets == db.tree.assets && AllContainedIn(db, t', sub)
    ensures RolesStayHome(db, ParentsOf(t'.folders), sub)
  {
    forall b, n | b in db.bindings && Sits(db.tree.assets, db.bindings[b].scope, n) && n in sub
      ensures HomedAbove(ParentsOf(t'.folders), db.roles, db.bindings[b].role, n)
    {
      assert RowOk(db.tree, db.roles, db.bindings[b].role, db.bindings[b].scope);
      ScopedInSits(db.tree, sub, db.bindings[b].scope);
      ContainedFits(db.tree, t', db.roles, db.bindings[b].role, db.bindings[b].scope, n);
    }
    forall q, n | q in db.policies && Sits(db.tree.assets, db.policies[q].scope, n) && n in sub
      ensures && HomedAbove(ParentsOf(t'.folders), db.roles, db.policies[q].role, n)
        && MaybeHomedAbove(ParentsOf(t'.folders), db.roles, db.policies[q].requester, n)
        && MaybeHomedAbove(ParentsOf(t'.folders), db.roles, db.policies[q].approver, n)
    {
      PolicyStaysHome(db, t', sub, q, n);
    }
  }

  lemma PolicyStaysHome(db: Db, t': Tree, sub: set<Id>, q: Id, n: Id)
    requires PoliciesOk(db.tree, db.roles, db.policies) && t'.assets == db.tree.assets && AllContainedIn(db, t', sub)
    requires q in db.policies && Sits(db.tree.assets, db.policies[q].scope, n) && n in sub
    ensures HomedAbove(ParentsOf(t'.folders), db.roles, db.policies[q].role, n)
    ensures MaybeHomedAbove(ParentsOf(t'.folders), db.roles, db.policies[q].requester, n)
    ensures MaybeHomedAbove(ParentsOf(t'.folders), db.roles, db.policies[q].approver, n)
  {
    var row := db.policies[q];
    assert RowOk(db.tree, db.roles, row.role, row.scope);
    ScopedInSits(db.tree, sub, row.scope);
    forall r | r in RoleRefs(row) ensures HomedAbove(ParentsOf(t'.folders), db.roles, r, n) {
      ContainedFits(db.tree, t', db.roles, r, row.scope, n);
    }
    RefsByField(row, row.role);
    if row.requester.Some? { RefsByField(row, row.requester.value); }
    if row.approver.Some? { RefsByField(row, row.approver.value); }
  }

  /** The move would close a cycle, or take a role out of the reach of its home. */
  ghost predicate Stuck(db: Db, id: Id, np: Option<Id>)
  {
    var p := ParentsOf(db.tree.folders);
    (np.Some? && np.value in Subtree(p, id)) || !RolesStayHome(db, p[id := np], Subtree(p, id))
  }

  /** The new parent is the root or a folder outside the moved subtree, and every role named there stays in
      reach of its home. */
  ghost predicate MayMoveTo(db: Db, id: Id, np: Option<Id>)
  {
    !Stuck(db, id, np) && (np.Some? ==> np.value in db.tree.folders)
  }

  /** The containment check after the move is the same question on the columns before it. */
  lemma StayHomeExactly(db: Db, id: Id, np: Option<Id>)
    requires Inv(db) && id in db.tree.folders
    ensures var p := ParentsOf(db.tree.folders);
      AllContainedIn(db, db.tree.(folders := Reparent(db.tree.folders, id, np)), Subtree(p, id)) <==>
      RolesStayHome(db, p[id := np], Subtree(p, id))
  {
    var t' := db.tree.(folders := Reparent(db.tree.folders, id, np));
    var sub := Subtree(ParentsOf(db.tree.folders), id);
    ReparentShape(db.tree.folders, id, np);
    if RolesStayHome(db, ParentsOf(t'.folders), sub) { StayHomeContains(db, t', sub); }
    if AllContainedIn(db, t', sub) { ContainedStaysHome(db, t', sub); }
  }

  /** The name is canonical, and nobody else has it among these siblings. */
  ghost predicate MayBeNamed(names: Names, e: Entry, key: NameKey)
  {
    Canonical(key.name) && (key in names ==> names[key] == e)
  }

  lemma NamedFine(t: Tree, names: Names, id: Id)
    requires NamesOk(t, names) && id in t.folders
    ensures MayBeNamed(names, FolderEntry(id), FolderKey(t.folders[id]))
  {
    assert FolderNamed(t.folders, names, id);
  }

  /** The update's answers, in terms of the two checks it makes. */
  lemma UpdateAnswers(db: Db, id: Id, name: Option<string>, parent: Option<Option<Id>>)
    requires id in db.tree.folders && MayBeNamed(db.names, FolderEntry(id), FolderKey(db.tree.folders[id]))
    ensures var out, row := UpdateFolder(db, id, name, parent).out, db.tree.folders[id];
      var np, key := ParentAfter(row, parent), NameKey(ParentAfter(row, parent), NameAfter(row, name));
      var e := if np == row.parent then None else FolderMoveError(db, id, np);
      out == if e.Some? then Refused(e.value)
             else if !Canonical(key.name) then Refused(InvalidArgument)
             else if !MayBeNamed(db.names, FolderEntry(id), key) then Refused(AlreadyExists)
             else Done
  {
  }

  lemma MoveErrors(db: Db, id: Id, np: Option<Id>)
    requires Inv(db) && id in db.tree.folders
    ensures FolderMoveError(db, id, np) == if Stuck(db, id, np) then Some(FailedPrecondition)
      else if np.Some? && np.value !in db.tree.folders then Some(InvalidArgument) else None
  {
    StayHomeExactly(db, id, np);
  }

  /** Each refusal, exactly: the cycle and the containment violation share a code and are looked at before
      whether the new parent exists, and the name comes last. */
  lemma FolderUpdateRefusals(db: Db, id: Id, name: Option<string>, parent: Option<Option<Id>>)
    requires Inv(db) && id in db.tree.folders
    ensures var out, row := Apply(db, OpUpdateFolder(id, name, parent)).out, db.tree.folders[id];
      var np, newName := ParentAfter(row, parent), NameAfter(row, name);
      var stuck, missing := np != row.parent && Stuck(db, id, np), np.Some? && np.value !in db.tree.folders;
      var key := NameKey(np, newName);
      var taken := key in db.names && db.names[key] != FolderEntry(id);
      && (out == Refused(FailedPrecondition) <==> stuck)
      && (out == Refused(InvalidArgument) <==> !stuck && (missing || !Canonical(newName)))
      && (out == Refused(AlreadyExists) <==> !stuck && !missing && Canonical(newName) && taken)
      && (out.Refused? ==> out.code in {FailedPrecondition, InvalidArgument, AlreadyExists})
  {
    var np := ParentAfter(db.tree.folders[id], parent);
    MoveErrors(db, id, np);
    NamedFine(db.tree, db.names, id);
    UpdateAnswers(db, id, name, parent);
    ParentIn(db.tree.folders, id);
  }

  lemma ParentIn(folders: map<Id, FolderRow>, id: Id)
    requires Closed(ParentsOf(folders)) && id in folders
    ensures folders[id].parent.Some? ==> folders[id].parent.value in folders
  {
    assert ParentsOf(folders)[id] == folders[id].parent;
  }

  /** An update is accepted exactly if the folder exists, its new name is canonical and not taken by another
      sibling at its new place, and, where the parent changes, it may move there. */
  lemma FolderUpdateExactly(db: Db, id: Id, name: Option<string>, parent: Option<Option<Id>>)
    requires Inv(db)
    ensures Apply(db, OpUpdateFolder(id, name, parent)).out == Done <==>
      && id in db.tree.folders
      && var row := db.tree.folders[id];
         var np := ParentAfter(row, parent);
         && MayBeNamed(db.names, FolderEntry(id), NameKey(np, NameAfter(row, name)))
         && (np != row.parent ==> MayMoveTo(db, id, np))
    ensures Apply(db, OpUpdateFolder(id, name, parent)).out == Refused(NotFound) <==> id !in db.tree.folders
  {
    if id in db.tree.folders {
      MoveErrors(db, id, ParentAfter(db.tree.folders[id], parent));
      NamedFine(db.tree, db.names, id);
      UpdateAnswers(db, id, name, parent);
    }
  }

  /** A folder is created exactly if its parent exists, its name is canonical and free among its siblings,
      and its id is new. */
  lemma FolderCreated(db: Db, id: Id, parent: Option<Id>, name: string)
    ensures var r := Apply(db, OpCreateFolder(id, parent, name));
      && (r.out == Done <==>
          && (parent.Some? ==> parent.value in db.tree.folders) && Canonical(name)
          && id !in db.tree.folders && NameKey(parent, name) !in db.names)
      && (r.out == Done ==>
          && OnlyPlaced(db.tree.folders, r.db.tree.folders, id, parent, name)
          && r.db == db.(tree := db.tree.(folders := db.tree.folders[id := r.db.tree.folders[id]]),
                         names := db.names[NameKey(parent, name) := FolderEntry(id)]))
  {
  }

  /** A folder is deleted exactly if no folder, asset, role, group, binding or policy is in it; nothing but
      its row and its entry goes. */
  lemma FolderDeleted(db: Db, id: Id)
    requires NamesOk(db.tree, db.names)
    ensures var r := Apply(db, OpDeleteFolder(id));
      && (r.out == Done <==>
          && (forall f :: f in db.tree.folders ==> db.tree.folders[f].parent != Some(id))
          && (forall a :: a in db.tree.assets ==> db.tree.assets[a].folder != id)
          && (forall x :: x in db.roles ==> db.roles[x] != Some(id))
          && (forall g :: g in db.groups ==> db.groups[g] != Some(id))
          && (forall b :: b in db.bindings ==> db.bindings[b].scope.folder != Some(id))
          && (forall q :: q in db.policies ==> db.policies[q].scope.folder != Some(id)))
      && (r.out == Done ==>
          r.db == if id !in db.tree.folders then db
                  else db.(tree := db.tree.(folders := db.tree.folders - {id}),
                           names := db.names - {FolderKey(db.tree.folders[id])}))
  {
    FolderEntryDropped(db.tree, db.names, id);
    DeleteFolderIs(db, id);
  }

  lemma DeleteFolderIs(db: Db, id: Id)
    ensures var r := DeleteFolder(db, id);
      && (r.out == Done <==> !FolderReferenced(db, id))
      && (r.out == Done ==> r.db == db.(tree := db.tree.(folders := db.tree.folders - {id}),
                                        names := DropEntry(db.names, FolderEntry(id))))
  {
  }

  lemma FolderEntryDropped(t: Tree, names: Names, id: Id)
    requires NamesOk(t, names)
    ensures DropEntry(names, FolderEntry(id)) ==
      if id in t.folders then names - {FolderKey(t.folders[id])} else names
    ensures id !in t.folders ==> t.folders - {id} == t.folders
  {
    if id in t.folders {
      FolderEntryOnce(t, names, id);
    } else {
      assert forall k :: k in names ==> EntryOk(t, k, names[k]);
    }
  }

  // ---- assets -----------------------------------------------------------------------------------------

  /** An asset is created exactly if its folder exists, its name is canonical and free, and its id is new. */
  lemma AssetCreated(db: Db, id: Id, folder: Id, name: string)
    ensures var r := Apply(db, OpCreateAsset(id, folder, name));
      && (r.out == Done <==>
          && folder in db.tree.folders && Canonical(name)
          && id !in db.tree.assets && NameKey(Some(folder), name) !in db.names)
      && (r.out == Done ==>
          && id in r.db.tree.assets && r.db.tree.assets[id].name == name && r.db.tree.assets[id].folder == folder
          && r.db == db.(tree := db.tree.(assets := db.tree.assets[id := r.db.tree.assets[id]]),
                         names := db.names[NameKey(Some(folder), name) := AssetEntry(id)]))
  {
  }

  function AssetNameAfter(row: AssetRow, name: Option<string>): string { if name.Some? then name.value else row.name }
  function FolderAfter(row: AssetRow, folder: Option<Id>): Id { if folder.Some? then folder.value else row.folder }

  /** Every role that a binding or policy on the asset names has a home at its new folder or above. */
  ghost predicate AssetMayMoveTo(db: Db, id: Id, dest: Id)
  {
    var p := ParentsOf(db.tree.folders);
    && dest in db.tree.folders
    && (forall b :: b in db.bindings && db.bindings[b].scope.asset == Some(id) ==>
          HomedAbove(p, db.roles, db.bindings[b].role, dest))
    && (forall q :: q in db.policies && db.policies[q].scope.asset == Some(id) ==>
          && HomedAbove(p, db.roles, db.policies[q].role, dest)
          && MaybeHomedAbove(p, db.roles, db.policies[q].requester, dest)
          && MaybeHomedAbove(p, db.roles, db.policies[q].approver, dest))
  }

  lemma AssetScopeContained(t: Tree, roles: Homes, id: Id, name: string, dest: Id, role: Id, s: Scope)
    requires ScopeOk(t, s) && s.asset == Some(id)
    ensures Contained(MoveAsset(t, id, name, dest), roles, role, s) <==>
      HomedAbove(ParentsOf(t.folders), roles, role, dest)
  {
  }

  lemma AssetPolicyContained(db: Db, id: Id, name: string, dest: Id, q: Id)
    requires PoliciesOk(db.tree, db.roles, db.policies) && q in db.policies && db.policies[q].scope.asset == Some(id)
    ensures var row, p := db.policies[q], ParentsOf(db.tree.folders);
      (forall r :: r in RoleRefs(row) ==> Contained(MoveAsset(db.tree, id, name, dest), db.roles, r, row.scope)) <==>
      && HomedAbove(p, db.roles, row.role, dest)
      && MaybeHomedAbove(p, db.roles, row.requester, dest) && MaybeHomedAbove(p, db.roles, row.approver, dest)
  {
    var row := db.policies[q];
    assert RowOk(db.tree, db.roles, row.role, row.scope);
    forall r ensures r in RoleRefs(row) <==> r == row.role || row.requester == Some(r) || row.approver == Some(r) {
      RefsByField(row, r);
    }
    forall r: Id
      ensures Contained(MoveAsset(db.tree, id, name, dest), db.roles, r, row.scope) <==>
        HomedAbove(ParentsOf(db.tree.folders), db.roles, r, dest)
    {
      AssetScopeContained(db.tree, db.roles, id, name, dest, r, row.scope);
    }
  }

  lemma AssetMoveExactly(db: Db, id: Id, name: string, dest: Id)
    requires BindingsOk(db.tree, db.roles, db.bindings) && PoliciesOk(db.tree, db.roles, db.policies)
    ensures AssetMoveError(db, id, name, dest).None? <==> AssetMayMoveTo(db, id, dest)
  {
    forall b | b in db.bindings && db.bindings[b].scope.asset == Some(id)
      ensures Contained(MoveAsset(db.tree, id, name, dest), db.roles, db.bindings[b].role, db.bindings[b].scope) <==>
        HomedAbove(ParentsOf(db.tree.folders), db.roles, db.bindings[b].role, dest)
    {
      assert RowOk(db.tree, db.roles, db.bindings[b].role, db.bindings[b].scope);
      AssetScopeContained(db.tree, db.roles, id, name, dest, db.bindings[b].role, db.bindings[b].scope);
    }
    forall q | q in db.policies && db.policies[q].scope.asset == Some(id) {
      AssetPolicyContained(db, id, name, dest, q);
    }
  }

  lemma AssetEntryOnce(t: Tree, names: Names, id: Id)
    requires NamesOk(t, names) && id in t.assets
    ensures var was := AssetKey(t.assets[id]);
      && was in names && names[was] == AssetEntry(id) && Canonical(t.assets[id].name)
      && forall k :: k in names && names[k] == AssetEntry(id) ==> k == was
  {
    assert AssetNamed(t.assets, names, id);
  }

  /** The asset update's answer, and what it writes, in terms of its checks. */
  lemma AssetAnswers(db: Db, id: Id, name: Option<string>, folder: Option<Id>)
    requires id in db.tree.assets && MayBeNamed(db.names, AssetEntry(id), AssetKey(db.tree.assets[id]))
    ensures var r, row := UpdateAsset(db, id, name, folder), db.tree.assets[id];
      var newName, dest := AssetNameAfter(row, name), FolderAfter(row, folder);
      && (r.out == Done <==>
          && MayBeNamed(db.names, AssetEntry(id), NameKey(Some(dest), newName))
          && (dest != row.folder ==> AssetMoveError(db, id, newName, dest).None?))
      && (r.out == Done ==>
          || r == PutAsset(db, id, newName, dest)
          || (dest == row.folder && newName == row.name && r.db == db))
  {
  }

  /** An asset update is accepted exactly if the asset exists, its new name is canonical and not taken by
      another sibling, and, where the folder changes, it may move there. */
  lemma AssetUpdateExactly(db: Db, id: Id, name: Option<string>, folder: Option<Id>)
    requires Inv(db)
    ensures Apply(db, OpUpdateAsset(id, name, folder)).out == Done <==>
      && id in db.tree.assets
      && var row := db.tree.assets[id];
         var dest := FolderAfter(row, folder);
         && MayBeNamed(db.names, AssetEntry(id), NameKey(Some(dest), AssetNameAfter(row, name)))
         && (dest != row.folder ==> AssetMayMoveTo(db, id, dest))
  {
    if id in db.tree.assets {
      var row := db.tree.assets[id];
      AssetMoveExactly(db, id, AssetNameAfter(row, name), FolderAfter(row, folder));
      AssetEntryOnce(db.tree, db.names, id);
      AssetAnswers(db, id, name, folder);
    }
  }

  lemma AssetPut(db: Db, id: Id, name: string, dest: Id)
    requires NamesOk(db.tree, db.names) && id in db.tree.assets && PutAsset(db, id, name, dest).out == Done
    ensures PutAsset(db, id, name, dest).db ==
      db.(tree := db.tree.(assets := db.tree.assets[id := AssetRow(name, dest)]),
          names := (db.names - {AssetKey(db.tree.assets[id])})[NameKey(Some(dest), name) := AssetEntry(id)])
  {
    AssetEntryOnce(db.tree, db.names, id);
    RenameMovesEntry(db.names, AssetEntry(id), AssetKey(db.tree.assets[id]), NameKey(Some(dest), name));
  }

  /** An accepted asset update leaves the asset where and under the name the caller asked for, moves its
      entry to the new key, and touches nothing else. */
  lemma AssetUpdated(db: Db, id: Id, name: Option<string>, folder: Option<Id>)
    requires NamesOk(db.tree, db.names) && Apply(db, OpUpdateAsset(id, name, folder)).out == Done
    ensures id in db.tree.assets
    ensures var db', row := Apply(db, OpUpdateAsset(id, name, folder)).db, db.tree.assets[id];
      var row' := AssetRow(AssetNameAfter(row, name), FolderAfter(row, folder));
      db' == db.(tree := db.tree.(assets := db.tree.assets[id := row']),
                 names := (db.names - {NameKey(Some(row.folder), row.name)})
                   [NameKey(Some(row'.folder), row'.name) := AssetEntry(id)])
  {
    var row := db.tree.assets[id];
    var newName, dest := AssetNameAfter(row, name), FolderAfter(row, folder);
    AssetEntryOnce(db.tree, db.names, id);
    AssetAnswers(db, id, name, folder);
    if UpdateAsset(db, id, name, folder) == PutAsset(db, id, newName, dest) {
      AssetPut(db, id, newName, dest);
    } else {
      assert (db.names - {AssetKey(row)})[AssetKey(row) := AssetEntry(id)] == db.names;
      assert db.tree.assets[id := row] == db.tree.assets;
    }
  }

  // ---- bindings and policies ----------------------------------------------------------------------------

  /** The scope exists, and the role is global or homed at or above it. */
  ghost predicate MayScope(t: Tree, roles: Homes, role: Id, s: Scope)
  {
    && role in roles && ScopeOk(t, s)
    && (roles[role].Some? ==>
        exists n :: Sits(t.assets, s, n) && roles[role].value in Ancestors(ParentsOf(t.folders), n))
  }

  lemma CheckedScope(db: Db, role: Id, s: Scope)
    ensures role in db.roles && CheckContained(db, role, s) == Done && ScopeOk(db.tree, s) <==>
      MayScope(db.tree, db.roles, role, s)
  {
    if ScopeOk(db.tree, s) {
      ScopedInSits(db.tree, {}, s);
      if ScopeNode(db.tree.assets, s).Some? { assert Sits(db.tree.assets, s, ScopeNode(db.tree.assets, s).value); }
    }
  }

  /** A binding is created exactly if the guard passes, the role is global or homed at or above an existing
      scope, the subject exists and the id is new. */
  lemma BindingCreated(db: Db, id: Id, row: BindingRow, grantable: bool)
    ensures var r := Apply(db, OpCreateBinding(id, row, grantable));
      && (r.out == Done <==>
          && grantable && MayScope(db.tree, db.roles, row.role, row.scope) && id !in db.bindings
          && (match row.subject case User(u) => u in db.users case Group(g) => g in db.groups))
      && (r.out == Done ==> r.db == db.(bindings := db.bindings[id := row]))
  {
    CheckedScope(db, row.role, row.scope);
  }

  /** A policy is created exactly if the guard passes, the role is global or homed at or above an existing
      scope, its requester and approver roles exist, and no policy has its id or its role and scope. */
  lemma PolicyCreated(db: Db, id: Id, row: PolicyRow, grantable: bool)
    ensures var r := Apply(db, OpCreatePolicy(id, row, grantable));
      && (r.out == Done <==>
          && grantable && MayScope(db.tree, db.roles, row.role, row.scope) && id !in db.policies
          && (row.requester.Some? ==> row.requester.value in db.roles)
          && (row.approver.Some? ==> row.approver.value in db.roles)
          && (forall q :: q in db.policies ==> db.policies[q].role != row.role || db.policies[q].scope != row.scope))
      && (r.out == Done ==> r.db == db.(policies := db.policies[id := row]))
  {
    CheckedScope(db, row.role, row.scope);
  }

  /** Only a policy's requester and approver roles can be changed, to roles that exist. */
  lemma PolicyUpdated(db: Db, id: Id, requester: Option<Id>, approver: Option<Id>)
    ensures var r := Apply(db, OpUpdatePolicy(id, requester, approver));
      && (r.out == Done <==>
          && id in db.policies && (requester.Some? ==> requester.value in db.roles)
          && (approver.Some? ==> approver.value in db.roles))
      && (r.out == Done ==>
          var row := db.policies[id];
          r.db == db.(policies := db.policies[id := PolicyRow(row.role, row.scope, requester, approver)]))
  {
  }

  // ---- roles, subjects and cascades -----------------------------------------------------------------------

  /** A role, a group and a user are created exactly if the home exists and the id is new. */
  lemma RoleCreated(db: Db, id: Id, home: Option<Id>)
    ensures var r := Apply(db, OpCreateRole(id, home));
      && (r.out == Done <==> id !in db.roles && (home.Some? ==> home.value in db.tree.folders))
      && (r.out == Done ==> r.db == db.(roles := db.roles[id := home]))
  {
  }

  lemma GroupCreated(db: Db, id: Id, home: Option<Id>)
    ensures var r := Apply(db, OpCreateGroup(id, home));
      && (r.out == Done <==> id !in db.groups && (home.Some? ==> home.value in db.tree.folders))
      && (r.out == Done ==> r.db == db.(groups := db.groups[id := home]))
  {
  }

  /** A rewrite is added exactly if both roles exist, the guard passes, it is new, and it is not a role
      conferring itself on the same object. */
  lemma RewriteAdded(db: Db, e: RoleGrant, grantable: bool)
    ensures var r := Apply(db, OpAddRewrite(e, grantable));
      && (r.out == Done <==>
          && e.role in db.roles && e.source in db.roles && grantable && e !in db.rewrites
          && (e.via == SameObject ==> e.role != e.source))
      && (r.out == Done ==> r.db == db.(rewrites := db.rewrites + {e}))
  {
  }

  /** m' is m without these rows. */
  ghost predicate Without<V>(m: map<Id, V>, m': map<Id, V>, gone: set<Id>)
  {
    m'.Keys == m.Keys - gone && forall k :: k in m' ==> m'[k] == m[k]
  }

  lemma AssetEntryDropped(t: Tree, names: Names, id: Id)
    requires NamesOk(t, names)
    ensures DropEntry(names, AssetEntry(id)) == if id in t.assets then names - {AssetKey(t.assets[id])} else names
  {
    if id in t.assets {
      AssetEntryOnce(t, names, id);
    } else {
      assert forall k :: k in names ==> EntryOk(t, k, names[k]);
    }
  }

  /** Deleting an asset takes its entry, the bindings and policies scoped to it and those policies' subjects
      along, and nothing else. */
  lemma AssetDeleted(db: Db, id: Id)
    requires NamesOk(db.tree, db.names) && SubjectsOk(db.policies, db.users, db.groups, db.subjects)
    ensures var r := Apply(db, OpDeleteAsset(id));
      && r.out == Done
      && Without(db.tree.assets, r.db.tree.assets, {id})
      && Without(db.bindings, r.db.bindings, set b | b in db.bindings && db.bindings[b].scope.asset == Some(id))
      && Without(db.policies, r.db.policies, set q | q in db.policies && db.policies[q].scope.asset == Some(id))
      && Without(db.subjects, r.db.subjects, set s | s in db.subjects && db.subjects[s].policy !in r.db.policies)
      && r.db == db.(tree := db.tree.(assets := r.db.tree.assets), bindings := r.db.bindings,
                     policies := r.db.policies, subjects := r.db.subjects,
                     names := if id in db.tree.assets then db.names - {AssetKey(db.tree.assets[id])} else db.names)
  {
    AssetEntryDropped(db.tree, db.names, id);
  }

  /** Deleting a user or group takes the bindings and policy subjects that name it along, and nothing else. */
  lemma SubjectDeleted(db: Db, s: Subject)
    ensures var r := Apply(db, OpDeleteSubject(s));
      && r.out == Done
      && Without(db.bindings, r.db.bindings, set b | b in db.bindings && db.bindings[b].subject == s)
      && Without(db.subjects, r.db.subjects, set x | x in db.subjects && db.subjects[x].subject == s)
      && (match s
          case User(u) => r.db.users == db.users - {u} && r.db.groups == db.groups
          case Group(g) => r.db.users == db.users && r.db.groups == db.groups - {g})
      && r.db == db.(users := r.db.users, groups := r.db.groups, bindings := r.db.bindings, subjects := r.db.subjects)
  {
  }
}
