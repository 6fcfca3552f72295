/** No run of catalog and access-configuration writes breaks the invariants. */
module CatalogSafety {
  import opened Basics
  import opened Forest
  import opened Ltree
  import opened Catalog

  /** Every role-and-scope pair that was fine stays fine. */
  ghost predicate RowsLift(t: Tree, roles: Homes, t': Tree, roles': Homes)
  {
    forall role, s :: RowOk(t, roles, role, s) ==> RowOk(t', roles', role, s)
  }

  // ---- folders ------------------------------------------------------------------------

  /** Rows stay fine when no folder disappears from under a scope and no scope loses an ancestor. */
  lemma SameAncestorsLift(t: Tree, t': Tree, roles: Homes)
    requires AssetsOk(t) && t'.assets == t.assets
    requires forall f :: f in t.folders ==>
      f in t'.folders && Ancestors(ParentsOf(t'.folders), f) == Ancestors(ParentsOf(t.folders), f)
    ensures RowsLift(t, roles, t', roles)
  {
  }

  lemma CreateFolderForest(folders: map<Id, FolderRow>, id: Id, parent: Option<Id>, name: string)
    requires ForestOk(folders) && id !in folders && (parent.Some? ==> parent.value in folders)
    ensures var folders' := folders[id := FolderRow(name, parent, PathAbove(PathsOf(folders), parent) + [id])];
      && ForestOk(folders')
      && forall f :: f in folders ==> Ancestors(ParentsOf(folders'), f) == Ancestors(ParentsOf(folders), f)
  {
    var folders' := folders[id := FolderRow(name, parent, PathAbove(PathsOf(folders), parent) + [id])];
    assert ParentsOf(folders') == ParentsOf(folders)[id := parent];
    assert PathsOf(folders') == PathsOf(folders)[id := folders'[id].path];
    InsertLeaf(ParentsOf(folders), id, parent);
    InsertPath(ParentsOf(folders), PathsOf(folders), id, parent);
  }

  lemma CreateFolderKeeps(db: Db, id: Id, parent: Option<Id>, name: string)
    requires Inv(db)
    ensures Inv(CreateFolder(db, id, parent, name).db)
  {
    var s := CreateFolder(db, id, parent, name);
    if s.out == Done {
      CreateFolderForest(db.tree.folders, id, parent, name);
      SameAncestorsLift(db.tree, s.db.tree, db.roles);
      AddedFolderNames(db.tree, s.db.tree, db.names, id, FolderKey(s.db.tree.folders[id]));
    }
  }

  lemma AddedFolderNames(t: Tree, t': Tree, names: Names, id: Id, key: NameKey)
    requires NamesOk(t, names) && id !in t.folders && key !in names && Canonical(key.name)
    requires id in t'.folders && FolderKey(t'.folders[id]) == key &&
      t' == t.(folders := t.folders[id := t'.folders[id]])
    ensures NamesOk(t', names[key := FolderEntry(id)])
  {
  }

  lemma DeleteFolderForest(folders: map<Id, FolderRow>, id: Id)
    requires ForestOk(folders) && !exists f :: f in folders && folders[f].parent == Some(id)
    ensures ForestOk(folders - {id})
    ensures forall f :: f in folders && f != id ==>
      Ancestors(ParentsOf(folders - {id}), f) == Ancestors(ParentsOf(folders), f)
  {
    var p := ParentsOf(folders);
    forall g | g in p ensures p[g] != Some(id) { assert folders[g].parent == p[g]; }
    assert ParentsOf(folders - {id}) == p - {id};
    assert PathsOf(folders - {id}) == PathsOf(folders) - {id};
    DeleteLeaf(p, id);
    DeletePath(p, PathsOf(folders), id);
  }

  /** A row whose scope folder is not the deleted one keeps its scope and its ancestors. */
  lemma DeleteFolderRow(t: Tree, roles: Homes, id: Id, role: Id, s: Scope)
    requires AssetsOk(t) && RowOk(t, roles, role, s) && s.folder != Some(id)
    requires forall a :: a in t.assets ==> t.assets[a].folder != id
    requires forall f :: f in t.folders && f != id ==>
      Ancestors(ParentsOf(t.folders - {id}), f) == Ancestors(ParentsOf(t.folders), f)
    ensures RowOk(t.(folders := t.folders - {id}), roles, role, s)
  {
  }

  lemma DeleteFolderKeeps(db: Db, id: Id)
    requires Inv(db)
    ensures Inv(DeleteFolder(db, id).db)
  {
    var s := DeleteFolder(db, id);
    if s.out == Done {
      DeleteFolderForest(db.tree.folders, id);
      forall b | b in db.bindings ensures RowOk(s.db.tree, db.roles, db.bindings[b].role, db.bindings[b].scope) {
        DeleteFolderRow(db.tree, db.roles, id, db.bindings[b].role, db.bindings[b].scope);
      }
      forall q | q in db.policies ensures RowOk(s.db.tree, db.roles, db.policies[q].role, db.policies[q].scope) {
        DeleteFolderRow(db.tree, db.roles, id, db.policies[q].role, db.policies[q].scope);
      }
      DropEntryNames(db.tree, s.db.tree, db.names, FolderEntry(id));
    }
  }

  lemma DropEntryNames(t: Tree, t': Tree, names: Names, e: Entry)
    requires NamesOk(t, names)
    requires match e
      case FolderEntry(id) => t' == t.(folders := t.folders - {id})
      case AssetEntry(id) => t' == t.(assets := t.assets - {id})
    ensures NamesOk(t', DropEntry(names, e))
  {
    forall f | f in t'.folders ensures FolderNamed(t'.folders, DropEntry(names, e), f) {
      assert FolderNamed(t.folders, names, f);
    }
    forall a | a in t'.assets ensures AssetNamed(t'.assets, DropEntry(names, e), a) {
      assert AssetNamed(t.assets, names, a);
    }
  }

  lemma ReparentShape(folders: map<Id, FolderRow>, id: Id, np: Option<Id>)
    requires id in folders
    ensures ParentsOf(Reparent(folders, id, np)) == ParentsOf(folders)[id := np]
    ensures PathsOf(Reparent(folders, id, np)) == MovePaths(PathsOf(folders), id, np)
    ensures Reparent(folders, id, np).Keys == folders.Keys
  {
  }

  /** An accepted move keeps the forest a forest, with every stored path right. */
  lemma MoveForest(folders: map<Id, FolderRow>, id: Id, np: Option<Id>)
    requires ForestOk(folders) && id in folders
    requires np.Some? ==> np.value in folders && np.value !in Subtree(ParentsOf(folders), id)
    ensures ForestOk(Reparent(folders, id, np))
  {
    ReparentShape(folders, id, np);
    MoveAcyclic(ParentsOf(folders), id, np);
    MovePathsOk(ParentsOf(folders), PathsOf(folders), id, np);
  }

  /** A scope outside the moved subtree keeps its ancestors; one inside was checked. */
  lemma MoveRow(t: Tree, t': Tree, roles: Homes, id: Id, np: Option<Id>, role: Id, s: Scope)
    requires id in t.folders && t' == t.(folders := Reparent(t.folders, id, np))
    requires RowOk(t, roles, role, s)
    requires ScopedIn(t.assets, Subtree(ParentsOf(t.folders), id), s) ==> Contained(t', roles, role, s)
    ensures RowOk(t', roles, role, s)
  {
    ReparentShape(t.folders, id, np);
    if !ScopedIn(t.assets, Subtree(ParentsOf(t.folders), id), s) && ScopeNode(t.assets, s).Some? {
      MoveOutside(ParentsOf(t.folders), id, np, ScopeNode(t.assets, s).value);
    }
  }

  /** An accepted move keeps every binding and policy of the whole catalog contained. */
  lemma MoveContained(db: Db, id: Id, np: Option<Id>)
    requires Inv(db) && id in db.tree.folders
    requires AllContainedIn(db, db.tree.(folders := Reparent(db.tree.folders, id, np)),
                            Subtree(ParentsOf(db.tree.folders), id))
    ensures BindingsOk(db.tree.(folders := Reparent(db.tree.folders, id, np)), db.roles, db.bindings)
    ensures PoliciesOk(db.tree.(folders := Reparent(db.tree.folders, id, np)), db.roles, db.policies)
  {
    var t' := db.tree.(folders := Reparent(db.tree.folders, id, np));
    forall b | b in db.bindings ensures RowOk(t', db.roles, db.bindings[b].role, db.bindings[b].scope) {
      MoveRow(db.tree, t', db.roles, id, np, db.bindings[b].role, db.bindings[b].scope);
    }
    forall q | q in db.policies ensures RowOk(t', db.roles, db.policies[q].role, db.policies[q].scope) {
      assert db.policies[q].role in RoleRefs(db.policies[q]);
      MoveRow(db.tree, t', db.roles, id, np, db.policies[q].role, db.policies[q].scope);
    }
  }

  /** Names do not matter to the forest or to containment. */
  lemma RenameRow(t: Tree, id: Id, name: string)
    requires id in t.folders
    ensures var folders' := t.folders[id := t.folders[id].(name := name)];
      && ParentsOf(folders') == ParentsOf(t.folders) && PathsOf(folders') == PathsOf(t.folders)
      && folders'.Keys == t.folders.Keys
  {
  }

  /** moved is the folder table with id under np. */
  ghost predicate MovedTo(db: Db, id: Id, np: Option<Id>, moved: map<Id, FolderRow>)
  {
    && id in db.tree.folders && id in moved
    && (if np == db.tree.folders[id].parent then moved == db.tree.folders
        else moved == Reparent(db.tree.folders, id, np) && FolderMoveError(db, id, np).None?)
  }

  lemma PutFolderKeeps(db: Db, id: Id, moved: map<Id, FolderRow>, np: Option<Id>, name: string)
    requires Inv(db) && MovedTo(db, id, np, moved)
    ensures Inv(PutFolder(db, id, moved, np, name).db)
  {
    var s := PutFolder(db, id, moved, np, name);
    if s.out == Done {
      MovedAndRenamed(db, id, np, name, moved);
      UpdatedFolderNames(db, s.db, id, np, name, moved);
    }
  }

  lemma UpdateFolderCases(db: Db, id: Id, name: Option<string>, parent: Option<Option<Id>>)
    ensures var db' := UpdateFolder(db, id, name, parent).db;
      || db' == db
      || (exists np, moved, newName :: MovedTo(db, id, np, moved) && db' == PutFolder(db, id, moved, np, newName).db)
  {
    if id in db.tree.folders {
      var cur := db.tree.folders[id];
      var newName := if name.Some? then name.value else cur.name;
      var np := if parent.Some? then parent.value else cur.parent;
      var moved := if np == cur.parent then db.tree.folders else Reparent(db.tree.folders, id, np);
      if np == cur.parent || FolderMoveError(db, id, np).None? { assert MovedTo(db, id, np, moved); }
    }
  }

  lemma UpdateFolderKeeps(db: Db, id: Id, name: Option<string>, parent: Option<Option<Id>>)
    requires Inv(db)
    ensures Inv(UpdateFolder(db, id, name, parent).db)
  {
    UpdateFolderCases(db, id, name, parent);
    var db' := UpdateFolder(db, id, name, parent).db;
    if db' != db {
      var np, moved, newName :| MovedTo(db, id, np, moved) && db' == PutFolder(db, id, moved, np, newName).db;
      PutFolderKeeps(db, id, moved, np, newName);
    }
  }

  lemma MovedAndRenamed(db: Db, id: Id, np: Option<Id>, newName: string, moved: map<Id, FolderRow>)
    requires Inv(db) && MovedTo(db, id, np, moved)
    ensures TreeInv(db, db.tree.(folders := moved[id := moved[id].(name := newName)]))
  {
    if np != db.tree.folders[id].parent {
      MovedKeeps(db, id, np);
    } else {
      assert db.tree.(folders := moved) == db.tree;
    }
    RenamedKeeps(db, db.tree.(folders := moved), db.tree.(folders := moved[id := moved[id].(name := newName)]), id,
      newName);
  }

  /** Everything but the names, after an accepted move. */
  lemma MovedKeeps(db: Db, id: Id, np: Option<Id>)
    requires Inv(db) && id in db.tree.folders
    requires np.Some? ==> np.value in db.tree.folders && np.value !in Subtree(ParentsOf(db.tree.folders), id)
    requires AllContainedIn(db, db.tree.(folders := Reparent(db.tree.folders, id, np)),
                            Subtree(ParentsOf(db.tree.folders), id))
    ensures TreeInv(db, db.tree.(folders := Reparent(db.tree.folders, id, np)))
  {
    ReparentShape(db.tree.folders, id, np);
    MoveForest(db.tree.folders, id, np);
    MoveContained(db, id, np);
  }

  /** The invariants that do not mention names, for db with another tree. */
  ghost predicate TreeInv(db: Db, t: Tree)
  {
    && ForestOk(t.folders) && AssetsOk(t) && HomesOk(t.folders, db.roles)
    && BindingsOk(t, db.roles, db.bindings) && PoliciesOk(t, db.roles, db.policies)
  }

  lemma RenamedKeeps(db: Db, t: Tree, t': Tree, id: Id, name: string)
    requires TreeInv(db, t) && id in t.folders
    requires t' == t.(folders := t.folders[id := t.folders[id].(name := name)])
    ensures TreeInv(db, t')
  {
    RenameRow(t, id, name);
    SameAncestorsLift(t, t', db.roles);
  }

  lemma UpdatedFolderNames(db: Db, db': Db, id: Id, np: Option<Id>, newName: string, moved: map<Id, FolderRow>)
    requires NamesOk(db.tree, db.names) && id in db.tree.folders && Canonical(newName)
    requires moved == if np != db.tree.folders[id].parent then Reparent(db.tree.folders, id, np) else db.tree.folders
    requires Rename(db.names, FolderEntry(id), NameKey(np, newName)) == Some(db'.names)
    requires id in moved && db'.tree == db.tree.(folders := moved[id := moved[id].(name := newName)])
    ensures NamesOk(db'.tree, db'.names)
  {
    var t, t' := db.tree, db'.tree;
    assert FolderKey(t'.folders[id]) == NameKey(np, newName);
    forall f | f in t'.folders ensures FolderNamed(t'.folders, db'.names, f) {
      if f != id {
        assert FolderNamed(t.folders, db.names, f) && FolderKey(t'.folders[f]) == FolderKey(t.folders[f]);
      }
    }
    forall a | a in t'.assets ensures AssetNamed(t'.assets, db'.names, a) {
      assert AssetNamed(t.assets, db.names, a);
    }
    forall k | k in db'.names ensures EntryOk(t', k, db'.names[k]) {
      if db'.names[k] != FolderEntry(id) { assert EntryOk(t, k, db.names[k]); }
    }
  }

  // ---- assets -------------------------------------------------------------------------

  lemma CreateAssetKeeps(db: Db, id: Id, folder: Id, name: string)
    requires Inv(db)
    ensures Inv(CreateAsset(db, id, folder, name).db)
  {
    var s := CreateAsset(db, id, folder, name);
    if s.out == Done {
      var t, t' := db.tree, s.db.tree;
      forall role, sc | RowOk(t, db.roles, role, sc) ensures RowOk(t', db.roles, role, sc) {
        assert ScopeNode(t'.assets, sc) == ScopeNode(t.assets, sc);
      }
      forall f | f in t'.folders ensures FolderNamed(t'.folders, s.db.names, f) {
        assert FolderNamed(t.folders, db.names, f);
      }
      forall a | a in t'.assets ensures AssetNamed(t'.assets, s.db.names, a) {
        if a != id { assert AssetNamed(t.assets, db.names, a); }
      }
    }
  }

  lemma MoveAssetRow(t: Tree, roles: Homes, id: Id, name: string, dest: Id, role: Id, s: Scope)
    requires id in t.assets && RowOk(t, roles, role, s)
    requires dest != t.assets[id].folder && s.asset == Some(id) ==>
      Contained(MoveAsset(t, id, name, dest), roles, role, s)
    ensures RowOk(MoveAsset(t, id, name, dest), roles, role, s)
  {
  }

  ghost predicate MayMove(db: Db, id: Id, name: string, dest: Id)
  {
    id in db.tree.assets && (dest == db.tree.assets[id].folder || AssetMoveError(db, id, name, dest).None?)
  }

  lemma MovedAssetRows(db: Db, id: Id, name: string, dest: Id)
    requires Inv(db) && MayMove(db, id, name, dest)
    ensures TreeInv(db, MoveAsset(db.tree, id, name, dest))
  {
    var t' := MoveAsset(db.tree, id, name, dest);
    forall b | b in db.bindings ensures RowOk(t', db.roles, db.bindings[b].role, db.bindings[b].scope) {
      MoveAssetRow(db.tree, db.roles, id, name, dest, db.bindings[b].role, db.bindings[b].scope);
    }
    forall q | q in db.policies ensures RowOk(t', db.roles, db.policies[q].role, db.policies[q].scope) {
      assert db.policies[q].role in RoleRefs(db.policies[q]);
      MoveAssetRow(db.tree, db.roles, id, name, dest, db.policies[q].role, db.policies[q].scope);
    }
  }

  lemma PutAssetKeeps(db: Db, id: Id, name: string, dest: Id)
    requires Inv(db) && MayMove(db, id, name, dest)
    ensures Inv(PutAsset(db, id, name, dest).db)
  {
    var s := PutAsset(db, id, name, dest);
    if s.out == Done {
      MovedAssetRows(db, id, name, dest);
      UpdatedAssetNames(db, s.db, id, name, dest);
    }
  }

  lemma UpdateAssetCases(db: Db, id: Id, name: Option<string>, folder: Option<Id>)
    ensures var db' := UpdateAsset(db, id, name, folder).db;
      db' == db || exists newName, dest :: MayMove(db, id, newName, dest) && db' == PutAsset(db, id, newName, dest).db
  {
    if id in db.tree.assets {
      var newName := if name.Some? then name.value else db.tree.assets[id].name;
      var dest := if folder.Some? then folder.value else db.tree.assets[id].folder;
      assert dest == db.tree.assets[id].folder || AssetMoveError(db, id, newName, dest).None? ==>
        MayMove(db, id, newName, dest);
    }
  }

  lemma UpdateAssetKeeps(db: Db, id: Id, name: Option<string>, folder: Option<Id>)
    requires Inv(db)
    ensures Inv(UpdateAsset(db, id, name, folder).db)
  {
    UpdateAssetCases(db, id, name, folder);
    var db' := UpdateAsset(db, id, name, folder).db;
    if db' != db {
      var newName, dest :| MayMove(db, id, newName, dest) && db' == PutAsset(db, id, newName, dest).db;
      PutAssetKeeps(db, id, newName, dest);
    }
  }

  lemma UpdatedAssetNames(db: Db, db': Db, id: Id, newName: string, dest: Id)
    requires NamesOk(db.tree, db.names) && id in db.tree.assets && Canonical(newName)
    requires Rename(db.names, AssetEntry(id), NameKey(Some(dest), newName)) == Some(db'.names)
    requires db'.tree == MoveAsset(db.tree, id, newName, dest)
    ensures NamesOk(db'.tree, db'.names)
  {
    var t, t' := db.tree, db'.tree;
    forall f | f in t'.folders ensures FolderNamed(t'.folders, db'.names, f) {
      assert FolderNamed(t.folders, db.names, f);
    }
    forall a | a in t'.assets ensures AssetNamed(t'.assets, db'.names, a) {
      if a != id { assert AssetNamed(t.assets, db.names, a); }
    }
    forall k | k in db'.names ensures EntryOk(t', k, db'.names[k]) {
      if db'.names[k] != AssetEntry(id) { assert EntryOk(t, k, db.names[k]); }
    }
  }

  lemma DeleteAssetKeeps(db: Db, id: Id)
    requires Inv(db)
    ensures Inv(DeleteAsset(db, id).db)
  {
    var db' := DeleteAsset(db, id).db;
    var t, t' := db.tree, db'.tree;
    forall role, s | RowOk(t, db.roles, role, s) && s.asset != Some(id) ensures RowOk(t', db.roles, role, s) {
      assert ScopeNode(t'.assets, s) == ScopeNode(t.assets, s);
    }
    DropEntryNames(t, t', db.names, AssetEntry(id));
  }

  // ---- roles, bindings, policies --------------------------------------------------------

  lemma CreateRoleKeeps(db: Db, id: Id, home: Option<Id>)
    requires Inv(db)
    ensures Inv(CreateRole(db, id, home).db)
  {
    var roles' := CreateRole(db, id, home).db.roles;
    forall role, s | RowOk(db.tree, db.roles, role, s) ensures RowOk(db.tree, roles', role, s) {}
  }

  lemma DeleteRoleKeeps(db: Db, id: Id)
    requires Inv(db)
    ensures Inv(DeleteRole(db, id).db)
  {
    var db' := DeleteRole(db, id).db;
    forall role, s | RowOk(db.tree, db.roles, role, s) && role != id ensures RowOk(db.tree, db'.roles, role, s) {}
  }

  /** Nothing standing mentions a deleted role; every other row survives, minus that reference. */
  lemma DeleteRoleLeavesNoReference(db: Db, id: Id)
    ensures var db' := DeleteRole(db, id).db;
      && db'.roles == db.roles - {id} && db'.tree == db.tree && db'.names == db.names
      && db'.groups == db.groups && db'.users == db.users
      && (forall b :: b in db'.bindings <==> b in db.bindings && db.bindings[b].role != id)
      && (forall b :: b in db'.bindings ==> db'.bindings[b] == db.bindings[b])
      && (forall q :: q in db'.policies <==> q in db.policies && db.policies[q].role != id)
      && (forall q :: q in db'.policies ==>
            var row, row' := db.policies[q], db'.policies[q];
            && row'.role == row.role && row'.scope == row.scope
            && row'.requester == (if row.requester == Some(id) then None else row.requester)
            && row'.approver == (if row.approver == Some(id) then None else row.approver))
      && (forall e :: e in db'.rewrites <==> e in db.rewrites && e.role != id && e.source != id)
  {
  }

  /** Its policies take their subjects along; every other subject stays. */
  lemma DeleteRoleSubjects(db: Db, id: Id)
    requires LinksOk(db)
    ensures var db' := DeleteRole(db, id).db;
      forall s :: s in db'.subjects <==> s in db.subjects && db.subjects[s].policy in db'.policies
  {
  }

  /** A missing parent, and nothing else, is answered with an internal error. */
  lemma MissingParentInternal(db: Db, id: Id, parent: Option<Id>, name: string)
    ensures CreateFolder(db, id, parent, name).out == Refused(Internal) <==>
      parent.Some? && parent.value !in db.tree.folders
    ensures CreateFolder(db, id, parent, name).out != Done ==> CreateFolder(db, id, parent, name).db == db
  {
  }

  lemma CreateBindingKeeps(db: Db, id: Id, row: BindingRow, grantable: bool)
    requires Inv(db)
    ensures Inv(CreateBinding(db, id, row, grantable).db)
  {
  }

  lemma CreatePolicyKeeps(db: Db, id: Id, row: PolicyRow, grantable: bool)
    requires Inv(db)
    ensures Inv(CreatePolicy(db, id, row, grantable).db)
  {
  }

  lemma DeleteBindingKeeps(db: Db, id: Id)
    requires Inv(db)
    ensures Inv(DeleteBinding(db, id).db)
  {
  }

  lemma UpdatePolicyKeeps(db: Db, id: Id, requester: Option<Id>, approver: Option<Id>)
    requires Inv(db)
    ensures Inv(UpdatePolicy(db, id, requester, approver).db)
  {
  }

  lemma DeletePolicyKeeps(db: Db, id: Id)
    requires Inv(db)
    ensures Inv(DeletePolicy(db, id).db)
  {
  }

  /** Groups, policy subjects and rewrites are not part of the other invariants. */
  lemma LinkEditsKeep(db: Db, db': Db)
    requires Inv(db)
    requires db' == db.(users := db'.users, groups := db'.groups, subjects := db'.subjects, rewrites := db'.rewrites)
    ensures Inv(db')
  {
  }

  lemma DeleteSubjectKeeps(db: Db, s: Subject)
    requires Inv(db)
    ensures Inv(DeleteSubject(db, s).db)
  {
  }

  // ---- links ----------------------------------------------------------------------------

  /** A write that touches only the tree and its names, and takes no folder a group is homed in. */
  ghost predicate OnlyTree(db: Db, db': Db)
  {
    && db' == db.(tree := db'.tree, names := db'.names)
    && forall g :: g in db.groups && db.groups[g].Some? && db.groups[g].value in db.tree.folders ==>
         db.groups[g].value in db'.tree.folders
  }

  lemma UpdatesOnlyTree(db: Db, op: Op)
    requires op.OpUpdateFolder? || op.OpUpdateAsset?
    ensures OnlyTree(db, Apply(db, op).db)
  {
    if op.OpUpdateFolder? {
      UpdateFolderCases(db, op.id, op.newName, op.newParent);
      var db' := UpdateFolder(db, op.id, op.newName, op.newParent).db;
      if db' != db {
        var np, moved, newName :| MovedTo(db, op.id, np, moved) && db' == PutFolder(db, op.id, moved, np, newName).db;
        if moved != db.tree.folders { ReparentShape(db.tree.folders, op.id, np); }
      }
    } else {
      UpdateAssetCases(db, op.id, op.newName, op.newFolder);
    }
  }

  lemma EditsOnlyTree(db: Db, op: Op)
    requires op.OpCreateFolder? || op.OpDeleteFolder? || op.OpCreateAsset?
    ensures OnlyTree(db, Apply(db, op).db)
  {
  }

  lemma DeleteAssetLinks(db: Db, id: Id)
    requires LinksOk(db)
    ensures LinksOk(DeleteAsset(db, id).db)
  {
  }

  /** Every write leaves groups homed, subjects attached and rewrites between existing roles. */
  lemma TreeLinksKept(db: Db, op: Op)
    requires LinksOk(db) && TreeOp(op)
    ensures LinksOk(Apply(db, op).db)
  {
    if op.OpDeleteAsset? {
      DeleteAssetLinks(db, op.id);
    } else if op.OpUpdateFolder? || op.OpUpdateAsset? {
      UpdatesOnlyTree(db, op);
    } else {
      EditsOnlyTree(db, op);
    }
  }

  lemma RowLinksKept(db: Db, op: Op)
    requires LinksOk(db) && !TreeOp(op)
    ensures LinksOk(Apply(db, op).db)
  {
  }

  // ---- the theorem ----------------------------------------------------------------------

  predicate TreeOp(op: Op)
  {
    op.OpCreateFolder? || op.OpUpdateFolder? || op.OpDeleteFolder? || op.OpCreateAsset? || op.OpUpdateAsset? ||
      op.OpDeleteAsset?
  }

  predicate LinkOp(op: Op)
  {
    || op.OpCreateUser? || op.OpCreateGroup?
    || op.OpAddRewrite? || op.OpRemoveRewrite? || op.OpAddSubject? || op.OpRemoveSubject?
  }

  lemma LinkStep(db: Db, op: Op)
    requires LinkOp(op)
    ensures var db' := Apply(db, op).db;
      db' == db.(users := db'.users, groups := db'.groups, subjects := db'.subjects, rewrites := db'.rewrites)
  {
  }

  lemma TreeStepKeeps(db: Db, op: Op)
    requires Inv(db) && TreeOp(op)
    ensures Inv(Apply(db, op).db)
  {
    match op
    case OpCreateFolder(id, parent, name) => CreateFolderKeeps(db, id, parent, name);
    case OpUpdateFolder(id, newName, newParent) => UpdateFolderKeeps(db, id, newName, newParent);
    case OpDeleteFolder(id) => DeleteFolderKeeps(db, id);
    case OpCreateAsset(id, folder, name) => CreateAssetKeeps(db, id, folder, name);
    case OpUpdateAsset(id, newName, newFolder) => UpdateAssetKeeps(db, id, newName, newFolder);
    case OpDeleteAsset(id) => DeleteAssetKeeps(db, id);
  }

  lemma RowStepKeeps(db: Db, op: Op)
    requires Inv(db) && !TreeOp(op) && !LinkOp(op)
    ensures Inv(Apply(db, op).db)
  {
    match op
    case OpCreateRole(id, home) => CreateRoleKeeps(db, id, home);
    case OpDeleteRole(id) => DeleteRoleKeeps(db, id);
    case OpDeleteSubject(subject) => DeleteSubjectKeeps(db, subject);
    case OpCreateBinding(id, row, grantable) => CreateBindingKeeps(db, id, row, grantable);
    case OpDeleteBinding(id) => DeleteBindingKeeps(db, id);
    case OpCreatePolicy(id, row, grantable) => CreatePolicyKeeps(db, id, row, grantable);
    case OpUpdatePolicy(id, requester, approver) => UpdatePolicyKeeps(db, id, requester, approver);
    case OpDeletePolicy(id) => DeletePolicyKeeps(db, id);
  }

  lemma StepKeeps(db: Db, op: Op)
    requires Inv(db)
    ensures Inv(Apply(db, op).db)
  {
    if TreeOp(op) {
      TreeStepKeeps(db, op);
    } else if LinkOp(op) {
      LinkStep(db, op);
      LinkEditsKeep(db, Apply(db, op).db);
    } else {
      RowStepKeeps(db, op);
    }
  }

  lemma {:induction false} RunKeeps(db: Db, ops: seq<Op>)
    requires Inv(db) && LinksOk(db)
    ensures Inv(Run(db, ops)) && LinksOk(Run(db, ops))
    decreases |ops|
  {
    if ops != [] {
      StepKeeps(db, ops[0]);
      if TreeOp(ops[0]) { TreeLinksKept(db, ops[0]); } else { RowLinksKept(db, ops[0]); }
      RunKeeps(Apply(db, ops[0]).db, ops[1..]);
    }
  }

  /** In every reachable state each binding and each policy's granted role is global or homed at
      an ancestor-or-self of its scope, the folders form a forest, the materialised paths are
      right, sibling names are unique, and no group, policy subject or rewrite refers to what is
      gone. */
  lemma Reachable(ops: seq<Op>)
    ensures Inv(Run(EMPTY, ops)) && LinksOk(Run(EMPTY, ops))
  {
    assert ParentsOf(EMPTY.tree.folders) == map[] && PathsOf(EMPTY.tree.folders) == map[];
    RunKeeps(EMPTY, ops);
  }
}
