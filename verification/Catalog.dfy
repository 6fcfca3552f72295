/** The catalog and access-configuration tables, every write to them as one transaction, and
    the invariants no sequence of writes breaks. The writes are specified by what must be
    true of the tables AFTER them; CatalogService computes the same answers beforehand. */
module Catalog {
  import opened Basics
  import opened Forest
  import opened Ltree

  // ---- tables -----------------------------------------------------------------------

  datatype FolderRow = FolderRow(name: string, parent: Option<Id>, path: seq<Id>)
  datatype AssetRow = AssetRow(name: string, folder: Id)

  /** The two nullable scope columns; both None is a global scope. */
  datatype Scope = Scope(folder: Option<Id>, asset: Option<Id>)

  datatype Subject = User(user: Id) | Group(group: Id)

  datatype BindingRow = BindingRow(role: Id, scope: Scope, subject: Subject)
  datatype PolicyRow = PolicyRow(role: Id, scope: Scope, requester: Option<Id>, approver: Option<Id>)

  /** A request_policy_subjects row. */
  datatype PolicySubject = PolicySubject(policy: Id, subject: Subject)

  /** A role_grants row: holding `source` confers `role`, on the same object or on its children. */
  datatype Via = SameObject | Parent
  datatype RoleGrant = RoleGrant(role: Id, source: Id, via: Via)

  /** catalog_names: one namespace of siblings, folders and assets together. */
  datatype NameKey = NameKey(parent: Option<Id>, name: string)
  datatype Entry = FolderEntry(id: Id) | AssetEntry(id: Id)

  type Names = map<NameKey, Entry>

  /** Role or group id to home folder; None for a global one. */
  type Homes = map<Id, Option<Id>>

  /** The catalog tree: folders and the assets in them. */
  datatype Tree = Tree(folders: map<Id, FolderRow>, assets: map<Id, AssetRow>)

  datatype Db = Db(
    tree: Tree,
    names: Names,
    roles: Homes,
    groups: Homes,
    users: set<Id>,
    bindings: map<Id, BindingRow>,
    policies: map<Id, PolicyRow>,
    subjects: map<Id, PolicySubject>,
    rewrites: set<RoleGrant>)

  const EMPTY := Db(Tree(map[], map[]), map[], map[], map[], {}, map[], map[], map[], {})

  function ParentsOf(folders: map<Id, FolderRow>): Parents
  {
    map f | f in folders :: folders[f].parent
  }

  function PathsOf(folders: map<Id, FolderRow>): Paths
  {
    map f | f in folders :: folders[f].path
  }

  /** The canonical-name check constraint. */
  predicate Canonical(name: string)
  {
    name != "" && forall i :: 0 <= i < |name| ==>
      ('a' <= name[i] <= 'z') || ('0' <= name[i] <= '9') || name[i] == '_' || name[i] == '-'
  }

  // ---- containment ------------------------------------------------------------------

  /** The folder a scope sits in: the scope folder, or a scope asset's folder. */
  function ScopeNode(assets: map<Id, AssetRow>, s: Scope): Option<Id>
  {
    if s.folder.Some? then s.folder
    else if s.asset.Some? && s.asset.value in assets then Some(assets[s.asset.value].folder)
    else None
  }

  /** A global role fits any scope; a homed role only one at or below its home. */
  ghost predicate Contained(t: Tree, roles: Homes, role: Id, s: Scope)
  {
    && role in roles
    && (roles[role].Some? ==>
        var node := ScopeNode(t.assets, s);
        node.Some? && roles[role].value in Ancestors(ParentsOf(t.folders), node.value))
  }

  function RoleRefs(p: PolicyRow): set<Id>
  {
    {p.role}
    + (if p.requester.Some? then {p.requester.value} else {})
    + (if p.approver.Some? then {p.approver.value} else {})
  }

  // ---- invariants ---------------------------------------------------------------------

  ghost predicate ForestOk(folders: map<Id, FolderRow>)
  {
    PathsOk(ParentsOf(folders), PathsOf(folders)) && Acyclic(ParentsOf(folders))
  }

  ghost predicate AssetsOk(t: Tree)
  {
    forall a :: a in t.assets ==> t.assets[a].folder in t.folders
  }

  ghost predicate HomesOk(folders: map<Id, FolderRow>, roles: Homes)
  {
    forall r :: r in roles && roles[r].Some? ==> roles[r].value in folders
  }

  predicate ScopeOk(t: Tree, s: Scope)
  {
    && (s.folder.None? || s.asset.None?)
    && (s.folder.Some? ==> s.folder.value in t.folders)
    && (s.asset.Some? ==> s.asset.value in t.assets)
  }

  /** One binding's or policy's role and scope: foreign keys, the scope-shape check, containment. */
  ghost predicate RowOk(t: Tree, roles: Homes, role: Id, s: Scope)
  {
    role in roles && ScopeOk(t, s) && Contained(t, roles, role, s)
  }

  ghost predicate BindingsOk(t: Tree, roles: Homes, bindings: map<Id, BindingRow>)
  {
    forall b :: b in bindings ==> RowOk(t, roles, bindings[b].role, bindings[b].scope)
  }

  predicate OptIn(r: Option<Id>, roles: Homes) { r.Some? ==> r.value in roles }

  ghost predicate PoliciesOk(t: Tree, roles: Homes, policies: map<Id, PolicyRow>)
  {
    forall q :: q in policies ==>
      && RowOk(t, roles, policies[q].role, policies[q].scope)
      && OptIn(policies[q].requester, roles) && OptIn(policies[q].approver, roles)
  }

  /** One policy per role and scope (three partial unique indexes). */
  ghost predicate PoliciesUnique(policies: map<Id, PolicyRow>)
  {
    forall q, q' :: q in policies && q' in policies && q != q' ==>
      policies[q].role != policies[q'].role || policies[q].scope != policies[q'].scope
  }

  function FolderKey(r: FolderRow): NameKey { NameKey(r.parent, r.name) }
  function AssetKey(r: AssetRow): NameKey { NameKey(Some(r.folder), r.name) }

  ghost predicate FolderNamed(folders: map<Id, FolderRow>, names: Names, f: Id)
    requires f in folders
  {
    Canonical(folders[f].name) && FolderKey(folders[f]) in names && names[FolderKey(folders[f])] == FolderEntry(f)
  }

  ghost predicate AssetNamed(assets: map<Id, AssetRow>, names: Names, a: Id)
    requires a in assets
  {
    Canonical(assets[a].name) && AssetKey(assets[a]) in names && names[AssetKey(assets[a])] == AssetEntry(a)
  }

  predicate EntryOk(t: Tree, k: NameKey, e: Entry)
  {
    match e
    case FolderEntry(f) => f in t.folders && FolderKey(t.folders[f]) == k
    case AssetEntry(a) => a in t.assets && AssetKey(t.assets[a]) == k
  }

  /** catalog_names mirrors the folder and asset rows exactly, with canonical names. */
  ghost predicate NamesOk(t: Tree, names: Names)
  {
    && (forall f :: f in t.folders ==> FolderNamed(t.folders, names, f))
    && (forall a :: a in t.assets ==> AssetNamed(t.assets, names, a))
    && (forall k :: k in names ==> EntryOk(t, k, names[k]))
  }

  ghost predicate Inv(db: Db)
  {
    && ForestOk(db.tree.folders) && AssetsOk(db.tree) && HomesOk(db.tree.folders, db.roles)
    && NamesOk(db.tree, db.names)
    && BindingsOk(db.tree, db.roles, db.bindings)
    && PoliciesOk(db.tree, db.roles, db.policies) && PoliciesUnique(db.policies)
  }

  /** A user or group named as a subject exists. */
  predicate SubjectOk(users: set<Id>, groups: Homes, s: Subject)
  {
    match s case User(u) => u in users case Group(g) => g in groups
  }

  ghost predicate BindersOk(users: set<Id>, groups: Homes, bindings: map<Id, BindingRow>)
  {
    forall b :: b in bindings ==> SubjectOk(users, groups, bindings[b].subject)
  }

  ghost predicate SubjectsOk(
      policies: map<Id, PolicyRow>, users: set<Id>, groups: Homes, subjects: map<Id, PolicySubject>)
  {
    forall s :: s in subjects ==> subjects[s].policy in policies && SubjectOk(users, groups, subjects[s].subject)
  }

  /** The no_self_same_object check. */
  predicate SelfLoop(e: RoleGrant) { e.via == SameObject && e.role == e.source }

  ghost predicate RewritesOk(roles: Homes, rewrites: set<RoleGrant>)
  {
    forall e :: e in rewrites ==> e.role in roles && e.source in roles && !SelfLoop(e)
  }

  /** Groups, subjects and rewrites refer to what exists. */
  ghost predicate LinksOk(db: Db)
  {
    && HomesOk(db.tree.folders, db.groups) && BindersOk(db.users, db.groups, db.bindings)
    && SubjectsOk(db.policies, db.users, db.groups, db.subjects) && RewritesOk(db.roles, db.rewrites)
  }

  // ---- transactions -------------------------------------------------------------------

  datatype Code = NotFound | PermissionDenied | InvalidArgument | AlreadyExists | FailedPrecondition | Internal
  datatype Outcome = Done | Refused(code: Code)
  datatype Step = Step(db: Db, out: Outcome)

  function Refuse(db: Db, c: Code): Step { Step(db, Refused(c)) }

  /** The insert trigger: the parent's path and the new id. A parent that is not there has a NULL path,
      and NULL concatenated with anything is NULL. */
  function NewPath(paths: Paths, parent: Option<Id>, id: Id): Option<seq<Id>>
  {
    if parent.Some? && parent.value !in paths then None else Some(PathAbove(paths, parent) + [id])
  }

  /** path_ids is NOT NULL, which is checked before the other constraints and has no code of its own. */
  function CreateFolder(db: Db, id: Id, parent: Option<Id>, name: string): Step
  {
    var folders := db.tree.folders;
    var path := NewPath(PathsOf(folders), parent, id);
    if path.None? then Refuse(db, Internal)
    else if !Canonical(name) then Refuse(db, InvalidArgument)
    else if id in folders || NameKey(parent, name) in db.names then Refuse(db, AlreadyExists)
    else
      var row := FolderRow(name, parent, path.value);
      Step(db.(tree := db.tree.(folders := folders[id := row]),
               names := db.names[NameKey(parent, name) := FolderEntry(id)]), Done)
  }

  /** The folder rows after UPDATE parent_id and the path trigger. */
  function Reparent(folders: map<Id, FolderRow>, id: Id, np: Option<Id>): map<Id, FolderRow>
    requires id in folders
  {
    var t := MovePaths(PathsOf(folders), id, np);
    map f | f in folders :: if f == id then FolderRow(folders[f].name, np, t[f]) else folders[f].(path := t[f])
  }

  ghost predicate ScopedIn(assets: map<Id, AssetRow>, sub: set<Id>, s: Scope)
  {
    ScopeNode(assets, s).Some? && ScopeNode(assets, s).value in sub
  }

  /** Every binding, and every role a policy names, scoped inside `sub` is contained in the new tree. */
  ghost predicate AllContainedIn(db: Db, tree': Tree, sub: set<Id>)
  {
    && (forall b :: b in db.bindings && ScopedIn(db.tree.assets, sub, db.bindings[b].scope) ==>
          Contained(tree', db.roles, db.bindings[b].role, db.bindings[b].scope))
    && (forall q, r ::
          q in db.policies && ScopedIn(db.tree.assets, sub, db.policies[q].scope) && r in RoleRefs(db.policies[q]) ==>
          Contained(tree', db.roles, r, db.policies[q].scope))
  }

  /** Re-keying one catalog_names row; None when a sibling holds the new key. */
  function Rename(names: Names, e: Entry, key: NameKey): Option<Names>
  {
    if key in names && names[key] != e then None
    else Some((map k | k in names && names[k] != e :: names[k])[key := e])
  }

  /** Why a move to np is refused: a cycle, a containment violation, or no such folder. */
  ghost function FolderMoveError(db: Db, id: Id, np: Option<Id>): Option<Code>
    requires id in db.tree.folders
  {
    var sub := Subtree(ParentsOf(db.tree.folders), id);
    if np.Some? && np.value in sub then Some(FailedPrecondition)
    else if !AllContainedIn(db, db.tree.(folders := Reparent(db.tree.folders, id, np)), sub)
      then Some(FailedPrecondition)
    else if np.Some? && np.value !in db.tree.folders then Some(InvalidArgument)
    else None
  }

  /** The row update and its catalog_names entry. */
  function PutFolder(db: Db, id: Id, moved: map<Id, FolderRow>, np: Option<Id>, name: string): Step
    requires id in moved
  {
    if !Canonical(name) then Refuse(db, InvalidArgument)
    else match Rename(db.names, FolderEntry(id), NameKey(np, name))
      case None => Refuse(db, AlreadyExists)
      case Some(ns) => Step(db.(tree := db.tree.(folders := moved[id := moved[id].(name := name)]), names := ns), Done)
  }

  /** Rename and/or reparent. `name` is already lower-cased; `parent` is Some(None) for a move to the root. */
  ghost function UpdateFolder(db: Db, id: Id, name: Option<string>, parent: Option<Option<Id>>): Step
  {
    var folders := db.tree.folders;
    if id !in folders then Refuse(db, NotFound)
    else
      var cur := folders[id];
      var newName := if name.Some? then name.value else cur.name;
      var np := if parent.Some? then parent.value else cur.parent;
      if np == cur.parent then
        if newName == cur.name then Step(db, Done) else PutFolder(db, id, folders, np, newName)
      else match FolderMoveError(db, id, np)
        case Some(c) => Refuse(db, c)
        case None => PutFolder(db, id, Reparent(folders, id, np), np, newName)
  }

  predicate FolderReferenced(db: Db, id: Id)
  {
    || (exists f :: f in db.tree.folders && db.tree.folders[f].parent == Some(id))
    || (exists a :: a in db.tree.assets && db.tree.assets[a].folder == id)
    || (exists r :: r in db.roles && db.roles[r] == Some(id))
    || (exists g :: g in db.groups && db.groups[g] == Some(id))
    || (exists b :: b in db.bindings && db.bindings[b].scope.folder == Some(id))
    || (exists q :: q in db.policies && db.policies[q].scope.folder == Some(id))
  }

  function DropEntry(names: Names, e: Entry): Names
  {
    map k | k in names && names[k] != e :: names[k]
  }

  ghost function DeleteFolder(db: Db, id: Id): Step
  {
    if FolderReferenced(db, id) then Refuse(db, FailedPrecondition)
    else Step(db.(tree := db.tree.(folders := db.tree.folders - {id}),
                  names := DropEntry(db.names, FolderEntry(id))), Done)
  }

  function CreateAsset(db: Db, id: Id, folder: Id, name: string): Step
  {
    if !Canonical(name) || folder !in db.tree.folders then Refuse(db, InvalidArgument)
    else if id in db.tree.assets || NameKey(Some(folder), name) in db.names then Refuse(db, AlreadyExists)
    else Step(db.(tree := db.tree.(assets := db.tree.assets[id := AssetRow(name, folder)]),
                  names := db.names[NameKey(Some(folder), name) := AssetEntry(id)]), Done)
  }

  function MoveAsset(tree: Tree, id: Id, name: string, dest: Id): Tree
  {
    tree.(assets := tree.assets[id := AssetRow(name, dest)])
  }

  ghost predicate AssetMoveSafe(db: Db, id: Id, tree': Tree)
  {
    && (forall b :: b in db.bindings && db.bindings[b].scope.asset == Some(id) ==>
          Contained(tree', db.roles, db.bindings[b].role, db.bindings[b].scope))
    && (forall q, r :: q in db.policies && db.policies[q].scope.asset == Some(id) && r in RoleRefs(db.policies[q]) ==>
          Contained(tree', db.roles, r, db.policies[q].scope))
  }

  ghost function AssetMoveError(db: Db, id: Id, name: string, dest: Id): Option<Code>
  {
    if !AssetMoveSafe(db, id, MoveAsset(db.tree, id, name, dest)) then Some(FailedPrecondition)
    else if dest !in db.tree.folders then Some(InvalidArgument)
    else None
  }

  function PutAsset(db: Db, id: Id, name: string, dest: Id): Step
  {
    if !Canonical(name) then Refuse(db, InvalidArgument)
    else match Rename(db.names, AssetEntry(id), NameKey(Some(dest), name))
      case None => Refuse(db, AlreadyExists)
      case Some(ns) => Step(db.(tree := MoveAsset(db.tree, id, name, dest), names := ns), Done)
  }

  ghost function UpdateAsset(db: Db, id: Id, name: Option<string>, folder: Option<Id>): Step
  {
    if id !in db.tree.assets then Refuse(db, NotFound)
    else
      var cur := db.tree.assets[id];
      var newName := if name.Some? then name.value else cur.name;
      var dest := if folder.Some? then folder.value else cur.folder;
      if dest == cur.folder then
        if newName == cur.name then Step(db, Done) else PutAsset(db, id, newName, dest)
      else match AssetMoveError(db, id, newName, dest)
        case Some(c) => Refuse(db, c)
        case None => PutAsset(db, id, newName, dest)
  }

  /** Asset-scoped bindings and policies go with the asset (foreign-key cascade). */
  function DeleteAsset(db: Db, id: Id): Step
  {
    Step(db.(tree := db.tree.(assets := db.tree.assets - {id}),
             names := DropEntry(db.names, AssetEntry(id)),
             bindings := map b | b in db.bindings && db.bindings[b].scope.asset != Some(id) :: db.bindings[b],
             policies := map q | q in db.policies && db.policies[q].scope.asset != Some(id) :: db.policies[q],
             subjects := map s | s in db.subjects &&
               !PolicyOnAsset(db.policies, db.subjects[s].policy, id) :: db.subjects[s]),
         Done)
  }

  predicate PolicyOnAsset(policies: map<Id, PolicyRow>, q: Id, asset: Id)
  {
    q in policies && policies[q].scope.asset == Some(asset)
  }

  function CreateUser(db: Db, id: Id): Step
  {
    if id in db.users then Refuse(db, AlreadyExists) else Step(db.(users := db.users + {id}), Done)
  }

  function CreateGroup(db: Db, id: Id, home: Option<Id>): Step
  {
    if home.Some? && home.value !in db.tree.folders then Refuse(db, InvalidArgument)
    else if id in db.groups then Refuse(db, AlreadyExists)
    else Step(db.(groups := db.groups[id := home]), Done)
  }

  /** Bindings and policy subjects naming the user or group go with it. */
  function DeleteSubject(db: Db, s: Subject): Step
  {
    Step(db.(groups := if s.Group? then db.groups - {s.group} else db.groups,
             users := if s.User? then db.users - {s.user} else db.users,
             bindings := map b | b in db.bindings && db.bindings[b].subject != s :: db.bindings[b],
             subjects := map x | x in db.subjects && db.subjects[x].subject != s :: db.subjects[x]), Done)
  }

  function CreateRole(db: Db, id: Id, home: Option<Id>): Step
  {
    if home.Some? && home.value !in db.tree.folders then Refuse(db, InvalidArgument)
    else if id in db.roles then Refuse(db, AlreadyExists)
    else Step(db.(roles := db.roles[id := home]), Done)
  }

  function Unless(r: Option<Id>, id: Id): Option<Id> { if r == Some(id) then None else r }

  /** The standing half of DeleteRoleCascade. */
  function DeleteRole(db: Db, id: Id): Step
  {
    Step(db.(roles := db.roles - {id},
             bindings := map b | b in db.bindings && db.bindings[b].role != id :: db.bindings[b],
             policies := map q | q in db.policies && db.policies[q].role != id ::
               db.policies[q].(requester := Unless(db.policies[q].requester, id),
                               approver := Unless(db.policies[q].approver, id)),
             subjects := map s | s in db.subjects &&
               !PolicyFor(db.policies, db.subjects[s].policy, id) :: db.subjects[s],
             rewrites := set e | e in db.rewrites && e.role != id && e.source != id), Done)
  }

  predicate PolicyFor(policies: map<Id, PolicyRow>, q: Id, role: Id)
  {
    q in policies && policies[q].role == role
  }

  /** AddRoleGrant; `grantable` is the answer of the no-escalation guard. */
  function AddRewrite(db: Db, e: RoleGrant, grantable: bool): Step
  {
    if e.role !in db.roles then Refuse(db, NotFound)
    else if !grantable then Refuse(db, PermissionDenied)
    else if SelfLoop(e) || e.source !in db.roles then Refuse(db, InvalidArgument)
    else if e in db.rewrites then Refuse(db, AlreadyExists)
    else Step(db.(rewrites := db.rewrites + {e}), Done)
  }

  function RemoveRewrite(db: Db, e: RoleGrant): Step
  {
    Step(db.(rewrites := db.rewrites - {e}), Done)
  }

  /** containedInRoleSubtree, by the truth it must establish. */
  ghost function CheckContained(db: Db, role: Id, s: Scope): Outcome
  {
    if role !in db.roles then Refused(InvalidArgument)
    else if db.roles[role].None? then Done
    else if s.folder.None? && s.asset.Some? && s.asset.value !in db.tree.assets then Refused(InvalidArgument)
    else if Contained(db.tree, db.roles, role, s) then Done
    else Refused(FailedPrecondition)
  }

  ghost function CreateBinding(db: Db, id: Id, row: BindingRow, grantable: bool): Step
  {
    if row.role !in db.roles then Refuse(db, NotFound)
    else if !grantable then Refuse(db, PermissionDenied)
    else match CheckContained(db, row.role, row.scope)
      case Refused(c) => Refuse(db, c)
      case Done =>
        if !ScopeOk(db.tree, row.scope) || !SubjectOk(db.users, db.groups, row.subject) then Refuse(db, InvalidArgument)
        else if id in db.bindings then Refuse(db, AlreadyExists)
        else Step(db.(bindings := db.bindings[id := row]), Done)
  }

  function DeleteBinding(db: Db, id: Id): Step
  {
    Step(db.(bindings := db.bindings - {id}), Done)
  }

  predicate PolicyTaken(policies: map<Id, PolicyRow>, row: PolicyRow)
  {
    exists q :: q in policies && policies[q].role == row.role && policies[q].scope == row.scope
  }

  ghost function CreatePolicy(db: Db, id: Id, row: PolicyRow, grantable: bool): Step
  {
    if row.role !in db.roles then Refuse(db, NotFound)
    else if !grantable then Refuse(db, PermissionDenied)
    else match CheckContained(db, row.role, row.scope)
      case Refused(c) => Refuse(db, c)
      case Done =>
        if !ScopeOk(db.tree, row.scope) || !OptIn(row.requester, db.roles) || !OptIn(row.approver, db.roles) then
          Refuse(db, InvalidArgument)
        else if id in db.policies || PolicyTaken(db.policies, row) then Refuse(db, AlreadyExists)
        else Step(db.(policies := db.policies[id := row]), Done)
  }

  /** Only the requester and approver roles (and fields this model omits) can change. */
  function UpdatePolicy(db: Db, id: Id, requester: Option<Id>, approver: Option<Id>): Step
  {
    if id !in db.policies then Refuse(db, Internal)
    else if !OptIn(requester, db.roles) || !OptIn(approver, db.roles) then Refuse(db, InvalidArgument)
    else Step(db.(policies := db.policies[id := db.policies[id].(requester := requester, approver := approver)]), Done)
  }

  function DeletePolicy(db: Db, id: Id): Step
  {
    Step(db.(policies := db.policies - {id},
             subjects := map s | s in db.subjects && db.subjects[s].policy != id :: db.subjects[s]), Done)
  }

  function AddSubject(db: Db, id: Id, row: PolicySubject): Step
  {
    if row.policy !in db.policies || !SubjectOk(db.users, db.groups, row.subject) then Refuse(db, InvalidArgument)
    else if id in db.subjects then Refuse(db, AlreadyExists)
    else Step(db.(subjects := db.subjects[id := row]), Done)
  }

  function RemoveSubject(db: Db, id: Id): Step
  {
    Step(db.(subjects := db.subjects - {id}), Done)
  }

  // ---- runs -----------------------------------------------------------------------------

  datatype Op =
    | OpCreateFolder(id: Id, parent: Option<Id>, name: string)
    | OpUpdateFolder(id: Id, newName: Option<string>, newParent: Option<Option<Id>>)
    | OpDeleteFolder(id: Id)
    | OpCreateAsset(id: Id, folder: Id, name: string)
    | OpUpdateAsset(id: Id, newName: Option<string>, newFolder: Option<Id>)
    | OpDeleteAsset(id: Id)
    | OpCreateRole(id: Id, home: Option<Id>)
    | OpDeleteRole(id: Id)
    | OpCreateUser(id: Id)
    | OpCreateGroup(id: Id, home: Option<Id>)
    | OpDeleteSubject(subject: Subject)
    | OpAddRewrite(edge: RoleGrant, grantable: bool)
    | OpRemoveRewrite(edge: RoleGrant)
    | OpCreateBinding(id: Id, binding: BindingRow, grantable: bool)
    | OpDeleteBinding(id: Id)
    | OpCreatePolicy(id: Id, policy: PolicyRow, grantable: bool)
    | OpUpdatePolicy(id: Id, requester: Option<Id>, approver: Option<Id>)
    | OpDeletePolicy(id: Id)
    | OpAddSubject(id: Id, policySubject: PolicySubject)
    | OpRemoveSubject(id: Id)

  ghost function Apply(db: Db, op: Op): Step
  {
    match op
    case OpCreateFolder(id, parent, name) => CreateFolder(db, id, parent, name)
    case OpUpdateFolder(id, newName, newParent) => UpdateFolder(db, id, newName, newParent)
    case OpDeleteFolder(id) => DeleteFolder(db, id)
    case OpCreateAsset(id, folder, name) => CreateAsset(db, id, folder, name)
    case OpUpdateAsset(id, newName, newFolder) => UpdateAsset(db, id, newName, newFolder)
    case OpDeleteAsset(id) => DeleteAsset(db, id)
    case OpCreateRole(id, home) => CreateRole(db, id, home)
    case OpDeleteRole(id) => DeleteRole(db, id)
    case OpCreateUser(id) => CreateUser(db, id)
    case OpCreateGroup(id, home) => CreateGroup(db, id, home)
    case OpDeleteSubject(subject) => DeleteSubject(db, subject)
    case OpAddRewrite(e, grantable) => AddRewrite(db, e, grantable)
    case OpRemoveRewrite(e) => RemoveRewrite(db, e)
    case OpCreateBinding(id, row, grantable) => CreateBinding(db, id, row, grantable)
    case OpDeleteBinding(id) => DeleteBinding(db, id)
    case OpCreatePolicy(id, row, grantable) => CreatePolicy(db, id, row, grantable)
    case OpUpdatePolicy(id, requester, approver) => UpdatePolicy(db, id, requester, approver)
    case OpDeletePolicy(id) => DeletePolicy(db, id)
    case OpAddSubject(id, row) => AddSubject(db, id, row)
    case OpRemoveSubject(id) => RemoveSubject(db, id)
  }

  ghost function Run(db: Db, ops: seq<Op>): Db
    decreases |ops|
  {
    if ops == [] then db else Run(Apply(db, ops[0]).db, ops[1..])
  }
}
