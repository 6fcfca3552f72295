/** authz_effective_request_policy: the request policy that governs a role on an asset. */
module EffectivePolicy {
  import opened Basics
  import opened Forest
  import opened Catalog

  /** The rank the query gives a scopeless policy. */
  const DEFAULT_SPEC: nat := 1000000

  /** The query's candidate rows: asset override (0), folder override (depth + 1), role default. */
  ghost predicate Candidate(db: Db, role: Id, asset: Id, q: Id, spec: nat)
  {
    && asset in db.tree.assets && q in db.policies && db.policies[q].role == role
    && var s := db.policies[q].scope;
       || (s.asset == Some(asset) && spec == 0)
       || (s.folder.Some? && spec > 0
           && Up(ParentsOf(db.tree.folders), db.tree.assets[asset].folder, spec - 1) == s.folder)
       || (s == Scope(None, None) && spec == DEFAULT_SPEC)
  }

  /** ORDER BY spec LIMIT 1. */
  ghost predicate Effective(db: Db, role: Id, asset: Id, q: Id, spec: nat)
  {
    && Candidate(db, role, asset, q, spec)
    && forall q', spec' :: Candidate(db, role, asset, q', spec') ==> spec <= spec'
  }

  /** Whatever policy governs a role on an asset, the role is global or homed at or above the
      asset: just-in-time access to a homed role cannot be requested outside its home. */
  lemma EffectiveContained(db: Db, role: Id, asset: Id, q: Id, spec: nat)
    requires Inv(db) && Candidate(db, role, asset, q, spec)
    ensures role in db.roles
    ensures db.roles[role].Some? ==>
      db.roles[role].value in Ancestors(ParentsOf(db.tree.folders), db.tree.assets[asset].folder)
  {
    var p, s := ParentsOf(db.tree.folders), db.policies[q].scope;
    assert RowOk(db.tree, db.roles, role, s);
    if db.roles[role].Some? && s.folder.Some? {
      var home, folder := db.roles[role].value, db.tree.assets[asset].folder;
      ReachesIn(p, s.folder.value, home);
      ReachesTrans(p, folder, s.folder.value, home);
      ReachesIn(p, folder, home);
    }
  }

  /** The policy is for the role, on the asset itself, on its folder or one above, or for the role as such. */
  ghost predicate Applies(db: Db, role: Id, asset: Id, q: Id)
  {
    && asset in db.tree.assets && q in db.policies && db.policies[q].role == role
    && var s := db.policies[q].scope;
       || s.asset == Some(asset)
       || (s.folder.Some? && s.folder.value in Ancestors(ParentsOf(db.tree.folders), db.tree.assets[asset].folder))
       || s == Scope(None, None)
  }

  lemma AppliesIsCandidate(db: Db, role: Id, asset: Id, q: Id)
    ensures Applies(db, role, asset, q) <==> exists spec: nat :: Candidate(db, role, asset, q, spec)
  {
    if Applies(db, role, asset, q) {
      var p, s, folder := ParentsOf(db.tree.folders), db.policies[q].scope, db.tree.assets[asset].folder;
      if s.asset == Some(asset) {
        assert Candidate(db, role, asset, q, 0);
      } else if s.folder.Some? {
        var n: nat :| Up(p, folder, n) == Some(s.folder.value);
        assert Candidate(db, role, asset, q, n + 1);
      } else {
        assert Candidate(db, role, asset, q, DEFAULT_SPEC);
      }
    }
    if spec: nat :| Candidate(db, role, asset, q, spec) {
      var s := db.policies[q].scope;
      if s.folder.Some? && s.asset != Some(asset) {
        UpIn(ParentsOf(db.tree.folders), db.tree.assets[asset].folder, spec - 1);
      }
    }
  }

  lemma {:induction false} LeastCandidate(db: Db, role: Id, asset: Id, q: Id, spec: nat)
    requires Candidate(db, role, asset, q, spec)
    ensures exists q': Id, spec': nat :: Effective(db, role, asset, q', spec')
    decreases spec
  {
    if !Effective(db, role, asset, q, spec) {
      var q': Id, spec': nat :| Candidate(db, role, asset, q', spec') && spec' < spec;
      LeastCandidate(db, role, asset, q', spec');
    }
  }

  /** Some policy governs a role on an asset exactly if one applies there; it is one that applies. */
  lemma GovernedExactly(db: Db, role: Id, asset: Id)
    ensures (exists q: Id, spec: nat :: Effective(db, role, asset, q, spec)) <==>
      exists q :: Applies(db, role, asset, q)
    ensures forall q: Id, spec: nat :: Effective(db, role, asset, q, spec) ==> Applies(db, role, asset, q)
  {
    forall q: Id, spec: nat | Effective(db, role, asset, q, spec) ensures Applies(db, role, asset, q) {
      AppliesIsCandidate(db, role, asset, q);
    }
    if q :| Applies(db, role, asset, q) {
      AppliesIsCandidate(db, role, asset, q);
      var spec: nat :| Candidate(db, role, asset, q, spec);
      LeastCandidate(db, role, asset, q, spec);
    }
  }

  /** Two policies compete for the same rank only when the role default meets an override on the
      folder exactly 999999 links above the asset's own. */
  lemma RankUnique(db: Db, role: Id, asset: Id, q: Id, q': Id, spec: nat)
    requires Inv(db) && q != q'
    requires Candidate(db, role, asset, q, spec) && Candidate(db, role, asset, q', spec)
    ensures spec == DEFAULT_SPEC
    ensures (db.policies[q].scope == Scope(None, None)) != (db.policies[q'].scope == Scope(None, None))
  {
  }

  /** An asset override beats every other policy. */
  lemma AssetOverrideWins(db: Db, role: Id, asset: Id, q: Id, spec: nat, r: Id)
    requires Inv(db) && Effective(db, role, asset, q, spec)
    requires r in db.policies && db.policies[r].role == role && db.policies[r].scope.asset == Some(asset)
    ensures q == r
  {
    assert RowOk(db.tree, db.roles, role, db.policies[r].scope);
    assert Candidate(db, role, asset, r, 0);
    if q != r { RankUnique(db, role, asset, q, r, 0); }
  }

  /** The policy applies at the folder d links above the asset's own. */
  ghost predicate FolderPolicy(db: Db, asset: Id, r: Id, d: nat)
    requires r in db.policies && asset in db.tree.assets
  {
    && db.policies[r].scope.folder.Some?
    && Up(ParentsOf(db.tree.folders), db.tree.assets[asset].folder, d) == db.policies[r].scope.folder
  }

  /** A folder policy is beaten only by an asset override, a nearer folder or, from 999999 links up, the
      role default. */
  lemma NearestFolderWins(db: Db, role: Id, asset: Id, q: Id, spec: nat, r: Id, d: nat)
    requires Inv(db) && Effective(db, role, asset, q, spec)
    requires r in db.policies && db.policies[r].role == role && FolderPolicy(db, asset, r, d)
    ensures
      || q == r || db.policies[q].scope.asset == Some(asset)
      || (exists e: nat :: e < d && FolderPolicy(db, asset, q, e))
      || (db.policies[q].scope == Scope(None, None) && d >= 999999)
  {
    assert RowOk(db.tree, db.roles, role, db.policies[r].scope);
    assert RowOk(db.tree, db.roles, role, db.policies[q].scope);
    assert Candidate(db, role, asset, r, d + 1);
    if q != r && spec == d + 1 { RankUnique(db, role, asset, q, r, spec); }
    if q != r && spec > 0 && db.policies[q].scope.folder.Some? { assert FolderPolicy(db, asset, q, spec - 1); }
  }

  /** And from a million links up the role default does beat it. */
  lemma DefaultBeatsFar(db: Db, role: Id, asset: Id, q: Id, spec: nat, r: Id, d: nat, r0: Id)
    requires Inv(db) && Effective(db, role, asset, q, spec)
    requires r in db.policies && db.policies[r].role == role && FolderPolicy(db, asset, r, d) && d >= 1000000
    requires r0 in db.policies && db.policies[r0].role == role && db.policies[r0].scope == Scope(None, None)
    ensures q != r
  {
    assert Candidate(db, role, asset, r0, DEFAULT_SPEC);
    if q == r && spec > 0 {
      UpUnique(ParentsOf(db.tree.folders), db.tree.assets[asset].folder, db.policies[r].scope.folder.value, spec - 1,
        d);
    }
  }
}
