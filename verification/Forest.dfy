/** The folder forest: parent links, true ancestor sets, and what one reparenting does
    to them. Nothing here assumes acyclicity except where a lemma says so. */
module Forest {
  import opened Basics

  /** folders.parent_id: None is a top-level folder. */
  type Parents = map<Id, Option<Id>>

  /** The folder n parent links above f, if there is one. */
  function Up(p: Parents, f: Id, n: nat): Option<Id>
    decreases n
  {
    if f !in p then None
    else if n == 0 then Some(f)
    else match p[f] case None => None case Some(g) => Up(p, g, n - 1)
  }

  ghost predicate Reaches(p: Parents, f: Id, a: Id)
  {
    exists n: nat :: Up(p, f, n) == Some(a)
  }

  /** Ancestors-and-self. */
  ghost function Ancestors(p: Parents, f: Id): set<Id>
  {
    set a | a in p.Keys && Reaches(p, f, a)
  }

  /** The subtree rooted at m, m included. */
  ghost function Subtree(p: Parents, m: Id): set<Id>
  {
    set f | f in p.Keys && Reaches(p, f, m)
  }

  ghost predicate Acyclic(p: Parents)
  {
    forall f: Id, n: nat :: n > 0 ==> Up(p, f, n) != Some(f)
  }

  ghost predicate Closed(p: Parents)
  {
    forall f {:trigger p[f]} :: f in p && p[f].Some? ==> p[f].value in p
  }

  /** Ancestors-and-self of an optional parent: nothing above the root. */
  ghost function Above(p: Parents, np: Option<Id>): set<Id>
  {
    match np case None => {} case Some(q) => Ancestors(p, q)
  }

  lemma {:induction false} UpAdd(p: Parents, f: Id, m: nat, n: nat)
    requires Up(p, f, m).Some?
    ensures Up(p, f, m + n) == Up(p, Up(p, f, m).value, n)
    decreases m
  {
    if m > 0 { UpAdd(p, p[f].value, m - 1, n); }
  }

  lemma {:induction false} UpIn(p: Parents, f: Id, n: nat)
    ensures Up(p, f, n).Some? ==> f in p && Up(p, f, n).value in p
    decreases n
  {
    if n > 0 && f in p && p[f].Some? { UpIn(p, p[f].value, n - 1); }
  }

  lemma ReachesTrans(p: Parents, f: Id, g: Id, h: Id)
    requires Reaches(p, f, g) && Reaches(p, g, h)
    ensures Reaches(p, f, h)
  {
    var m: nat :| Up(p, f, m) == Some(g);
    var n: nat :| Up(p, g, n) == Some(h);
    UpAdd(p, f, m, n);
    assert Up(p, f, m + n) == Some(h);
  }

  /** Membership in the two sets is reachability; both ends lie in the forest. */
  lemma ReachesIn(p: Parents, f: Id, a: Id)
    ensures f in Subtree(p, a) <==> Reaches(p, f, a)
    ensures a in Ancestors(p, f) <==> Reaches(p, f, a)
  {
    forall n: nat | Up(p, f, n) == Some(a) ensures f in p && a in p { UpIn(p, f, n); }
  }

  lemma ReachesSelf(p: Parents, f: Id)
    requires f in p
    ensures Reaches(p, f, f)
  {
    assert Up(p, f, 0) == Some(f);
  }

  lemma ReachesParent(p: Parents, f: Id)
    requires f in p && p[f].Some? && p[f].value in p
    ensures Reaches(p, f, p[f].value)
  {
    assert Up(p, f, 1) == Up(p, p[f].value, 0);
  }

  /** In an acyclic forest an ancestor is met at exactly one height. */
  lemma UpUnique(p: Parents, f: Id, a: Id, m: nat, n: nat)
    requires Acyclic(p) && Up(p, f, m) == Some(a) && Up(p, f, n) == Some(a)
    ensures m == n
  {
    var lo, hi := if m < n then m else n, if m < n then n else m;
    UpAdd(p, f, lo, hi - lo);
  }

  /** Equal walks give equal ancestor sets. */
  lemma SameWalks(p: Parents, p': Parents, f: Id)
    requires forall n: nat :: Up(p', f, n) == Up(p, f, n)
    ensures Ancestors(p', f) == Ancestors(p, f)
  {
    forall a ensures a in Ancestors(p', f) <==> a in Ancestors(p, f) {
      ReachesIn(p, f, a);
      ReachesIn(p', f, a);
      if Reaches(p, f, a) {
        var n: nat :| Up(p, f, n) == Some(a);
        assert Up(p', f, n) == Some(a);
      }
    }
  }

  // ---- one reparenting ------------------------------------------------------------

  /** Outside the moved subtree every walk is unchanged. */
  lemma {:induction false} WalkOutside(p: Parents, m: Id, np: Option<Id>, f: Id, n: nat)
    requires m in p && !Reaches(p, f, m)
    ensures Up(p[m := np], f, n) == Up(p, f, n)
    decreases n
  {
    if f == m { ReachesSelf(p, m); }
    if n > 0 && f in p && p[f].Some? {
      var g := p[f].value;
      if Reaches(p, g, m) {
        UpIn(p, g, 0);
        var k: nat :| Up(p, g, k) == Some(m);
        assert Up(p, f, k + 1) == Some(m);
      }
      WalkOutside(p, m, np, g, n - 1);
    }
  }

  /** Inside the subtree a walk is unchanged up to and including the moved folder. */
  lemma {:induction false} WalkInside(p: Parents, m: Id, np: Option<Id>, f: Id, k: nat, n: nat)
    requires Acyclic(p) && m in p && Up(p, f, k) == Some(m) && n <= k
    ensures Up(p[m := np], f, n) == Up(p, f, n)
    decreases n
  {
    if n > 0 {
      assert f != m;
      WalkInside(p, m, np, p[f].value, k - 1, n - 1);
    }
  }

  /** Above the moved folder the walk continues from the new parent. */
  lemma WalkAbove(p: Parents, m: Id, np: Option<Id>, f: Id, k: nat, n: nat)
    requires Acyclic(p) && m in p && Up(p, f, k) == Some(m) && n > k
    requires np.Some? ==> !Reaches(p, np.value, m)
    ensures Up(p[m := np], f, n) == match np case None => None case Some(q) => Up(p, q, n - k - 1)
  {
    var p' := p[m := np];
    WalkInside(p, m, np, f, k, k);
    UpAdd(p', f, k, n - k);
    if np.Some? { WalkOutside(p, m, np, np.value, n - k - 1); }
  }

  /** Reparenting m under np keeps the forest acyclic exactly when np is not inside m's subtree. */
  lemma MoveAcyclic(p: Parents, m: Id, np: Option<Id>)
    requires Acyclic(p) && m in p
    ensures Acyclic(p[m := np]) <==> (np.Some? ==> np.value !in Subtree(p, m))
  {
    var p' := p[m := np];
    if np.Some? && np.value in Subtree(p, m) {
      var q := np.value;
      var k: nat :| Up(p, q, k) == Some(m);
      WalkInside(p, m, np, q, k, k);
      assert Up(p', m, k + 1) == Some(m);
    } else {
      if np.Some? { ReachesIn(p, np.value, m); }
      forall f: Id, n: nat | n > 0
        ensures Up(p', f, n) != Some(f)
      {
        NoCycleAfterMove(p, m, np, f, n);
      }
    }
  }

  lemma NoCycleAfterMove(p: Parents, m: Id, np: Option<Id>, f: Id, n: nat)
    requires Acyclic(p) && m in p && n > 0
    requires np.Some? ==> !Reaches(p, np.value, m)
    ensures Up(p[m := np], f, n) != Some(f)
  {
    if Reaches(p, f, m) {
      var k: nat :| Up(p, f, k) == Some(m);
      if n <= k {
        WalkInside(p, m, np, f, k, n);
      } else {
        WalkAbove(p, m, np, f, k, n);
        if np.Some? && Up(p, np.value, n - k - 1) == Some(f) {
          ReachesTrans(p, np.value, f, m);
        }
      }
    } else {
      WalkOutside(p, m, np, f, n);
    }
  }

  lemma MoveOutside(p: Parents, m: Id, np: Option<Id>, f: Id)
    requires m in p && f !in Subtree(p, m)
    ensures Ancestors(p[m := np], f) == Ancestors(p, f)
  {
    ReachesIn(p, f, m);
    SameWalks(p, p[m := np], f) by {
      forall n: nat ensures Up(p[m := np], f, n) == Up(p, f, n) { WalkOutside(p, m, np, f, n); }
    }
  }

  /** The closed formula: a folder of the moved subtree keeps its in-subtree ancestors and
      gains exactly the ancestors-and-self of the new parent. */
  lemma MoveInside(p: Parents, m: Id, np: Option<Id>, f: Id)
    requires Acyclic(p) && f in Subtree(p, m)
    requires m in p && (np.Some? ==> np.value !in Subtree(p, m))
    ensures Ancestors(p[m := np], f) == (Ancestors(p, f) * Subtree(p, m)) + Above(p, np)
  {
    if np.Some? { ReachesIn(p, np.value, m); }
    var p' := p[m := np];
    var k: nat :| Up(p, f, k) == Some(m);
    forall a | a in Ancestors(p', f)
      ensures a in (Ancestors(p, f) * Subtree(p, m)) + Above(p, np)
    {
      var n: nat :| Up(p', f, n) == Some(a);
      if n <= k {
        WalkInside(p, m, np, f, k, n);
        UpAdd(p, f, n, k - n);
      } else {
        WalkAbove(p, m, np, f, k, n);
      }
    }
    forall a | a in Ancestors(p, f) * Subtree(p, m)
      ensures a in Ancestors(p', f)
    {
      var n: nat :| Up(p, f, n) == Some(a);
      var j: nat :| Up(p, a, j) == Some(m);
      UpAdd(p, f, n, j);
      UpUnique(p, f, m, n + j, k);
      WalkInside(p, m, np, f, k, n);
    }
    forall a | a in Above(p, np)
      ensures a in Ancestors(p', f)
    {
      var n: nat :| Up(p, np.value, n) == Some(a);
      WalkAbove(p, m, np, f, k, k + 1 + n);
    }
  }

  // ---- growing and pruning ----------------------------------------------------------

  /** A new leaf leaves every other ancestor set alone. */
  lemma {:induction false} WalkInsert(p: Parents, x: Id, parent: Option<Id>, f: Id, n: nat)
    requires Closed(p) && x !in p && f in p
    ensures Up(p[x := parent], f, n) == Up(p, f, n)
    decreases n
  {
    if n > 0 && p[f].Some? { WalkInsert(p, x, parent, p[f].value, n - 1); }
  }

  lemma InsertLeaf(p: Parents, x: Id, parent: Option<Id>)
    requires Closed(p) && Acyclic(p) && x !in p && (parent.Some? ==> parent.value in p)
    ensures Closed(p[x := parent]) && Acyclic(p[x := parent])
    ensures forall f :: f in p ==> Ancestors(p[x := parent], f) == Ancestors(p, f)
  {
    var p' := p[x := parent];
    forall f: Id, n: nat | f in p ensures Up(p', f, n) == Up(p, f, n) { WalkInsert(p, x, parent, f, n); }
    forall f: Id, n: nat | n > 0 ensures Up(p', f, n) != Some(f) {
      if f == x && parent.Some? {
        UpIn(p, parent.value, n - 1);
        assert Up(p', x, n) == Up(p, parent.value, n - 1);
      }
    }
    forall f | f in p ensures Ancestors(p', f) == Ancestors(p, f) { SameWalks(p, p', f); }
  }

  lemma {:induction false} WalkDelete(p: Parents, x: Id, f: Id, n: nat)
    requires f != x && (forall g :: g in p ==> p[g] != Some(x))
    ensures Up(p - {x}, f, n) == Up(p, f, n)
    decreases n
  {
    if n > 0 && f in p && p[f].Some? { WalkDelete(p, x, p[f].value, n - 1); }
  }

  /** Deleting a childless folder leaves every other ancestor set alone. */
  lemma DeleteLeaf(p: Parents, x: Id)
    requires Closed(p) && Acyclic(p) && (forall g :: g in p ==> p[g] != Some(x))
    ensures Closed(p - {x}) && Acyclic(p - {x})
    ensures forall f :: f in p && f != x ==> Ancestors(p - {x}, f) == Ancestors(p, f)
  {
    var p' := p - {x};
    forall f: Id, n: nat | f != x ensures Up(p', f, n) == Up(p, f, n) { WalkDelete(p, x, f, n); }
    forall f | f in p && f != x ensures Ancestors(p', f) == Ancestors(p, f) { SameWalks(p, p', f); }
  }

  // ---- the two recursive queries --------------------------------------------------

  /** FolderAncestorsAndSelf: follow parent links upward. It stops because the forest is acyclic. */
  method AncestorsAndSelf(p: Parents, f: Id) returns (ids: set<Id>)
    requires Acyclic(p)
    ensures ids == Ancestors(p, f)
  {
    ids := {};
    var cur := if f in p then Some(f) else None;
    ghost var n := 0;
    while cur.Some?
      invariant cur == Up(p, f, n)
      invariant ids <= p.Keys
      invariant forall a :: a in ids <==> exists k: nat :: k < n && Up(p, f, k) == Some(a)
      invariant cur.Some? ==> cur.value in p
      decreases p.Keys - ids
    {
      var c := cur.value;
      if c in ids {
        ghost var k: nat :| k < n && Up(p, f, k) == Some(c);
        UpUnique(p, f, c, k, n);
      }
      ids := ids + {c};
      UpAdd(p, f, n, 1);
      UpIn(p, f, n + 1);
      cur := if p[c].Some? && p[c].value in p then p[c] else None;
      assert Up(p, c, 1) == cur;
      n := n + 1;
    }
    forall k: nat | k >= n ensures Up(p, f, k) == None { UpEnds(p, f, n, k); }
    forall a | Reaches(p, f, a) ensures a in ids {
      var k: nat :| Up(p, f, k) == Some(a);
    }
  }

  lemma {:induction false} UpEnds(p: Parents, f: Id, n: nat, k: nat)
    requires Up(p, f, n) == None && k >= n
    ensures Up(p, f, k) == None
    decreases n
  {
    if n > 0 && f in p && p[f].Some? { UpEnds(p, p[f].value, n - 1, k - 1); }
  }

  /** The folders exactly k links below m. */
  ghost predicate LevelIs(p: Parents, m: Id, level: set<Id>, k: nat)
  {
    forall f :: f in level <==> Up(p, f, k) == Some(m)
  }

  /** The folders fewer than k links below m. */
  ghost predicate ShallowIs(p: Parents, m: Id, ids: set<Id>, k: nat)
  {
    forall f :: f in ids <==> exists n: nat :: n < k && Up(p, f, n) == Some(m)
  }

  function Children(p: Parents, level: set<Id>): set<Id>
  {
    set g | g in p.Keys && p[g].Some? && p[g].value in level
  }

  lemma LevelStep(p: Parents, m: Id, level: set<Id>, k: nat)
    requires LevelIs(p, m, level, k)
    ensures LevelIs(p, m, Children(p, level), k + 1)
  {
  }

  lemma ShallowStep(p: Parents, m: Id, ids: set<Id>, level: set<Id>, k: nat)
    requires LevelIs(p, m, level, k) && ShallowIs(p, m, ids, k) && Acyclic(p)
    ensures ShallowIs(p, m, ids + level, k + 1) && ids !! level
  {
    forall f | f in ids ensures f !in level {
      var n: nat :| n < k && Up(p, f, n) == Some(m);
      if Up(p, f, k) == Some(m) { UpUnique(p, f, m, n, k); }
    }
  }

  lemma SubtreeDone(p: Parents, m: Id, ids: set<Id>, k: nat)
    requires LevelIs(p, m, {}, k) && ShallowIs(p, m, ids, k)
    ensures ids == Subtree(p, m)
  {
    forall f ensures f in ids <==> f in Subtree(p, m) {
      ReachesIn(p, f, m);
      forall n: nat | Up(p, f, n) == Some(m) ensures n < k {
        if n >= k {
          var g := UpTo(p, f, n - k, n);
          UpAdd(p, f, n - k, k);
        }
      }
    }
  }

  /** FolderSubtreeIDs: add children level by level until a level is empty. */
  method SubtreeIds(p: Parents, m: Id) returns (ids: set<Id>)
    requires Acyclic(p)
    ensures ids == Subtree(p, m)
  {
    ids := {};
    var level := if m in p then {m} else {};
    ghost var k: nat := 0;
    while level != {}
      invariant ids <= p.Keys && level <= p.Keys
      invariant LevelIs(p, m, level, k) && ShallowIs(p, m, ids, k)
      decreases p.Keys - ids
    {
      ShallowStep(p, m, ids, level, k);
      LevelStep(p, m, level, k);
      ghost var f :| f in level;
      assert f !in ids;
      ids := ids + level;
      level := Children(p, level);
      k := k + 1;
    }
    SubtreeDone(p, m, ids, k);
  }

  lemma {:induction false} UpTo(p: Parents, f: Id, j: nat, n: nat) returns (g: Id)
    requires j <= n && Up(p, f, n).Some?
    ensures Up(p, f, j) == Some(g)
    decreases j
  {
    if j == 0 { g := f; } else { g := UpTo(p, p[f].value, j - 1, n - 1); }
  }
}
