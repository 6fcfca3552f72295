/** folders.path_ids: the root-to-self label path that database triggers keep beside the
    parent links, and the prefix test that the authorization queries use instead of walking. */
module Ltree {
  import opened Basics
  import opened Forest

  type Paths = map<Id, seq<Id>>

  ghost predicate PathsOk(p: Parents, t: Paths)
  {
    && t.Keys == p.Keys
    && Closed(p)
    && forall f {:trigger PathAt(p, t, f)} :: PathAt(p, t, f)
  }

  ghost predicate PathAt(p: Parents, t: Paths, f: Id)
  {
    f in p && f in t ==> t[f] == PathAbove(t, p[f]) + [f]
  }

  /** The path a folder hangs under. */
  function PathAbove(t: Paths, parent: Option<Id>): seq<Id>
  {
    if parent.Some? && parent.value in t then t[parent.value] else []
  }

  /** What the move trigger does to one path: re-root it when it lies under the old one. */
  function Rebase(path: seq<Id>, oldSelf: seq<Id>, newSelf: seq<Id>): seq<Id>
  {
    if oldSelf <= path then
      if path == oldSelf then newSelf else newSelf + path[|oldSelf|..]
    else path
  }

  /** The move trigger's bulk rewrite. */
  function MovePaths(t: Paths, m: Id, np: Option<Id>): (t': Paths)
    requires m in t
  {
    var newSelf := PathAbove(t, np) + [m];
    map x | x in t :: Rebase(t[x], t[m], newSelf)
  }

  lemma {:induction false} PathUp(p: Parents, t: Paths, f: Id, n: nat)
    requires PathsOk(p, t) && Up(p, f, n).Some?
    ensures f in t && Up(p, f, n).value in t
    ensures t[Up(p, f, n).value] <= t[f] && |t[f]| == |t[Up(p, f, n).value]| + n
    decreases n
  {
    assert PathAt(p, t, f);
    if n > 0 { PathUp(p, t, p[f].value, n - 1); }
  }

  lemma {:induction false} PrefixReaches(p: Parents, t: Paths, x: Id, m: Id)
    requires PathsOk(p, t) && x in p && m in p && t[m] <= t[x]
    ensures Reaches(p, x, m)
    decreases |t[x]|
  {
    assert PathAt(p, t, m) && PathAt(p, t, x);
    if |t[m]| == |t[x]| {
      assert t[m][|t[m]| - 1] == m && t[x][|t[x]| - 1] == x;
      ReachesSelf(p, x);
    } else {
      assert t[m] <= PathAbove(t, p[x]);
      PrefixReaches(p, t, p[x].value, m);
      ReachesParent(p, x);
      ReachesTrans(p, x, p[x].value, m);
    }
  }

  /** The prefix test decides the subtree relation. */
  lemma PrefixDecidesSubtree(p: Parents, t: Paths, x: Id, m: Id)
    requires PathsOk(p, t) && x in p && m in p
    ensures t[m] <= t[x] <==> x in Subtree(p, m)
    ensures t[m] <= t[x] <==> m in Ancestors(p, x)
  {
    if Reaches(p, x, m) {
      var n: nat :| Up(p, x, n) == Some(m);
      PathUp(p, t, x, n);
    }
    if t[m] <= t[x] { PrefixReaches(p, t, x, m); }
  }

  /** Correct paths rule out cycles. */
  lemma PathsAcyclic(p: Parents, t: Paths)
    requires PathsOk(p, t)
    ensures Acyclic(p)
  {
    forall f: Id, n: nat | n > 0 ensures Up(p, f, n) != Some(f) {
      if Up(p, f, n).Some? { PathUp(p, t, f, n); }
    }
  }

  lemma PathEnds(p: Parents, t: Paths, x: Id)
    requires PathsOk(p, t) && x in p
    ensures t[x] == PathAbove(t, p[x]) + [x]
  {
    assert PathAt(p, t, x);
  }

  /** The trigger's bulk rewrite gives every folder its correct path in the moved forest. */
  lemma MovePathsOk(p: Parents, t: Paths, m: Id, np: Option<Id>)
    requires PathsOk(p, t) && m in p
    requires np.Some? ==> np.value in p && np.value !in Subtree(p, m)
    ensures PathsOk(p[m := np], MovePaths(t, m, np))
  {
    var p', t' := p[m := np], MovePaths(t, m, np);
    assert t'.Keys == p'.Keys && Closed(p');
    forall x ensures PathAt(p', t', x) {
      if x !in p' {} else if x == m { MovedSelf(p, t, m, np); } else { MovedOther(p, t, m, np, x); }
    }
  }

  lemma InsertPath(p: Parents, t: Paths, x: Id, parent: Option<Id>)
    requires PathsOk(p, t) && x !in p && (parent.Some? ==> parent.value in p)
    ensures PathsOk(p[x := parent], t[x := PathAbove(t, parent) + [x]])
  {
    var p', t' := p[x := parent], t[x := PathAbove(t, parent) + [x]];
    forall f ensures PathAt(p', t', f) {
      assert PathAt(p, t, f);
      if f in p' { assert PathAbove(t', p'[f]) == PathAbove(t, p'[f]); }
    }
  }

  lemma DeletePath(p: Parents, t: Paths, x: Id)
    requires PathsOk(p, t) && forall g :: g in p ==> p[g] != Some(x)
    ensures PathsOk(p - {x}, t - {x})
  {
    var p', t' := p - {x}, t - {x};
    forall f ensures PathAt(p', t', f) {
      assert PathAt(p, t, f);
      if f in p' { assert PathAbove(t', p[f]) == PathAbove(t, p[f]); }
    }
  }

  lemma MovedSelf(p: Parents, t: Paths, m: Id, np: Option<Id>)
    requires PathsOk(p, t) && m in p
    requires np.Some? ==> np.value in p && np.value !in Subtree(p, m)
    ensures MovePaths(t, m, np)[m] == PathAbove(MovePaths(t, m, np), np) + [m]
  {
    if np.Some? { PrefixDecidesSubtree(p, t, np.value, m); }
  }

  lemma MovedOther(p: Parents, t: Paths, m: Id, np: Option<Id>, x: Id)
    requires PathsOk(p, t) && m in p && x in p && x != m
    ensures MovePaths(t, m, np)[x] == PathAbove(MovePaths(t, m, np), p[x]) + [x]
  {
    PathEnds(p, t, m);
    PathEnds(p, t, x);
    var newSelf := PathAbove(t, np) + [m];
    RebaseSnoc(PathAbove(t, p[x]), x, t[m], newSelf);
    if p[x].None? { assert Rebase([], t[m], newSelf) == []; }
  }

  lemma RebaseSnoc(above: seq<Id>, x: Id, oldSelf: seq<Id>, newSelf: seq<Id>)
    requires |oldSelf| > 0 && oldSelf[|oldSelf| - 1] != x
    ensures Rebase(above + [x], oldSelf, newSelf) == Rebase(above, oldSelf, newSelf) + [x]
  {
  }
}
