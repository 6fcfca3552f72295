/** Three-column capability storage: what survives the round trip, and when the SQL column
    predicate agrees with the glob matcher. */
module CapStorage {
  import opened Basics
  import opened Capabilities

  datatype Columns = Columns(scope: string, action: string, qualifier: string)

  /** strings.SplitN(s, ":", 3): the third part keeps the rest verbatim. */
  function SplitN3(s: string): (parts: seq<string>)
    ensures 1 <= |parts| <= 3
  {
    var segs := Segments(s);
    if |segs| <= 3 then segs else [segs[0], segs[1], Join(segs[2..], ':')]
  }

  /** The column for part i: '*' from a '**' on, the part itself before, empty past the end. */
  function Column(parts: seq<string>, i: nat): string
  {
    if exists k :: 0 <= k <= i && k < |parts| && parts[k] == STARS then STAR
    else if i < |parts| then parts[i]
    else ""
  }

  function Normalized(pattern: string): Columns
  {
    var parts := SplitN3(pattern);
    Columns(Column(parts, 0), Column(parts, 1), Column(parts, 2))
  }

  function DropEmpty(cols: seq<string>): (r: seq<string>)
    ensures r <= cols
  {
    if cols != [] && cols[|cols| - 1] == "" then DropEmpty(cols[..|cols| - 1]) else cols
  }

  function StarRun(cols: seq<string>): (n: nat)
    ensures n <= |cols|
  {
    if cols != [] && cols[|cols| - 1] == STAR then 1 + StarRun(cols[..|cols| - 1]) else 0
  }

  function CollapseStars(cols: seq<string>): seq<string>
  {
    if StarRun(cols) >= 2 then cols[..|cols| - StarRun(cols)] + [STARS] else cols
  }

  function Reconstructed(c: Columns): string
  {
    Join(CollapseStars(DropEmpty([c.scope, c.action, c.qualifier])), ':')
  }

  method NormalizeCap(pattern: string) returns (c: Columns)
    ensures c == Normalized(pattern)
  {
    var segs := SplitN3(pattern);
    var col: seq<string> := [];
    var star := false;
    var i := 0;
    while i < 3
      invariant 0 <= i <= 3 && |col| == i
      invariant star <==> exists k :: 0 <= k < i && k < |segs| && segs[k] == STARS
      invariant forall k :: 0 <= k < i ==> col[k] == Column(segs, k)
    {
      if star {
        col := col + [STAR];
      } else if i >= |segs| {
        col := col + [""];
      } else if segs[i] == STARS {
        col := col + [STAR];
        star := true;
      } else {
        col := col + [segs[i]];
      }
      i := i + 1;
    }
    c := Columns(col[0], col[1], col[2]);
  }

  method ReconstructCap(c: Columns) returns (s: string)
    ensures s == Reconstructed(c)
  {
    var cols := [c.scope, c.action, c.qualifier];
    var n := |cols|;
    assert cols[..n] == cols;
    while n > 0 && cols[n - 1] == ""
      invariant 0 <= n <= |cols|
      invariant DropEmpty(cols) == DropEmpty(cols[..n])
    {
      assert cols[..n][..n - 1] == cols[..n - 1];
      n := n - 1;
    }
    cols := cols[..n];
    var run, i := 0, |cols| - 1;
    while i >= 0 && cols[i] == STAR
      invariant -1 <= i < |cols| && run == |cols| - 1 - i
      invariant StarRun(cols) == run + StarRun(cols[..i + 1])
    {
      assert cols[..i + 1][..i] == cols[..i];
      run := run + 1;
      i := i - 1;
    }
    if run >= 2 {
      cols := cols[..|cols| - run] + [STARS];
    }
    s := Join(cols, ':');
  }

  function Stored(pattern: string): string
  {
    Reconstructed(Normalized(pattern))
  }

  // ---- idempotence on all strings -----------------------------------------------------------

  predicate ColumnsOk(c: Columns)
  {
    && Free(c.scope, ':') && Free(c.action, ':')
    && c.scope != STARS && c.action != STARS && c.qualifier != STARS
  }

  lemma NormalizedOk(pattern: string)
    ensures ColumnsOk(Normalized(pattern))
  {
    SplitParts(pattern, ':');
  }

  lemma SegmentsOf1(a: string)
    requires Free(a, ':')
    ensures Segments(a) == [a]
  {
    SplitFree(a, ':');
  }

  lemma SegmentsOf2(a: string, b: string)
    requires Free(a, ':')
    ensures Segments(Join([a, b], ':')) == [a] + Segments(b)
  {
    SplitPrefix(a, b, ':');
    assert Join([a, b], ':') == a + [':'] + b;
  }

  lemma SegmentsOf3(a: string, b: string, c: string)
    requires Free(a, ':') && Free(b, ':')
    ensures Segments(Join([a, b, c], ':')) == [a, b] + Segments(c)
  {
    SegmentsOf2(b, c);
    SplitPrefix(a, Join([b, c], ':'), ':');
    assert [a, b, c][1..] == [b, c];
    assert Join([a, b, c], ':') == a + [':'] + Join([b, c], ':');
  }

  lemma NormalizeJoin3(a: string, b: string, c: string)
    requires ColumnsOk(Columns(a, b, c))
    ensures Normalized(Join([a, b, c], ':')) == Columns(a, b, c)
  {
    SegmentsOf3(a, b, c);
    SplitParts(c, ':');
    var segs := Segments(Join([a, b, c], ':'));
    assert segs[2..] == Segments(c);
    if |segs| == 3 { assert Join(segs[2..], ':') == segs[2]; }
    assert SplitN3(Join([a, b, c], ':')) == [a, b, c];
  }

  lemma NormalizeJoin2(a: string, b: string)
    requires ColumnsOk(Columns(a, b, ""))
    ensures Normalized(Join([a, b], ':')) == Columns(a, b, "")
  {
    SegmentsOf2(a, b);
    SegmentsOf1(b);
    assert SplitN3(Join([a, b], ':')) == [a, b];
  }

  lemma NormalizeStars(a: string)
    requires Free(a, ':') && a != STARS
    ensures Normalized(STARS) == Columns(STAR, STAR, STAR)
    ensures Normalized(Join([a, STARS], ':')) == Columns(a, STAR, STAR)
  {
    SegmentsOf1(STARS);
    SegmentsOf2(a, STARS);
    var p := SplitN3(Join([a, STARS], ':'));
    assert p == [a, STARS];
    assert p[1] == STARS;
    var q := SplitN3(STARS);
    assert q == [STARS];
    assert q[0] == STARS;
  }

  /** The shape of a reconstructed string. */
  lemma ReconstructCases(a: string, b: string, c: string)
    ensures c != "" && c != STAR ==> Reconstructed(Columns(a, b, c)) == Join([a, b, c], ':')
    ensures c == STAR && b != STAR ==> Reconstructed(Columns(a, b, c)) == Join([a, b, c], ':')
    ensures c == STAR && b == STAR && a != STAR ==> Reconstructed(Columns(a, b, c)) == Join([a, STARS], ':')
    ensures c == STAR && b == STAR && a == STAR ==> Reconstructed(Columns(a, b, c)) == STARS
    ensures c == "" && b != "" && !(a == STAR && b == STAR) ==> Reconstructed(Columns(a, b, c)) == Join([a, b], ':')
    ensures c == "" && b == STAR && a == STAR ==> Reconstructed(Columns(a, b, c)) == STARS
    ensures c == "" && b == "" ==> Reconstructed(Columns(a, b, c)) == a
  {
    var l := [a, b, c];
    assert l[..2] == [a, b] && l[..2][..1] == [a] && [a][..0] == [] && [a, b][..1] == [a];
    assert StarRun([a]) == if a == STAR then 1 else 0;
    assert StarRun([a, b]) == if b == STAR then 1 + StarRun([a]) else 0;
    assert StarRun(l) == if c == STAR then 1 + StarRun([a, b]) else 0;
    assert DropEmpty([a]) == if a == "" then [] else [a];
    assert DropEmpty([a, b]) == if b == "" then DropEmpty([a]) else [a, b];
    assert DropEmpty(l) == if c == "" then DropEmpty([a, b]) else l;
    assert l[..1] == [a] && l[..0] == [] && [a, b][..0] == [];
  }

  /** Storing a stored pattern changes nothing, for every string. */
  lemma StoredIdempotent(p: string)
    ensures Stored(Stored(p)) == Stored(p)
  {
    NormalizedOk(p);
    var Columns(a, b, c) := Normalized(p);
    ReconstructCases(a, b, c);
    if b == STAR && (c == STAR || (c == "" && a == STAR)) {
      NormalizeStars(if a == STAR then "" else a);
      ReconstructCases(a, STAR, STAR);
      ReconstructCases(STAR, STAR, STAR);
    } else if c != "" {
      NormalizeJoin3(a, b, c);
    } else if b != "" {
      NormalizeJoin2(a, b);
    } else {
      SegmentsOf1(a);
      assert SplitN3(a) == [a];
      assert Normalized(a) == Columns(a, "", "");
    }
  }

  // ---- what storage does to a well-formed pattern -------------------------------------------

  /** '**' only at the end and no empty segment: the patterns the API admits. */
  ghost predicate Proper(ps: seq<string>)
  {
    |ps| > 0 && WellFormed(ps) && forall i :: 0 <= i < |ps| ==> ps[i] != ""
  }

  function WildRun(ps: seq<string>): (n: nat)
    ensures n <= |ps|
    ensures forall i :: |ps| - n <= i < |ps| ==> Wild(ps[i])
    ensures n < |ps| ==> !Wild(ps[|ps| - 1 - n])
  {
    if ps != [] && Wild(ps[|ps| - 1]) then 1 + WildRun(ps[..|ps| - 1]) else 0
  }

  /** Storage widens: the trailing wildcard run of a pattern of at most three segments becomes one '**'. */
  predicate Widened(ps: seq<string>) { |ps| <= 3 && WildRun(ps) >= 2 }

  /** Storage narrows: a '**' in third position becomes '*'. */
  predicate Narrowed(ps: seq<string>) { |ps| == 3 && ps[2] == STARS && WildRun(ps) == 1 }

  function StoredSegments(ps: seq<string>): seq<string>
  {
    if Widened(ps) then ps[..|ps| - WildRun(ps)] + [STARS]
    else if Narrowed(ps) then ps[..2] + [STAR]
    else ps
  }

  lemma LongParts(p: string)
    requires Proper(Segments(p)) && |Segments(p)| > 3
    ensures Stored(p) == p
  {
    var ps := Segments(p);
    SplitParts(p, ':');
    var q := Join(ps[2..], ':');
    assert q == ps[2] + [':'] + Join(ps[2..][1..], ':');
    assert q[|ps[2]|] == ':';
    assert !Wild(q) && q != "";
    assert ps[..2] == [ps[0], ps[1]] && ps == ps[..2] + ps[2..];
    assert ps[1..][1..] == ps[2..];
    assert [ps[0], ps[1], q][1..] == [ps[1], q];
    assert Join(ps[1..], ':') == ps[1] + [':'] + q;
    assert Join([ps[1], q], ':') == ps[1] + [':'] + q;
    assert Join([ps[0], ps[1], q], ':') == p;
    assert Normalized(p) == Columns(ps[0], ps[1], q);
    ReconstructCases(ps[0], ps[1], q);
  }

  lemma RunCases(ps: seq<string>)
    requires 1 <= |ps| <= 3
    ensures |ps| == 1 ==> WildRun(ps) == if Wild(ps[0]) then 1 else 0
    ensures |ps| == 2 ==> WildRun(ps) == if !Wild(ps[1]) then 0 else if !Wild(ps[0]) then 1 else 2
    ensures |ps| == 3 ==>
      WildRun(ps) == if !Wild(ps[2]) then 0 else if !Wild(ps[1]) then 1 else if !Wild(ps[0]) then 2 else 3
  {
  }

  /** The segments of the stored text, for every well-formed pattern. */
  lemma StoredText(p: string)
    requires Proper(Segments(p))
    ensures Segments(Stored(p)) == StoredSegments(Segments(p))
  {
    var ps := Segments(p);
    SplitParts(p, ':');
    if |ps| > 3 {
      LongParts(p);
    } else {
      RunCases(ps);
      if |ps| == 1 {
        Stored1(p, ps[0]);
      } else if |ps| == 2 {
        Stored2(p, ps[0], ps[1]);
      } else {
        Stored3(p, ps[0], ps[1], ps[2]);
      }
    }
  }

  lemma Stored1(p: string, a: string)
    requires Segments(p) == [a] && Proper([a]) && Free(a, ':')
    ensures Segments(Stored(p)) == [a]
  {
    assert SplitN3(p) == [a];
    SegmentsOf1(a);
    if a == STARS {
      assert SplitN3(p)[0] == STARS;
      assert Normalized(p) == Columns(STAR, STAR, STAR);
    } else {
      assert Normalized(p) == Columns(a, "", "");
    }
    ReconstructCases(Normalized(p).scope, Normalized(p).action, Normalized(p).qualifier);
  }

  lemma Stored2(p: string, a: string, b: string)
    requires Segments(p) == [a, b] && Proper([a, b]) && Free(a, ':') && Free(b, ':')
    ensures Segments(Stored(p)) == if Wild(a) && Wild(b) then [STARS] else [a, b]
  {
    var parts := SplitN3(p);
    assert parts == [a, b];
    assert a == [a, b][0] && a != STARS;
    SegmentsOf1(STARS);
    SegmentsOf1(b);
    SegmentsOf2(a, b);
    if b == STARS {
      assert parts[1] == STARS;
      assert Normalized(p) == Columns(a, STAR, STAR);
    } else {
      assert Normalized(p) == Columns(a, b, "");
    }
    ReconstructCases(Normalized(p).scope, Normalized(p).action, Normalized(p).qualifier);
  }

  lemma Stored3(p: string, a: string, b: string, c: string)
    requires Segments(p) == [a, b, c] && Proper([a, b, c]) && Free(a, ':') && Free(b, ':') && Free(c, ':')
    ensures Segments(Stored(p)) ==
      if Wild(a) && Wild(b) && Wild(c) then [STARS]
      else if Wild(b) && Wild(c) then [a, STARS]
      else if c == STARS then [a, b, STAR]
      else [a, b, c]
  {
    var parts := SplitN3(p);
    assert parts == [a, b, c];
    assert a == [a, b, c][0] && a != STARS && b == [a, b, c][1] && b != STARS && c == [a, b, c][2] && c != "";
    var d := if c == STARS then STAR else c;
    assert Normalized(p) == Columns(a, b, d) by {
      if c == STARS { assert parts[2] == STARS; }
    }
    SegmentsOf1(STARS);
    SegmentsOf1(d);
    SegmentsOf2(a, STARS);
    SegmentsOf3(a, b, d);
    ReconstructCases(a, b, d);
  }

  ghost predicate SameMatches(p: string, q: string, bound: Option<nat>)
  {
    forall r :: ConcreteCap(r) && (bound.Some? ==> |Segments(r)| <= bound.value) ==>
      (CapMatch(p, r) <==> CapMatch(q, r))
  }

  lemma StoredDenotes(ps: seq<string>, rs: seq<string>)
    requires Proper(ps)
    ensures !Widened(ps) && !Narrowed(ps) ==> (Denotes(StoredSegments(ps), rs) <==> Denotes(ps, rs))
    ensures !Widened(ps) && |rs| <= 3 ==> (Denotes(StoredSegments(ps), rs) <==> Denotes(ps, rs))
    ensures |rs| <= 3 && Denotes(ps, rs) ==> Denotes(StoredSegments(ps), rs)
  {
  }

  /** Storage loses no match against a capability of at most three segments. */
  lemma StoredKeepsMatches(p: string, r: string)
    requires Proper(Segments(p)) && |Segments(r)| <= 3 && CapMatch(p, r)
    ensures CapMatch(Stored(p), r)
  {
    StoredText(p);
    MatchIsDenotes(Segments(p), Segments(r));
    StoredDenotes(Segments(p), Segments(r));
    MatchIsDenotes(StoredSegments(Segments(p)), Segments(r));
  }

  /** Storage preserves matching on all concrete capabilities exactly when it neither widens nor
      narrows; on capabilities of at most three segments exactly when it does not widen. */
  lemma StoredExact(p: string)
    requires Proper(Segments(p))
    ensures SameMatches(p, Stored(p), None) <==> !Widened(Segments(p)) && !Narrowed(Segments(p))
    ensures SameMatches(p, Stored(p), Some(3)) <==> !Widened(Segments(p))
  {
    var ps := Segments(p);
    StoredText(p);
    forall r
      ensures CapMatch(p, r) == Denotes(ps, Segments(r)) &&
        CapMatch(Stored(p), r) == Denotes(StoredSegments(ps), Segments(r))
    {
      MatchIsDenotes(ps, Segments(r));
      MatchIsDenotes(StoredSegments(ps), Segments(r));
    }
    forall r {:trigger Segments(r)} { StoredDenotes(ps, Segments(r)); }
    if Widened(ps) { WidenedWitness(p); }
    if Narrowed(ps) { NarrowedWitness(p); }
  }

  lemma WidenedWitness(p: string)
    requires Proper(Segments(p)) && Widened(Segments(p))
    ensures var r := Join(Instance(Segments(p), "x", |Segments(p)| - 1), ':');
      ConcreteCap(r) && |Segments(r)| <= 3 && !Denotes(Segments(p), Segments(r)) &&
        Denotes(StoredSegments(Segments(p)), Segments(r))
  {
    var ps := Segments(p);
    var rs := Instance(ps, "x", |ps| - 1);
    InstanceText(p, "x", |ps| - 1);
    var ss := StoredSegments(ps);
    forall i | 0 <= i < Fixed(ss) ensures SegFits(ss[i], rs[i]) {
      assert ss[i] == ps[i];
    }
  }

  lemma NarrowedWitness(p: string)
    requires Proper(Segments(p)) && Narrowed(Segments(p))
    ensures var r := Join(Instance(Segments(p), "x", 4), ':');
      ConcreteCap(r) && Denotes(Segments(p), Segments(r)) && !Denotes(StoredSegments(Segments(p)), Segments(r))
  {
    InstanceText(p, "x", 4);
    InstanceDenoted(Segments(p), "x", 4);
  }

  lemma WidenedInput(p: string, a: string)
    requires Segments(p) == [a, STAR, STAR] && a != "" && !Wild(a)
    ensures Segments(Stored(p)) == [a, STARS] && !SameMatches(p, Stored(p), Some(3))
  {
    RunCases(Segments(p));
    assert Segments(p)[..1] + [STARS] == [a, STARS];
    StoredText(p);
    StoredExact(p);
  }

  lemma NarrowedInput(p: string, a: string, b: string)
    requires Segments(p) == [a, b, STARS] && a != "" && b != "" && !Wild(a) && !Wild(b)
    ensures Segments(Stored(p)) == [a, b, STAR] && !SameMatches(p, Stored(p), None)
  {
    RunCases(Segments(p));
    assert Segments(p)[..2] + [STAR] == [a, b, STAR];
    StoredText(p);
    StoredExact(p);
  }

  lemma FirstSegment(a: string, b: string, text: string)
    requires Free(a, ':') && text == a + [':'] + b
    ensures Segments(text) == [a] + Segments(b)
  {
    SplitPrefix(a, b, ':');
  }

  lemma WideText()
    ensures Segments("a:*:*") == ["a", "*", "*"]
  {
    SegmentsOf1("*");
    FirstSegment("*", "*", "*:*");
    FirstSegment("a", "*:*", "a:*:*");
  }

  lemma NarrowText()
    ensures Segments("a:b:**") == ["a", "b", "**"]
  {
    SegmentsOf1("**");
    FirstSegment("b", "**", "b:**");
    FirstSegment("a", "b:**", "a:b:**");
  }

  /** Two inputs: a:*:* comes back as a:** and a:b:** as a:b:*, neither matching what it did. */
  lemma StorageInputs()
    ensures Segments(Stored("a:*:*")) == ["a", "**"] && !SameMatches("a:*:*", Stored("a:*:*"), Some(3))
    ensures Segments(Stored("a:b:**")) == ["a", "b", "*"] && !SameMatches("a:b:**", Stored("a:b:**"), None)
  {
    WideText();
    WidenedInput("a:*:*", "a");
    NarrowText();
    NarrowedInput("a:b:**", "a", "b");
  }

  // ---- the three-column predicate of the held query -----------------------------------------

  /** (rc.col = request.col OR rc.col = '*') on each of the three columns. */
  predicate SqlMatch(held: Columns, req: Columns)
  {
    && (held.scope == req.scope || held.scope == STAR)
    && (held.action == req.action || held.action == STAR)
    && (held.qualifier == req.qualifier || held.qualifier == STAR)
  }

  /** The request stops short of the pattern, and everything the pattern has left is a wildcard. */
  ghost predicate WildOverhang(ps: seq<string>, rs: seq<string>)
  {
    && |rs| < |ps| <= 3
    && (forall i :: 0 <= i < |rs| ==> SegFits(ps[i], rs[i]))
    && (forall i :: |rs| <= i < |ps| ==> Wild(ps[i]))
  }

  /** The pattern fills the three columns, ending in '*', and the request has more than three segments. */
  ghost predicate StarTail(ps: seq<string>, rs: seq<string>)
  {
    |ps| == 3 && ps[2] == STAR && |rs| > 3 && SegFits(ps[0], rs[0]) && SegFits(ps[1], rs[1])
  }

  /** What the three columns can express: up to three segments, what the pattern denotes and the two
      overreaches of '*'; beyond, the third column is compared as plain text. */
  ghost predicate SqlDenotes(ps: seq<string>, rs: seq<string>)
  {
    if |ps| <= 3 then Denotes(ps, rs) || WildOverhang(ps, rs) || StarTail(ps, rs)
    else Denotes(ps, rs) && ps[2..] == rs[2..]
  }

  function Col(ps: seq<string>, i: nat): string
  {
    if Open(ps) && i >= |ps| - 1 then STAR else if i < |ps| then ps[i] else ""
  }

  lemma ColumnOf(parts: seq<string>, i: nat)
    requires Proper(parts) && |parts| <= 3 && i < 3
    ensures Column(parts, i) == Col(parts, i)
  {
  }

  /** The text of the third column when there are more than three segments. */
  lemma LongText(ps: seq<string>)
    requires Proper(ps) && |ps| > 3
    ensures var q := Join(ps[2..], ':'); ':' in q && !Wild(q) && q != ""
  {
    var q := Join(ps[2..], ':');
    assert q == ps[2] + [':'] + Join(ps[2..][1..], ':');
    assert q[|ps[2]|] == ':';
  }

  lemma PartsProper(s: string)
    requires Proper(Segments(s))
    ensures Proper(SplitN3(s)) && (ConcreteCap(s) ==> Concrete(SplitN3(s)))
  {
    if |Segments(s)| > 3 { LongText(Segments(s)); }
  }

  ghost predicate ColumnsFit(ps: seq<string>, rs: seq<string>)
  {
    forall i {:trigger Col(ps, i)} :: 0 <= i < 3 ==> Col(ps, i) == Col(rs, i) || Col(ps, i) == STAR
  }

  lemma FitDenotes(ps: seq<string>, rs: seq<string>)
    requires Proper(ps) && |ps| <= 3 && Proper(rs) && |rs| <= 3 && Concrete(rs)
    ensures ColumnsFit(ps, rs) <==> Denotes(ps, rs) || WildOverhang(ps, rs)
  {
    assert !Open(rs);
    if ColumnsFit(ps, rs) {
      assert forall i :: 0 <= i < |ps| ==> ps[i] != "";
      if |rs| < |ps| {
        forall i | |rs| <= i < |ps| ensures Wild(ps[i]) { assert Col(rs, i) == "" && Col(ps, i) == STAR; }
        forall i | 0 <= i < |rs| ensures SegFits(ps[i], rs[i]) { assert Col(ps, i) == ps[i]; }
      } else {
        forall i | 0 <= i < Fixed(ps) ensures SegFits(ps[i], rs[i]) { assert Col(ps, i) == ps[i]; }
        assert !Open(ps) && |ps| < 3 ==> Col(ps, |ps|) == "" && Col(rs, |ps|) == "";
      }
    }
    if Denotes(ps, rs) || WildOverhang(ps, rs) {
      forall i | 0 <= i < 3 ensures Col(ps, i) == Col(rs, i) || Col(ps, i) == STAR {
        if i < Fixed(ps) && i < |rs| { assert SegFits(ps[i], rs[i]); }
      }
    }
  }

  /** Over the three parts of each side. */
  lemma SqlMatchParts(p: string, r: string)
    requires Proper(Segments(p)) && Proper(Segments(r)) && ConcreteCap(r)
    ensures SqlMatch(Normalized(p), Normalized(r)) <==>
      Denotes(SplitN3(p), SplitN3(r)) || WildOverhang(SplitN3(p), SplitN3(r))
  {
    var ps, rs := SplitN3(p), SplitN3(r);
    PartsProper(p);
    PartsProper(r);
    ColumnOf(ps, 0); ColumnOf(ps, 1); ColumnOf(ps, 2);
    ColumnOf(rs, 0); ColumnOf(rs, 1); ColumnOf(rs, 2);
    FitDenotes(ps, rs);
    assert ColumnsFit(ps, rs) <==> SqlMatch(Normalized(p), Normalized(r)) by {
      assert Col(ps, 0) == Normalized(p).scope && Col(ps, 1) == Normalized(p).action &&
        Col(ps, 2) == Normalized(p).qualifier;
      assert Col(rs, 0) == Normalized(r).scope && Col(rs, 1) == Normalized(r).action &&
        Col(rs, 2) == Normalized(r).qualifier;
    }
  }

  lemma JoinInjective(a: seq<string>, b: seq<string>)
    requires |a| > 0 && |b| > 0 && AllFree(a, ':') && AllFree(b, ':') && Join(a, ':') == Join(b, ':')
    ensures a == b
  {
    SplitJoin(a, ':');
    SplitJoin(b, ':');
  }

  /** A long request against a pattern that fits the columns. */
  lemma LongRequest(ps: seq<string>, rs: seq<string>)
    requires Proper(ps) && |ps| <= 3 && Proper(rs) && |rs| > 3 && AllFree(ps, ':')
    ensures var parts := [rs[0], rs[1], Join(rs[2..], ':')];
      Denotes(ps, parts) || WildOverhang(ps, parts) <==> Denotes(ps, rs) || StarTail(ps, rs)
  {
    LongText(rs);
    var parts := [rs[0], rs[1], Join(rs[2..], ':')];
    forall i | 0 <= i < Fixed(ps) && i < 2 ensures SegFits(ps[i], parts[i]) <==> SegFits(ps[i], rs[i]) {}
    assert |ps| == 3 && !Open(ps) ==> (SegFits(ps[2], parts[2]) <==> ps[2] == STAR);
    assert |ps| == 3 ==> SegFits(ps[0], rs[0]) && SegFits(ps[1], rs[1]) ==>
      SegFits(ps[0], parts[0]) && SegFits(ps[1], parts[1]);
  }

  /** A pattern too long for the columns. */
  lemma LongPattern(ps: seq<string>, rs: seq<string>, parts: seq<string>)
    requires Proper(ps) && |ps| > 3 && Proper(rs) && Concrete(rs) && AllFree(ps, ':') && AllFree(rs, ':')
    requires parts == if |rs| <= 3 then rs else [rs[0], rs[1], Join(rs[2..], ':')]
    ensures var held := [ps[0], ps[1], Join(ps[2..], ':')];
      Denotes(held, parts) || WildOverhang(held, parts) <==> Denotes(ps, rs) && ps[2..] == rs[2..]
  {
    LongText(ps);
    var held := [ps[0], ps[1], Join(ps[2..], ':')];
    if |rs| > 3 {
      if Join(ps[2..], ':') == Join(rs[2..], ':') { JoinInjective(ps[2..], rs[2..]); }
      if ps[2..] == rs[2..] { TailFits(ps, rs); }
      assert Denotes(held, parts) <==> SegFits(ps[0], rs[0]) && SegFits(ps[1], rs[1]) && held[2] == parts[2];
    }
  }

  lemma TailFits(ps: seq<string>, rs: seq<string>)
    requires Proper(ps) && |ps| > 3 && |rs| > 3 && Concrete(rs) && ps[2..] == rs[2..]
    ensures Denotes(ps, rs) <==> SegFits(ps[0], rs[0]) && SegFits(ps[1], rs[1])
  {
    assert |ps| == |rs| && ps[|ps| - 1] == ps[2..][|ps| - 3] && rs[|rs| - 1] == rs[2..][|rs| - 3];
    assert !Open(ps);
    forall i | 2 <= i < |ps| ensures ps[i] == rs[i] { assert ps[i] == ps[2..][i - 2] && rs[i] == rs[2..][i - 2]; }
  }

  /** What the held query decides, for every admitted pattern and every request. */
  lemma SqlMatchIs(p: string, r: string)
    requires Proper(Segments(p)) && Proper(Segments(r)) && ConcreteCap(r)
    ensures SqlMatch(Normalized(p), Normalized(r)) <==> SqlDenotes(Segments(p), Segments(r))
  {
    var ps, rs := Segments(p), Segments(r);
    SqlMatchParts(p, r);
    SplitParts(p, ':');
    SplitParts(r, ':');
    if |ps| > 3 {
      LongPattern(ps, rs, SplitN3(r));
    } else if |rs| > 3 {
      LongRequest(ps, rs);
    }
  }

  /** A '*' in third position overreaches to the request that stops before it. */
  lemma Overreach(a: string, b: string, p: string, r: string)
    requires Segments(p) == [a, b, STAR] && Segments(r) == [a, b] && a != "" && b != "" && !Wild(a) && !Wild(b)
    ensures SqlMatch(Normalized(p), Normalized(r)) && !CapMatch(p, r)
  {
    SqlMatchIs(p, r);
    MatchIsDenotes(Segments(p), Segments(r));
    assert WildOverhang(Segments(p), Segments(r));
  }

  lemma QualifierOverreach()
    ensures SqlMatch(Normalized("ssh:login:*"), Normalized("ssh:login")) && !CapMatch("ssh:login:*", "ssh:login")
  {
    SshLogin();
    SshLoginStar();
    Overreach("ssh", "login", "ssh:login:*", "ssh:login");
  }

  lemma SshLogin()
    ensures Segments("ssh:login") == ["ssh", "login"]
  {
    LoginSegments();
    FirstSegment("ssh", "login", "ssh:login");
  }

  lemma SshLoginStar()
    ensures Segments("ssh:login:*") == ["ssh", "login", "*"]
  {
    LoginSegments();
    FirstSegment("ssh", "login:*", "ssh:login:*");
  }

  lemma LoginSegments()
    ensures Segments("login") == ["login"] && Segments("login:*") == ["login", "*"]
  {
    SplitFree("*", ':');
    SplitFree("login", ':');
    SplitPrefix("login", "*", ':');
    assert "login" + [':'] + "*" == "login:*";
  }

  ghost predicate SqlAgrees(p: string, shortest: nat, longest: Option<nat>)
  {
    forall r :: ConcreteCap(r) && Proper(Segments(r)) && shortest <= |Segments(r)| &&
      (longest.Some? ==> |Segments(r)| <= longest.value)
      ==> (SqlMatch(Normalized(p), Normalized(r)) <==> CapMatch(p, r))
  }

  lemma SqlAgreesIs(p: string, r: string)
    requires Proper(Segments(p)) && Proper(Segments(r)) && ConcreteCap(r)
    ensures (SqlMatch(Normalized(p), Normalized(r)) <==> CapMatch(p, r)) <==>
      (SqlDenotes(Segments(p), Segments(r)) <==> Denotes(Segments(p), Segments(r)))
  {
    SqlMatchIs(p, r);
    MatchIsDenotes(Segments(p), Segments(r));
  }

  predicate EndsWild(ps: seq<string>) { ps != [] && Wild(ps[|ps| - 1]) }

  /** On requests of shortest..3 segments, which is what the system asks, the held query agrees with
      CapMatch exactly unless a pattern of at most three segments ends in a wildcard beyond the first
      `shortest` of them. */
  lemma SqlAgreesExactly(p: string, shortest: nat)
    requires Proper(Segments(p)) && 0 < shortest <= 3
    ensures SqlAgrees(p, shortest, Some(3)) <==> !(shortest < |Segments(p)| <= 3 && EndsWild(Segments(p)))
  {
    var ps := Segments(p);
    forall r | ConcreteCap(r) && Proper(Segments(r))
      ensures (SqlMatch(Normalized(p), Normalized(r)) <==> CapMatch(p, r)) <==>
        (SqlDenotes(ps, Segments(r)) <==> Denotes(ps, Segments(r)))
    {
      SqlAgreesIs(p, r);
    }
    if shortest < |ps| <= 3 && EndsWild(ps) { OverhangWitness(p); }
  }

  lemma OverhangWitness(p: string)
    requires Proper(Segments(p)) && 1 < |Segments(p)| <= 3 && EndsWild(Segments(p))
    ensures var r := Join(Instance(Segments(p), "x", |Segments(p)| - 1), ':');
      && ConcreteCap(r) && Proper(Segments(r)) && |Segments(r)| == |Segments(p)| - 1
      && WildOverhang(Segments(p), Segments(r)) && !Denotes(Segments(p), Segments(r))
  {
    InstanceText(p, "x", |Segments(p)| - 1);
  }

  /** Some segment from the third on is a wildcard. */
  predicate WildTail(ps: seq<string>) { exists i :: 2 <= i < |ps| && Wild(ps[i]) }

  /** On requests of any length from `shortest` on, the exceptions are three: the overhang, a pattern of
      three segments ending in '*', and a longer one with a wildcard from its third segment on. */
  lemma SqlAgreesBeyond(p: string, shortest: nat)
    requires Proper(Segments(p)) && 0 < shortest
    ensures var ps := Segments(p);
      SqlAgrees(p, shortest, None) <==>
        && !(shortest < |ps| <= 3 && EndsWild(ps))
        && !(|ps| == 3 && ps[2] == STAR)
        && !(|ps| > 3 && WildTail(ps) && (Open(ps) || |ps| >= shortest))
  {
    var ps := Segments(p);
    forall r | ConcreteCap(r) && Proper(Segments(r))
      ensures (SqlMatch(Normalized(p), Normalized(r)) <==> CapMatch(p, r)) <==>
        (SqlDenotes(ps, Segments(r)) <==> Denotes(ps, Segments(r)))
    {
      SqlAgreesIs(p, r);
      if |ps| > 3 && Denotes(ps, Segments(r)) && !WildTail(ps) { ConcreteTail(ps, Segments(r)); }
    }
    if shortest < |ps| <= 3 && EndsWild(ps) {
      OverhangWitness(p);
    } else if |ps| == 3 && ps[2] == STAR {
      StarTailWitness(p, Max(4, shortest));
    } else if |ps| > 3 && WildTail(ps) && (Open(ps) || |ps| >= shortest) {
      WildTailWitness(p, Max(|ps|, if Open(ps) then shortest else 0));
    }
  }

  lemma ConcreteTail(ps: seq<string>, rs: seq<string>)
    requires |ps| > 3 && Denotes(ps, rs) && !WildTail(ps)
    ensures ps[2..] == rs[2..]
  {
    assert !Wild(ps[|ps| - 1]);
    forall i | 2 <= i < |ps| ensures ps[i] == rs[i] { assert SegFits(ps[i], rs[i]) && !Wild(ps[i]); }
  }

  lemma StarTailWitness(p: string, n: nat)
    requires Proper(Segments(p)) && |Segments(p)| == 3 && Segments(p)[2] == STAR && n > 3
    ensures var r := Join(Instance(Segments(p), "x", n), ':');
      && ConcreteCap(r) && Proper(Segments(r)) && |Segments(r)| == n
      && StarTail(Segments(p), Segments(r)) && !Denotes(Segments(p), Segments(r))
  {
    InstanceText(p, "x", n);
  }

  lemma WildTailWitness(p: string, n: nat)
    requires Proper(Segments(p)) && |Segments(p)| > 3 && WildTail(Segments(p)) && LengthFits(Segments(p), n)
    ensures var r := Join(Instance(Segments(p), "x", n), ':');
      && ConcreteCap(r) && Proper(Segments(r)) && |Segments(r)| == n
      && Denotes(Segments(p), Segments(r)) && Segments(p)[2..] != Segments(r)[2..]
  {
    var ps := Segments(p);
    InstanceText(p, "x", n);
    InstanceDenoted(ps, "x", n);
    var rs := Instance(ps, "x", n);
    var i :| 2 <= i < |ps| && Wild(ps[i]);
    assert ps[2..][i - 2] == ps[i] && rs[2..][i - 2] == rs[i];
  }
}
