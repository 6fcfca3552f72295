/** Capability patterns: the two glob engines and what they decide. */
module Capabilities {
  import opened Basics

  const STAR := "*"
  const STARS := "**"

  function Segments(s: string): (segs: seq<string>)
    ensures |segs| > 0
  {
    Split(s, ':')
  }

  predicate Wild(s: string) { s == STAR || s == STARS }

  // ---- the engines ----------------------------------------------------------------------

  /** CapMatch from pattern segment i on. */
  predicate MatchFrom(ps: seq<string>, rs: seq<string>, i: nat)
    decreases |ps| - i
  {
    if i >= |ps| then |ps| == |rs|
    else if ps[i] == STARS then i == |ps| - 1 && |rs| > i
    else if i >= |rs| then false
    else (ps[i] == STAR || ps[i] == rs[i]) && MatchFrom(ps, rs, i + 1)
  }

  predicate CapMatch(pattern: string, requested: string)
  {
    MatchFrom(Segments(pattern), Segments(requested), 0)
  }

  /** covers1 from held segment i on. */
  predicate CoversFrom(h: seq<string>, t: seq<string>, i: nat)
    decreases |h| - i
  {
    if i >= |h| then |h| == |t|
    else if h[i] == STARS then i == |h| - 1 && |t| > i
    else if i >= |t| then false
    else if h[i] == STAR then t[i] != STARS && CoversFrom(h, t, i + 1)
    else h[i] == t[i] && CoversFrom(h, t, i + 1)
  }

  predicate Covers1(held: string, target: string)
  {
    CoversFrom(Segments(held), Segments(target), 0)
  }

  predicate Covers(held: seq<string>, target: string)
  {
    exists i :: 0 <= i < |held| && Covers1(held[i], target)
  }

  /** Capabilities.Allows. */
  predicate Allows(caps: seq<string>, requested: string)
  {
    exists i :: 0 <= i < |caps| && CapMatch(caps[i], requested)
  }

  // ---- what a pattern means ---------------------------------------------------------------

  /** '**' only as the final segment. */
  ghost predicate WellFormed(ps: seq<string>)
  {
    forall i :: 0 <= i < |ps| - 1 ==> ps[i] != STARS
  }

  /** Ends in '**'. */
  predicate Open(ps: seq<string>)
  {
    |ps| > 0 && ps[|ps| - 1] == STARS
  }

  /** How many leading segments are compared one to one. */
  function Fixed(ps: seq<string>): nat
  {
    if Open(ps) then |ps| - 1 else |ps|
  }

  predicate SegFits(p: string, r: string) { p == STAR || p == r }

  ghost predicate LengthFits(ps: seq<string>, n: nat)
  {
    if Open(ps) then n >= |ps| else n == |ps|
  }

  /** The capabilities a pattern stands for. A malformed pattern stands for none. */
  ghost predicate Denotes(ps: seq<string>, rs: seq<string>)
  {
    && WellFormed(ps) && LengthFits(ps, |rs|)
    && forall i :: 0 <= i < Fixed(ps) ==> SegFits(ps[i], rs[i])
  }

  ghost predicate Concrete(rs: seq<string>)
  {
    forall i :: 0 <= i < |rs| ==> !Wild(rs[i])
  }

  lemma {:induction false} MatchTail(ps: seq<string>, rs: seq<string>, i: nat)
    requires i <= |ps|
    ensures MatchFrom(ps, rs, i) <==>
      && (forall k :: i <= k < |ps| - 1 ==> ps[k] != STARS)
      && (if i < |ps| && Open(ps) then |rs| >= |ps| else |rs| == |ps|)
      && (forall k :: i <= k < Fixed(ps) ==> SegFits(ps[k], rs[k]))
    decreases |ps| - i
  {
    if i < |ps| && ps[i] != STARS { MatchTail(ps, rs, i + 1); }
  }

  /** CapMatch decides exactly membership in what the pattern denotes. */
  lemma MatchIsDenotes(ps: seq<string>, rs: seq<string>)
    requires |ps| > 0
    ensures MatchFrom(ps, rs, 0) <==> Denotes(ps, rs)
  {
    MatchTail(ps, rs, 0);
  }

  // ---- subsumption ------------------------------------------------------------------------

  predicate SegCovers(h: string, t: string) { (h == STAR && t != STARS) || h == t }

  ghost predicate Subsumes(h: seq<string>, t: seq<string>)
  {
    && WellFormed(h) && LengthFits(h, |t|)
    && forall i :: 0 <= i < Fixed(h) ==> SegCovers(h[i], t[i])
  }

  lemma {:induction false} CoversTail(h: seq<string>, t: seq<string>, i: nat)
    requires i <= |h|
    ensures CoversFrom(h, t, i) <==>
      && (forall k :: i <= k < |h| - 1 ==> h[k] != STARS)
      && (if i < |h| && Open(h) then |t| >= |h| else |t| == |h|)
      && (forall k :: i <= k < Fixed(h) ==> SegCovers(h[k], t[k]))
    decreases |h| - i
  {
    if i < |h| && h[i] != STARS { CoversTail(h, t, i + 1); }
  }

  lemma CoversIsSubsumes(h: seq<string>, t: seq<string>)
    requires |h| > 0
    ensures CoversFrom(h, t, 0) <==> Subsumes(h, t)
  {
    CoversTail(h, t, 0);
  }

  /** Soundness, malformed patterns included. */
  lemma SubsumesSound(h: seq<string>, t: seq<string>, rs: seq<string>)
    requires |h| > 0 && Subsumes(h, t) && Denotes(t, rs)
    ensures Denotes(h, rs)
  {
  }

  /** A target with its wildcards filled by one unused segment, drawn out to length n. */
  function Instance(t: seq<string>, filler: string, n: nat): (rs: seq<string>)
    ensures |rs| == n
  {
    seq(n, i => if 0 <= i < |t| && !Wild(t[i]) then t[i] else filler)
  }

  lemma InstanceDenoted(t: seq<string>, filler: string, n: nat)
    requires |t| > 0 && WellFormed(t) && LengthFits(t, n) && !Wild(filler)
    ensures Denotes(t, Instance(t, filler, n)) && Concrete(Instance(t, filler, n))
  {
  }

  /** Two witnesses suffice: a held pattern that matches the target's shortest instance, and for an
      open target also the next longer one, subsumes the target. */
  lemma TwoWitnesses(h: seq<string>, t: seq<string>, filler: string)
    requires |h| > 0 && |t| > 0 && WellFormed(t) && filler !in h
    requires Denotes(h, Instance(t, filler, |t|))
    requires Open(t) ==> Denotes(h, Instance(t, filler, |t| + 1))
    ensures Subsumes(h, t)
  {
  }

  /** A segment longer than every segment of h. */
  function Filler(h: seq<string>): (f: string)
    ensures f != "" && f !in h && !Wild(f) && Free(f, ':')
  {
    FillerLonger(h);
    var f: string := seq(MaxLen(h) + 1, _ => 'x');
    assert f[0] == 'x';
    f
  }

  function MaxLen(h: seq<string>): nat
  {
    if h == [] then 0
    else if |h[0]| > MaxLen(h[1..]) then |h[0]| else MaxLen(h[1..])
  }

  lemma {:induction false} FillerLonger(h: seq<string>)
    ensures forall s :: s in h ==> |s| <= MaxLen(h)
  {
    if h != [] {
      FillerLonger(h[1..]);
      assert forall s :: s in h ==> s == h[0] || s in h[1..];
    }
  }

  lemma InstanceText(t: string, filler: string, n: nat)
    requires n > 0 && Free(filler, ':')
    ensures Segments(Join(Instance(Segments(t), filler, n), ':')) == Instance(Segments(t), filler, n)
  {
    SplitParts(t, ':');
    SplitJoin(Instance(Segments(t), filler, n), ':');
  }

  ghost predicate ConcreteCap(r: string) { Concrete(Segments(r)) }

  /** Every concrete capability the target grants, the holder is granted too. */
  ghost predicate Included(t: string, held: seq<string>)
  {
    forall r :: ConcreteCap(r) && CapMatch(t, r) ==> Allows(held, r)
  }

  /** covers1 is sound for every pair of strings. */
  lemma Covers1Sound(h: string, t: string, r: string)
    requires Covers1(h, t) && CapMatch(t, r)
    ensures CapMatch(h, r)
  {
    CoversIsSubsumes(Segments(h), Segments(t));
    MatchIsDenotes(Segments(t), Segments(r));
    SubsumesSound(Segments(h), Segments(t), Segments(r));
    MatchIsDenotes(Segments(h), Segments(r));
  }

  /** For a well-formed target covers1 decides language inclusion exactly. */
  lemma Covers1Exact(h: string, t: string)
    requires WellFormed(Segments(t))
    ensures Covers1(h, t) <==> forall r :: ConcreteCap(r) && CapMatch(t, r) ==> CapMatch(h, r)
  {
    if Covers1(h, t) {
      forall r | CapMatch(t, r) ensures CapMatch(h, r) { Covers1Sound(h, t, r); }
    } else if forall r :: ConcreteCap(r) && CapMatch(t, r) ==> CapMatch(h, r) {
      var hs, ts := Segments(h), Segments(t);
      var f := Filler(hs);
      WitnessMatched(h, t, |ts|);
      if Open(ts) { WitnessMatched(h, t, |ts| + 1); }
      TwoWitnesses(hs, ts, f);
      CoversIsSubsumes(hs, ts);
    }
  }

  lemma WitnessMatched(h: string, t: string, n: nat)
    requires WellFormed(Segments(t)) && LengthFits(Segments(t), n)
    requires forall r :: ConcreteCap(r) && CapMatch(t, r) ==> CapMatch(h, r)
    ensures Denotes(Segments(h), Instance(Segments(t), Filler(Segments(h)), n))
  {
    var f := Filler(Segments(h));
    var w := Instance(Segments(t), f, n);
    InstanceDenoted(Segments(t), f, n);
    InstanceText(t, f, n);
    MatchIsDenotes(Segments(t), w);
    assert CapMatch(h, Join(w, ':'));
    MatchIsDenotes(Segments(h), w);
  }

  /** Well-formedness is needed: a malformed target grants nothing, so it is included in anything,
      and covers1 still says no. */
  lemma MalformedTargetGrantsNothing(t: string, r: string)
    requires !WellFormed(Segments(t))
    ensures !CapMatch(t, r)
    ensures !Covers1("a", "**:b") && !WellFormed(Segments("**:b"))
  {
    MatchIsDenotes(Segments(t), Segments(r));
    SplitFree("a", ':');
    SplitFree("b", ':');
    SplitPrefix("**", "b", ':');
    assert "**" + [':'] + "b" == "**:b";
    assert Segments("**:b")[0] == STARS;
  }

  // ---- sets of held patterns ----------------------------------------------------------------

  /** The most segments any held pattern has. */
  function Longest(held: seq<string>): (n: nat)
  {
    if held == [] then 0
    else if |Segments(held[0])| > Longest(held[1..]) then |Segments(held[0])| else Longest(held[1..])
  }

  lemma {:induction false} LongestBounds(held: seq<string>, i: nat)
    requires i < |held|
    ensures |Segments(held[i])| <= Longest(held)
    decreases i
  {
    if i > 0 { LongestBounds(held[1..], i - 1); }
  }

  /** The target drawn out to n segments, wildcards filled with one segment nobody holds. */
  function Probe(held: seq<string>, t: string, n: nat): (rs: seq<string>)
    ensures |rs| == n
  {
    Instance(Segments(t), Filler(AllSegments(held)), n)
  }

  ghost predicate Denoted(held: seq<string>, rs: seq<string>)
  {
    exists i :: 0 <= i < |held| && Denotes(Segments(held[i]), rs)
  }

  ghost predicate DenotedOpenly(held: seq<string>, rs: seq<string>)
  {
    exists i :: 0 <= i < |held| && Open(Segments(held[i])) && Denotes(Segments(held[i]), rs)
  }

  /** Several held patterns share the work for an open target: finitely many probes are each matched
      by some held pattern, and no open one matches the shortest. */
  ghost predicate WorkShared(held: seq<string>, t: string)
  {
    && Open(Segments(t))
    && (forall n: nat :: |Segments(t)| <= n <= Max(|Segments(t)|, Longest(held) + 1) ==>
      Denoted(held, Probe(held, t, n)))
    && !DenotedOpenly(held, Probe(held, t, |Segments(t)|))
  }

  /** Covers, which asks for one held pattern to do all the work, agrees with inclusion exactly when
      the work is not shared. */
  lemma CoversSetExact(held: seq<string>, t: string)
    requires WellFormed(Segments(t))
    ensures (Covers(held, t) <==> Included(t, held)) <==> !WorkShared(held, t)
    ensures Covers(held, t) ==> Included(t, held)
  {
    if Covers(held, t) { CoveredIncluded(held, t); }
    if WorkShared(held, t) {
      SharedIncluded(held, t);
      SharedRefused(held, t);
    } else if Included(t, held) {
      UnsharedCovered(held, t);
    }
  }

  lemma CoveredIncluded(held: seq<string>, t: string)
    requires Covers(held, t)
    ensures Included(t, held)
  {
    var i :| 0 <= i < |held| && Covers1(held[i], t);
    forall r | CapMatch(t, r) ensures Allows(held, r) { Covers1Sound(held[i], t, r); }
  }

  lemma IncludedProbe(held: seq<string>, t: string, n: nat)
    requires WellFormed(Segments(t)) && LengthFits(Segments(t), n) && Included(t, held)
    ensures Denoted(held, Probe(held, t, n))
  {
    var ts, f, w := Segments(t), Filler(AllSegments(held)), Probe(held, t, n);
    InstanceDenoted(ts, f, n);
    InstanceText(t, f, n);
    MatchIsDenotes(ts, w);
    assert Allows(held, Join(w, ':'));
    var i :| 0 <= i < |held| && CapMatch(held[i], Join(w, ':'));
    MatchIsDenotes(Segments(held[i]), w);
  }

  lemma UnsharedCovered(held: seq<string>, t: string)
    requires WellFormed(Segments(t)) && Included(t, held) && !WorkShared(held, t)
    ensures Covers(held, t)
  {
    var ts, f := Segments(t), Filler(AllSegments(held));
    var w := Probe(held, t, |ts|);
    forall n: nat | LengthFits(ts, n) ensures Denoted(held, Probe(held, t, n)) { IncludedProbe(held, t, n); }
    var i :| 0 <= i < |held| && Denotes(Segments(held[i]), w) && (Open(ts) ==> Open(Segments(held[i])));
    AllSegmentsHas(held, i);
    if Open(ts) { LongerInstance(Segments(held[i]), ts, f); }
    TwoWitnesses(Segments(held[i]), ts, f);
    CoversIsSubsumes(Segments(held[i]), ts);
  }

  /** One pattern covering an open target ends in '**' and matches its shortest instance. */
  lemma SharedRefused(held: seq<string>, t: string)
    requires WellFormed(Segments(t)) && WorkShared(held, t)
    ensures !Covers(held, t)
  {
    var ts, f := Segments(t), Filler(AllSegments(held));
    InstanceDenoted(ts, f, |ts|);
    forall i | 0 <= i < |held| ensures !Covers1(held[i], t) {
      var hs := Segments(held[i]);
      CoversIsSubsumes(hs, ts);
      if Subsumes(hs, ts) {
        SubsumesSound(hs, ts, Probe(held, t, |ts|));
      }
    }
  }

  /** A pattern matching a probe matches everything the target grants at that length; an open one
      also everything longer. */
  lemma ProbeStandsForAll(h: seq<string>, t: seq<string>, filler: string, n: nat, rs: seq<string>)
    requires |t| > 0 && filler !in h && n >= |t| && Open(t)
    requires Denotes(h, Instance(t, filler, n)) && Denotes(t, rs)
    requires |rs| == n || (Open(h) && |rs| > n)
    ensures Denotes(h, rs)
  {
    forall i | 0 <= i < Fixed(h) ensures SegFits(h[i], rs[i]) {
      assert SegFits(h[i], Instance(t, filler, n)[i]);
      if i < Fixed(t) { assert SegFits(t[i], rs[i]); }
    }
  }

  lemma SharedIncluded(held: seq<string>, t: string)
    requires WellFormed(Segments(t)) && WorkShared(held, t)
    ensures Included(t, held)
  {
    var ts, f := Segments(t), Filler(AllSegments(held));
    var top := Max(|ts|, Longest(held) + 1);
    forall r | CapMatch(t, r) ensures Allows(held, r) {
      var rs := Segments(r);
      MatchIsDenotes(ts, rs);
      var n: nat := if |rs| <= top then |rs| else top;
      assert Denoted(held, Probe(held, t, n));
      var i :| 0 <= i < |held| && Denotes(Segments(held[i]), Probe(held, t, n));
      AllSegmentsHas(held, i);
      LongestBounds(held, i);
      ProbeStandsForAll(Segments(held[i]), ts, f, n, rs);
      MatchIsDenotes(Segments(held[i]), rs);
    }
  }

  lemma LongerInstance(h: seq<string>, t: seq<string>, filler: string)
    requires Open(h) && Denotes(h, Instance(t, filler, |t|))
    ensures Denotes(h, Instance(t, filler, |t| + 1))
  {
  }

  function AllSegments(held: seq<string>): seq<string>
  {
    if held == [] then [] else Segments(held[0]) + AllSegments(held[1..])
  }

  lemma {:induction false} AllSegmentsHas(held: seq<string>, i: nat)
    requires i < |held|
    ensures forall s :: s in Segments(held[i]) ==> s in AllSegments(held)
    decreases i
  {
    if i > 0 { AllSegmentsHas(held[1..], i - 1); }
  }

  /** For an open target two held patterns can share the work, and Covers then refuses:
      a:* and a:*:** together grant everything a:** does. */
  lemma SharedCoverRefused()
    ensures Included("a:**", ["a:*", "a:*:**"]) && !Covers(["a:*", "a:*:**"], "a:**")
  {
    SharedSegments();
    CoversIsSubsumes(["a", "*"], ["a", "**"]);
    CoversIsSubsumes(["a", "*", "**"], ["a", "**"]);
    forall r | ConcreteCap(r) && CapMatch("a:**", r) ensures Allows(["a:*", "a:*:**"], r) { SharedCover(r); }
  }

  lemma SharedSegments()
    ensures Segments("a:*") == ["a", "*"] && Segments("a:**") == ["a", "**"] && Segments("a:*:**") == ["a", "*", "**"]
  {
    SplitFree("*", ':');
    SplitFree("**", ':');
    SplitPrefix("a", "*", ':');
    SplitPrefix("a", "**", ':');
    SplitPrefix("*", "**", ':');
    SplitPrefix("a", "*:**", ':');
    assert "a" + [':'] + "*" == "a:*" && "a" + [':'] + "**" == "a:**";
    assert "*" + [':'] + "**" == "*:**" && "a" + [':'] + "*:**" == "a:*:**";
  }

  lemma SharedCover(r: string)
    requires CapMatch("a:**", r)
    ensures Allows(["a:*", "a:*:**"], r)
  {
    SharedSegments();
    MatchIsDenotes(["a", "**"], Segments(r));
    MatchIsDenotes(["a", "*"], Segments(r));
    MatchIsDenotes(["a", "*", "**"], Segments(r));
    var held := ["a:*", "a:*:**"];
    assert CapMatch(held[0], r) || CapMatch(held[1], r);
  }

  lemma Covers1Self(p: string)
    requires WellFormed(Segments(p))
    ensures Covers1(p, p)
  {
    CoversIsSubsumes(Segments(p), Segments(p));
  }

  /** Subsumption is transitive for all patterns. */
  lemma Covers1Transitive(a: string, b: string, c: string)
    requires Covers1(a, b) && Covers1(b, c)
    ensures Covers1(a, c)
  {
    var sa, sb, sc := Segments(a), Segments(b), Segments(c);
    CoversIsSubsumes(sa, sb);
    CoversIsSubsumes(sb, sc);
    CoversIsSubsumes(sa, sc);
    forall i | 0 <= i < Fixed(sa) ensures SegCovers(sa[i], sc[i]) {
      assert SegCovers(sa[i], sb[i]);
      assert i < Fixed(sb) ==> SegCovers(sb[i], sc[i]);
    }
  }
}
