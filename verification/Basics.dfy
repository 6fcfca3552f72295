/** Shared ground: Option, ids, durations, a few facts about sets, and the small string library (split
    and join on one separator) that capability patterns and dotted catalog paths share. */
module Basics {

  datatype Option<+T> = None | Some(value: T)

  type Id = nat

  /** Times are nanoseconds. */
  const SECOND: nat := 1_000_000_000
  const MINUTE: nat := 60 * SECOND

  function Min(a: int, b: int): int { if a <= b then a else b }
  function Max(a: int, b: int): int { if a >= b then a else b }

  lemma SubsetSize<T>(a: set<T>, b: set<T>)
    requires a <= b
    ensures |a| <= |b|
    decreases |b|
  {
    if a != {} {
      var x :| x in a;
      SubsetSize(a - {x}, b - {x});
    }
  }

  /** Go's strings.Split for a one-character separator: never empty. */
  function Split(s: string, sep: char): (parts: seq<string>)
    ensures |parts| > 0
  {
    if s == "" then [""]
    else if s[0] == sep then [""] + Split(s[1..], sep)
    else var rest := Split(s[1..], sep); [[s[0]] + rest[0]] + rest[1..]
  }

  function Join(parts: seq<string>, sep: char): (s: string)
  {
    if |parts| == 0 then ""
    else if |parts| == 1 then parts[0]
    else parts[0] + [sep] + Join(parts[1..], sep)
  }

  predicate Free(s: string, sep: char) { sep !in s }

  ghost predicate AllFree(parts: seq<string>, sep: char)
  {
    forall i :: 0 <= i < |parts| ==> Free(parts[i], sep)
  }

  lemma {:induction false} SplitParts(s: string, sep: char)
    ensures AllFree(Split(s, sep), sep)
    ensures Join(Split(s, sep), sep) == s
  {
    if s != "" {
      SplitParts(s[1..], sep);
      var rest := Split(s[1..], sep);
      if s[0] == sep {
        assert Split(s, sep)[1..] == rest;
        assert s == "" + [sep] + s[1..];
      } else {
        assert Split(s, sep)[1..] == rest[1..];
        assert s == [s[0]] + s[1..];
        if |rest| > 1 {
          assert [s[0]] + rest[0] + [sep] + Join(rest[1..], sep) == [s[0]] + (rest[0] + [sep] + Join(rest[1..], sep));
        }
      }
    }
  }

  /** Splitting a joined list gives the list back when no part holds the separator. */
  lemma {:induction false} SplitJoin(parts: seq<string>, sep: char)
    requires |parts| > 0 && AllFree(parts, sep)
    ensures Split(Join(parts, sep), sep) == parts
    decreases |parts|, |parts[0]|
  {
    var p := parts[0];
    if |parts| == 1 {
      SplitFree(p, sep);
    } else {
      SplitJoin(parts[1..], sep);
      SplitPrefix(p, Join(parts[1..], sep), sep);
    }
  }

  lemma {:induction false} SplitFree(p: string, sep: char)
    requires Free(p, sep)
    ensures Split(p, sep) == [p]
  {
    if p != "" {
      SplitFree(p[1..], sep);
      assert [p[0]] + p[1..] == p;
    }
  }

  lemma {:induction false} SplitPrefix(p: string, s: string, sep: char)
    requires Free(p, sep)
    ensures Split(p + [sep] + s, sep) == [p] + Split(s, sep)
  {
    var t := p + [sep] + s;
    if p == "" {
      assert t[1..] == s;
    } else {
      SplitPrefix(p[1..], s, sep);
      assert t[1..] == p[1..] + [sep] + s;
      assert [t[0]] + p[1..] == p;
    }
  }

  /** The least element of a set, found by going through it. */
  method LeastKey(keys: set<nat>) returns (least: nat)
    requires keys != {}
    ensures least in keys && forall q :: q in keys ==> least <= q
  {
    var first :| first in keys;
    least := first;
    var left := keys - {first};
    while left != {}
      invariant left <= keys && least in keys
      invariant forall q :: q in keys && q !in left ==> least <= q
    {
      var q :| q in left;
      if q < least { least := q; }
      left := left - {q};
    }
  }
}
