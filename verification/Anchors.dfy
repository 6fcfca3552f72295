/** Anchoring the chain tip in an object store: keys that sort as their sequence numbers, and what the
    anchorer's ticks keep. The audit table may change arbitrarily between ticks, and between the two
    reads of one. */
module Anchors {
  import opened Basics
  import opened Octets
  import opened HashChain

  // ---- keys ---------------------------------------------------------------------------------------

  function Pow10(k: nat): nat { if k == 0 then 1 else 10 * Pow10(k - 1) }

  /** The k low decimal digits of n, most significant first. */
  function Digits(n: nat, k: nat): (t: string)
    ensures |t| == k
  {
    if k == 0 then "" else Digits(n / 10, k - 1) + ['0' + (n % 10) as char]
  }

  /** Go's byte-wise string order. */
  predicate Less(a: string, b: string)
  {
    if b == "" then false
    else if a == "" then true
    else a[0] < b[0] || (a[0] == b[0] && Less(a[1..], b[1..]))
  }

  const PREFIX := "audit-anchors/"
  const SUFFIX := ".json"

  /** anchorKey: the sequence number zero-padded to twenty digits. */
  function AnchorKey(seqno: nat): string { PREFIX + (Digits(seqno, 20) + SUFFIX) }

  lemma {:induction false} LessPrefix(p: string, a: string, b: string)
    ensures Less(p + a, p + b) <==> Less(a, b)
    decreases |p|
  {
    if p == "" {
      assert p + a == a && p + b == b;
    } else {
      LessPrefix(p[1..], a, b);
      assert (p + a)[1..] == p[1..] + a && (p + b)[1..] == p[1..] + b;
    }
  }

  /** For texts of one length, what is appended to both does not matter. */
  lemma {:induction false} LessSuffix(a: string, b: string, x: string, y: string)
    requires |a| == |b|
    ensures Less(a, b) ==> Less(a + x, b + y)
    ensures a != b ==> (Less(a + x, b + y) <==> Less(a, b))
    decreases |a|
  {
    if a != "" {
      LessSuffix(a[1..], b[1..], x, y);
      assert (a + x)[1..] == a[1..] + x && (b + y)[1..] == b[1..] + y;
      assert a == [a[0]] + a[1..] && b == [b[0]] + b[1..];
    }
  }

  lemma {:induction false} LessTotal(a: string, b: string)
    ensures a == b || Less(a, b) || Less(b, a)
    ensures !(Less(a, b) && Less(b, a)) && !Less(a, a)
    decreases |a|
  {
    if a != "" && b != "" {
      LessTotal(a[1..], b[1..]);
      assert a == [a[0]] + a[1..] && b == [b[0]] + b[1..];
    }
    if a != "" { LessTotal(a[1..], a[1..]); }
  }

  lemma {:induction false} DigitsOrdered(m: nat, n: nat, k: nat)
    requires m < n < Pow10(k)
    ensures Less(Digits(m, k), Digits(n, k))
  {
    var a, b := Digits(m / 10, k - 1), Digits(n / 10, k - 1);
    var x, y := ['0' + (m % 10) as char], ['0' + (n % 10) as char];
    if m / 10 < n / 10 {
      DigitsOrdered(m / 10, n / 10, k - 1);
      LessSuffix(a, b, x, y);
    } else {
      assert m / 10 == n / 10 && m % 10 < n % 10;
      LessPrefix(a, x, y);
    }
  }

  /** Keys sort exactly as the sequence numbers they encode. */
  lemma KeysSort(m: nat, n: nat)
    requires m < Pow10(20) && n < Pow10(20)
    ensures Less(AnchorKey(m), AnchorKey(n)) <==> m < n
    ensures AnchorKey(m) == AnchorKey(n) <==> m == n
  {
    if m < n { KeyLess(m, n); }
    if n < m { KeyLess(n, m); }
    LessTotal(AnchorKey(m), AnchorKey(n));
  }

  lemma KeyLess(m: nat, n: nat)
    requires m < n < Pow10(20)
    ensures Less(AnchorKey(m), AnchorKey(n))
  {
    DigitsOrdered(m, n, 20);
    LessSuffix(Digits(m, 20), Digits(n, 20), SUFFIX, SUFFIX);
    LessPrefix(PREFIX, Digits(m, 20) + SUFFIX, Digits(n, 20) + SUFFIX);
  }

  // ---- the store ----------------------------------------------------------------------------------

  /** `at` is the anchored_at time of the write. */
  datatype Anchor = Anchor(seqno: nat, hash: Bytes, at: nat)

  type Store = map<string, Anchor>

  /** Every object sits under the key of its own sequence number. */
  ghost predicate StoreOk(store: Store)
  {
    forall k :: k in store ==> store[k].seqno < Pow10(20) && k == AnchorKey(store[k].seqno)
  }

  ghost predicate Highest(store: Store, a: Anchor)
  {
    (exists k :: k in store && store[k] == a) && forall k :: k in store ==> store[k].seqno <= a.seqno
  }

  /** The highest stored anchor has this sequence number and hash. */
  ghost predicate TopIs(store: Store, seqno: nat, hash: Bytes)
  {
    exists a :: Highest(store, a) && a.seqno == seqno && a.hash == hash
  }

  predicate NoHigher(store: Store, j: string, k: string)
  {
    j in store && k in store && store[j].seqno <= store[k].seqno
  }

  lemma HigherKey(store: Store, j: string, k: string)
    requires StoreOk(store) && j in store && k in store
    ensures if Less(j, k) then NoHigher(store, j, k) else NoHigher(store, k, j)
  {
    KeysSort(store[j].seqno, store[k].seqno);
  }

  /** best is the highest of the first i keys. */
  ghost predicate BestOf(store: Store, keys: seq<string>, i: nat, best: string)
  {
    i <= |keys| && best in store && forall j :: 0 <= j < i ==> NoHigher(store, keys[j], best)
  }

  lemma NextBest(store: Store, keys: seq<string>, i: nat, best: string)
    requires StoreOk(store) && BestOf(store, keys, i, best) && i < |keys| && keys[i] in store
    ensures BestOf(store, keys, i + 1, if Less(best, keys[i]) then keys[i] else best)
  {
    HigherKey(store, best, keys[i]);
  }

  lemma BestIsHighest(store: Store, keys: seq<string>, best: string)
    requires best in store && forall k :: k in store <==> k in keys
    requires forall j :: 0 <= j < |keys| ==> NoHigher(store, keys[j], best)
    ensures Highest(store, store[best])
  {
  }

  /** latestAnchor over a listing of the store: the object with the highest sequence number. */
  method LatestAnchor(store: Store, keys: seq<string>) returns (latest: Option<Anchor>)
    requires StoreOk(store) && forall k :: k in store <==> k in keys
    ensures latest.None? <==> store == map[]
    ensures latest.Some? ==> Highest(store, latest.value)
  {
    if |keys| == 0 { return None; }
    var best := keys[0];
    assert best in store;
    var i := 1;
    while i < |keys|
      invariant 1 <= i && BestOf(store, keys, i, best)
    {
      assert keys[i] in store;
      NextBest(store, keys, i, best);
      if Less(best, keys[i]) { best := keys[i]; }
      i := i + 1;
    }
    BestIsHighest(store, keys, best);
    return Some(store[best]);
  }

  // ---- the anchorer -------------------------------------------------------------------------------

  /** The in-memory reference, and the store. `lastHash` is None until something is anchored. */
  datatype State = State(lastSeq: nat, lastHash: Option<Bytes>, store: Store)

  /** Only Truncated raises the alarm; a check whose own read failed is a warning and no more. */
  datatype Check = NothingToCheck | Unchecked | Covered | Truncated

  /** One tick: the table its check reads and the one its tip read finds, whether the check, the tip read
      and the write go through, and the time. */
  datatype Tick = Tick(seen: Log, log: Log, checkOk: bool, readOk: bool, putOk: bool, now: nat)

  /** The database hands out sequence numbers from 1 on, in a 64-bit column. */
  ghost predicate TableOk(log: Log)
  {
    Ordered(log) && forall i :: 0 <= i < |log| ==> 0 < log[i].seqno < Pow10(20)
  }

  /** The tip has moved past the reference, and the new anchor can be read and written. */
  predicate Advances(st: State, t: Tick)
  {
    t.readOk && t.putOk && t.log != [] && t.log[|t.log| - 1].seqno > st.lastSeq
  }

  function TipOf(log: Log, now: nat): Anchor
    requires log != []
  {
    Anchor(log[|log| - 1].seqno, log[|log| - 1].hash, now)
  }

  /** The second half of a tick. */
  function AnchorTip(st: State, t: Tick): State
  {
    if Advances(st, t) then
      var a := TipOf(t.log, t.now);
      State(a.seqno, Some(a.hash), st.store[AnchorKey(a.seqno) := a])
    else st
  }

  /** The first half: the reference against the live table. */
  function CheckReference(st: State, t: Tick): Check
  {
    if st.lastHash.None? then NothingToCheck
    else if !t.checkOk then Unchecked
    else if HasEntry(t.seen, st.lastSeq, st.lastHash.value) then Covered
    else Truncated
  }

  function Boot(store: Store, found: Option<Anchor>): State
  {
    match found case None => State(0, None, store) case Some(a) => State(a.seqno, Some(a.hash), store)
  }

  function RunTicks(st: State, ticks: seq<Tick>): State
    decreases |ticks|
  {
    if ticks == [] then st else RunTicks(AnchorTip(st, ticks[0]), ticks[1..])
  }

  class Anchorer {
    var lastSeq: nat
    var lastHash: Option<Bytes>
    var store: Store

    function Snapshot(): State
      reads this
    {
      State(lastSeq, lastHash, store)
    }

    /** Startup: recover the latest anchor, unless listing or reading the store fails. */
    constructor (store: Store, keys: seq<string>, bootOk: bool)
      requires StoreOk(store) && forall k :: k in store <==> k in keys
      ensures this.store == store
      ensures bootOk && store != map[] ==> lastHash.Some? && TopIs(store, lastSeq, lastHash.value)
      ensures !bootOk || store == map[] ==> Snapshot() == Boot(store, None)
    {
      this.store, lastSeq, lastHash := store, 0, None;
      new;
      if bootOk {
        var a := LatestAnchor(store, keys);
        if a.Some? { lastSeq, lastHash := a.value.seqno, Some(a.value.hash); }
      }
    }

    /** One tick: check the reference, then anchor the tip if it advanced, whatever the check said. */
    method RunTick(t: Tick) returns (check: Check)
      requires Ordered(t.seen)
      modifies this
      ensures check == CheckReference(old(Snapshot()), t)
      ensures Snapshot() == AnchorTip(old(Snapshot()), t)
    {
      check := NothingToCheck;
      if lastHash.Some? {
        check := Unchecked;
        if t.checkOk {
          var ok := VerifyTipAtLeast(t.seen, lastSeq, lastHash.value);
          check := if ok then Covered else Truncated;
        }
      }
      if t.readOk && |t.log| > 0 {
        var tip := t.log[|t.log| - 1];
        if tip.seqno > lastSeq && t.putOk {
          store := store[AnchorKey(tip.seqno) := Anchor(tip.seqno, tip.hash, t.now)];
          lastSeq, lastHash := tip.seqno, Some(tip.hash);
        }
      }
    }
  }

  // ---- what ticks keep ----------------------------------------------------------------------------

  /** The anchored sequence number never decreases. */
  lemma {:induction false} RunMonotone(st: State, ticks: seq<Tick>)
    ensures st.lastSeq <= RunTicks(st, ticks).lastSeq
    ensures st.lastHash.Some? ==> RunTicks(st, ticks).lastHash.Some?
    decreases |ticks|
  {
    if ticks != [] { RunMonotone(AnchorTip(st, ticks[0]), ticks[1..]); }
  }

  /** The alarm is raised exactly if a check that goes through finds no row with the reference's number and
      hash. */
  lemma AlarmExactly(st: State, t: Tick)
    ensures CheckReference(st, t) == Truncated <==>
      && st.lastHash.Some? && t.checkOk
      && forall i :: 0 <= i < |t.seen| ==> t.seen[i].seqno != st.lastSeq || t.seen[i].hash != st.lastHash.value
  {
  }

  /** The tip of the table was read, and an anchor can be written. */
  predicate Through(t: Tick) { t.readOk && t.putOk && t.log != [] }

  /** A tick anchors the tip, as reference and in the store, exactly if it goes through and the tip is past
      the reference; otherwise nothing changes. */
  lemma TickAnchors(st: State, t: Tick)
    ensures var st' := AnchorTip(st, t);
      if Through(t) && t.log[|t.log| - 1].seqno > st.lastSeq then
        var tip := t.log[|t.log| - 1];
        && st'.lastSeq == tip.seqno && st'.lastHash == Some(tip.hash)
        && st'.store == st.store[AnchorKey(tip.seqno) := Anchor(tip.seqno, tip.hash, t.now)]
      else st' == st
  {
  }

  /** Nothing stored is above the reference. */
  ghost predicate Ahead(st: State)
  {
    forall k :: k in st.store ==> st.store[k].seqno <= st.lastSeq
  }

  ghost predicate Kept(store: Store, store': Store)
  {
    forall k :: k in store ==> k in store' && store'[k] == store[k]
  }

  ghost predicate TicksOk(ticks: seq<Tick>) { forall i :: 0 <= i < |ticks| ==> TableOk(ticks[i].log) }

  /** An anchor is written under a fresh key, and the reference stays ahead of the store. */
  lemma TickFresh(st: State, t: Tick)
    requires StoreOk(st.store) && Ahead(st) && TableOk(t.log)
    ensures Advances(st, t) ==> AnchorKey(TipOf(t.log, t.now).seqno) !in st.store
    ensures StoreOk(AnchorTip(st, t).store) && Ahead(AnchorTip(st, t)) && Kept(st.store, AnchorTip(st, t).store)
  {
    if Advances(st, t) { FreshKey(st.store, TipOf(t.log, t.now).seqno); }
  }

  lemma FreshKey(store: Store, seqno: nat)
    requires StoreOk(store) && seqno < Pow10(20) && forall k :: k in store ==> store[k].seqno < seqno
    ensures AnchorKey(seqno) !in store
  {
    forall k | k in store ensures k != AnchorKey(seqno) { KeysSort(store[k].seqno, seqno); }
  }

  /** While the reference is ahead of the store, no run of ticks overwrites an anchor. */
  lemma {:induction false} RunKeepsAnchors(st: State, ticks: seq<Tick>)
    requires StoreOk(st.store) && Ahead(st) && TicksOk(ticks)
    ensures StoreOk(RunTicks(st, ticks).store) && Ahead(RunTicks(st, ticks)) &&
      Kept(st.store, RunTicks(st, ticks).store)
    decreases |ticks|
  {
    if ticks != [] {
      TickFresh(st, ticks[0]);
      RunKeepsAnchors(AnchorTip(st, ticks[0]), ticks[1..]);
    }
  }

  /** Over every run, a tip that was read and could be written is behind the reference in the end; if it was
      past the reference at the time, its anchor is in the store, as written then. */
  lemma {:induction false} RunAnchors(st: State, ticks: seq<Tick>, i: nat)
    requires StoreOk(st.store) && Ahead(st) && TicksOk(ticks) && i < |ticks| && Through(ticks[i])
    ensures var end, tip := RunTicks(st, ticks), ticks[i].log[|ticks[i].log| - 1];
      && tip.seqno <= end.lastSeq
      && (tip.seqno > RunTicks(st, ticks[..i]).lastSeq ==>
            && AnchorKey(tip.seqno) in end.store
            && end.store[AnchorKey(tip.seqno)] == Anchor(tip.seqno, tip.hash, ticks[i].now))
    decreases |ticks|
  {
    var next, rest := AnchorTip(st, ticks[0]), ticks[1..];
    TickFresh(st, ticks[0]);
    if i == 0 {
      TickAnchors(st, ticks[0]);
      RunMonotone(next, rest);
      RunKeepsAnchors(next, rest);
    } else {
      RunAnchors(next, rest, i - 1);
      assert ticks[..i][1..] == rest[..i - 1];
    }
  }

  const SOME_EVENT := Event([], NIL, [], [])

  /** The append-only promise holds for every tick exactly if the reference is ahead of the store. A
      startup whose listing failed begins at zero and breaks it as soon as anything is stored: the
      first tick on an unchanged table writes the same tip under the same key at another time. */
  lemma AppendOnlyExactly(st: State)
    requires StoreOk(st.store)
    ensures (forall t: Tick :: TableOk(t.log) ==> Kept(st.store, AnchorTip(st, t).store)) <==> Ahead(st)
  {
    if Ahead(st) {
      forall t: Tick | TableOk(t.log) ensures Kept(st.store, AnchorTip(st, t).store) { TickFresh(st, t); }
    } else {
      var k :| k in st.store && st.store[k].seqno > st.lastSeq;
      var a := st.store[k];
      var t := Tick([], [Row(a.seqno, SOME_EVENT, [], a.hash)], true, true, true, a.at + 1);
      assert TableOk(t.log) && Advances(st, t) && TipOf(t.log, t.now) == a.(at := a.at + 1);
      assert AnchorTip(st, t).store[k] != st.store[k];
      assert !Kept(st.store, AnchorTip(st, t).store);
    }
  }

  /** So after a tick on any table, a restart whose startup read fails, and a tick on the same table at
      another time, the anchor first written is gone. */
  lemma FailedRestartOverwrites(log: Log, at: nat, now: nat)
    requires TableOk(log) && log != [] && at != now
    ensures var first := AnchorTip(Boot(map[], None), Tick(log, log, true, true, true, at));
      var second := AnchorTip(Boot(first.store, None), Tick(log, log, true, true, true, now));
      && Synced(first) && !Ahead(Boot(first.store, None))
      && first.store == map[AnchorKey(first.lastSeq) := TipOf(log, at)]
      && second.store == map[AnchorKey(first.lastSeq) := TipOf(log, now)]
  {
    var empty := Boot(map[], None);
    var t := Tick(log, log, true, true, true, at);
    assert Advances(empty, t);
    TickSynced(empty, t);
  }

  /** The reference is the highest anchor stored; with an empty store there is none. */
  ghost predicate Synced(st: State)
  {
    && StoreOk(st.store)
    && (if st.lastHash.None? then st.lastSeq == 0 && st.store == map[]
        else TopIs(st.store, st.lastSeq, st.lastHash.value))
  }

  lemma TickSynced(st: State, t: Tick)
    requires Synced(st) && TableOk(t.log)
    ensures Synced(AnchorTip(st, t))
  {
    assert Ahead(st);
    TickFresh(st, t);
    if Advances(st, t) {
      var a := TipOf(t.log, t.now);
      assert AnchorTip(st, t).store[AnchorKey(a.seqno)] == a;
      assert Highest(AnchorTip(st, t).store, a);
    }
  }

  /** After a successful startup, through any run, the latest anchor in the store is the reference; so a
      restart recovers exactly the highest sequence number ever anchored. */
  lemma {:induction false} RunSynced(st: State, ticks: seq<Tick>, found: Anchor)
    requires Synced(st) && TicksOk(ticks)
    ensures Synced(RunTicks(st, ticks))
    ensures Highest(RunTicks(st, ticks).store, found) ==>
      found.seqno == RunTicks(st, ticks).lastSeq && RunTicks(st, ticks).lastHash == Some(found.hash)
    decreases |ticks|
  {
    if ticks != [] {
      TickSynced(st, ticks[0]);
      RunSynced(AnchorTip(st, ticks[0]), ticks[1..], found);
    } else if Highest(st.store, found) {
      var top :| Highest(st.store, top) && top.seqno == st.lastSeq && Some(top.hash) == st.lastHash;
      OneHighest(st.store, top, found);
    }
  }

  lemma OneHighest(store: Store, a: Anchor, b: Anchor)
    requires StoreOk(store) && Highest(store, a) && Highest(store, b)
    ensures a == b
  {
    var j :| j in store && store[j] == a;
    var k :| k in store && store[k] == b;
    assert j == AnchorKey(a.seqno) && k == AnchorKey(b.seqno);
  }

  // ---- what silence means -------------------------------------------------------------------------

  ghost predicate Sound(h: Digest, log: Log) { Chained(ComputeHash(h), log) && AllSized(log) && TableOk(log) }

  /** No tick raises the alarm. */
  ghost predicate Silent(st: State, ticks: seq<Tick>)
    decreases |ticks|
  {
    ticks == [] || (CheckReference(st, ticks[0]) != Truncated && Silent(AnchorTip(st, ticks[0]), ticks[1..]))
  }

  /** The check's read went through, on a table that would pass a full verification. */
  ghost predicate Checked(h: Digest, t: Tick) { t.checkOk && Sound(h, t.seen) }

  /** The check's read went through, and the tip was read off a table that would pass a full verification
      and at most had rows appended since the check. */
  ghost predicate Trusted(h: Digest, t: Tick)
  {
    t.checkOk && TableOk(t.seen) && Sound(h, t.log) && Begins(t.seen, t.log)
  }

  /** The table of the check then needs no verification of its own. */
  lemma TrustedChecked(h: Digest, t: Tick)
    requires Trusted(h, t)
    ensures Checked(h, t)
  {
    var d := ComputeHash(h);
    forall i | 0 <= i < |t.seen|
      ensures RowHashOk(d, t.seen, i) && RowPrevOk(t.seen, i) && EventSized(t.seen[i].event)
    {
      assert SameEntry(t.seen[i], t.log[..|t.seen|][i]);
      assert RowHashOk(d, t.log, i) && RowPrevOk(t.log, i);
      if i > 0 { assert SameEntry(t.seen[i - 1], t.log[..|t.seen|][i - 1]); }
    }
  }

  /** Every tick that replaces the reference is trusted, and the last one is checked. */
  ghost predicate Guarded(h: Digest, st: State, ticks: seq<Tick>)
    decreases |ticks|
  {
    ticks == [] ||
    (&& (Advances(st, ticks[0]) ==> Trusted(h, ticks[0]))
     && (|ticks| == 1 ==> Checked(h, ticks[0]))
     && Guarded(h, AnchorTip(st, ticks[0]), ticks[1..]))
  }

  ghost predicate Begins(base: Log, log: Log) { |base| <= |log| && SameHistory(base, log[..|base|]) }

  lemma BeginsTrans(a: Log, b: Log, c: Log, n: nat)
    requires Begins(a, b) && n <= |c| && SameHistory(b, c[..n])
    ensures Begins(a, c)
  {
  }

  /** The reference is the tip of this table. */
  ghost predicate Anchored(st: State, ref: Log)
  {
    ref != [] && st.lastSeq == ref[|ref| - 1].seqno && st.lastHash == Some(ref[|ref| - 1].hash)
  }

  /** A silent run that is checked at its last tick and trusted wherever the reference was replaced leaves
      every history ever anchored the beginning of the table the last check saw, however the table was
      changed in between: or the proof hands over a collision or a zero preimage. */
  lemma {:induction false} SilenceMeansAppendOnly(h: Digest, st: State, ticks: seq<Tick>, ref: Log, base: Log)
    returns (ev: Evidence)
    requires Is32(h) && Sound(h, ref) && Anchored(st, ref) && Begins(base, ref)
    requires ticks != [] && Silent(st, ticks) && Guarded(h, st, ticks)
    ensures Proves(h, ev) && (ev.Same? ==> Begins(base, ticks[|ticks| - 1].seen))
    decreases |ticks|
  {
    var t := ticks[0];
    if Advances(st, t) {
      TrustedChecked(h, t);
      ev := CheckedPins(h, st, t, ref, base);
      if ev.Same? && |ticks| > 1 {
        BeginsTrans(base, t.seen, t.log, |t.seen|);
        ev := SilenceMeansAppendOnly(h, AnchorTip(st, t), ticks[1..], t.log, base);
      }
    } else if |ticks| == 1 {
      ev := CheckedPins(h, st, t, ref, base);
    } else {
      ev := SilenceMeansAppendOnly(h, st, ticks[1..], ref, base);
    }
  }

  lemma CheckedPins(h: Digest, st: State, t: Tick, ref: Log, base: Log) returns (ev: Evidence)
    requires Is32(h) && Sound(h, ref) && Anchored(st, ref) && Begins(base, ref)
    requires Checked(h, t) && CheckReference(st, t) != Truncated
    ensures Proves(h, ev) && (ev.Same? ==> Begins(base, t.seen))
  {
    var n: nat;
    ev, n := AnchorPins(h, ref, t.seen, st.lastSeq);
    if ev.Same? { BeginsTrans(base, ref, t.seen, n); }
  }

  function OtherEvent(e: Event): (f: Event)
    ensures f != e
  {
    Event(if e.kind == [] then [0] else [], NIL, [], [])
  }

  /** A table of one row, numbered n, that verifies and shares no first event with ref. */
  function Fork(h: Digest, ref: Log, n: nat): Log
    requires ref != []
  {
    Append(ComputeHash(h), [], OtherEvent(ref[0].event), n)
  }

  lemma ForkSound(h: Digest, ref: Log, n: nat)
    requires ref != [] && 0 < n < Pow10(20)
    ensures Sound(h, Fork(h, ref, n)) && !Begins(ref, Fork(h, ref, n))
  {
    assert Pow256(8) == 256 * Pow256(7) && Pow256(7) > 0;
  }

  /** Row 0 with another event, every number and hash left alone. */
  function Forged(ref: Log): Log
    requires ref != []
  {
    ref[0 := ref[0].(event := OtherEvent(ref[0].event))]
  }

  lemma ForgedSilent(st: State, ref: Log)
    requires TableOk(ref) && Anchored(st, ref)
    ensures TableOk(Forged(ref)) && HasEntry(Forged(ref), st.lastSeq, st.lastHash.value) && !Begins(ref, Forged(ref))
  {
    assert Forged(ref)[|ref| - 1].hash == ref[|ref| - 1].hash;
    assert !SameEntry(ref[0], Forged(ref)[..|ref|][0]);
  }

  /** The anchored table with the fork's row behind it. */
  lemma GraftedSilent(h: Digest, st: State, ref: Log)
    requires TableOk(ref) && Anchored(st, ref) && st.lastSeq + 1 < Pow10(20)
    ensures var grafted := ref + Fork(h, ref, st.lastSeq + 1);
      TableOk(grafted) && HasEntry(grafted, st.lastSeq, st.lastHash.value)
  {
    assert (ref + Fork(h, ref, st.lastSeq + 1))[|ref| - 1] == ref[|ref| - 1];
  }

  /** A run of two ticks is silent if the second finds the tip the first one left. */
  lemma TwoSilent(st: State, t: Tick, u: Tick)
    requires CheckReference(st, t) != Truncated && Advances(st, t)
    requires u.seen != [] && u.seen[|u.seen| - 1].seqno == t.log[|t.log| - 1].seqno
    requires u.seen[|u.seen| - 1].hash == t.log[|t.log| - 1].hash
    ensures Silent(st, [t, u])
  {
    assert [t, u][1..] == [u] && [u][1..] == [];
    assert Silent(AnchorTip(AnchorTip(st, t), u), []);
    assert Silent(AnchorTip(st, t), [u]);
  }

  /** What a tick may lack: a check that went through, a table known to verify under the check, one known
      to verify under the tip, or a table that was only appended to between the two. */
  datatype Lapse = Unread | UnverifiedSeen | UnverifiedTip | Between

  /** Everything but the lapse is as a trusted tick has it. The table of the check needs to be known to
      verify only where no tip is read after it, that is at a last tick that does not advance. */
  ghost predicate LacksOnly(h: Digest, t: Tick, lapse: Lapse)
  {
    match lapse
    case Unread => !t.checkOk && Sound(h, t.seen) && Sound(h, t.log) && Begins(t.seen, t.log)
    case UnverifiedSeen => t.checkOk && TableOk(t.seen) && t.log == []
    case UnverifiedTip => t.checkOk && Sound(h, t.seen) && TableOk(t.log) && Begins(t.seen, t.log)
    case Between => t.checkOk && Sound(h, t.seen) && Sound(h, t.log)
  }

  lemma BeginsSelf(log: Log)
    ensures Begins(log, log)
  {
  }

  lemma LastCheckNeeded(h: Digest, st: State, ref: Log, lapse: Lapse) returns (t: Tick)
    requires Sound(h, ref) && Anchored(st, ref) && (lapse.Unread? || lapse.UnverifiedSeen?)
    ensures LacksOnly(h, t, lapse) && CheckReference(st, t) != Truncated && !Advances(st, t) && !Begins(ref, t.seen)
  {
    t := Tick(if lapse.Unread? then [] else Forged(ref), [], !lapse.Unread?, true, true, 0);
    ForgedSilent(st, ref);
    BeginsSelf([]);
  }

  /** The first tick of a run that moves the reference to the fork. */
  function Leap(ref: Log, fork: Log, lapse: Lapse): Tick
  {
    match lapse
    case Unread => Tick(fork, fork, false, true, true, 0)
    case UnverifiedTip => Tick(ref, ref + fork, true, true, true, 0)
    case _ => Tick(ref, fork, true, true, true, 0)
  }

  lemma LeapLacks(h: Digest, ref: Log, fork: Log, lapse: Lapse)
    requires Sound(h, ref) && Sound(h, fork) && TableOk(ref + fork) && !lapse.UnverifiedSeen?
    ensures LacksOnly(h, Leap(ref, fork, lapse), lapse)
  {
    BeginsSelf(fork);
    assert (ref + fork)[..|ref|] == ref;
    BeginsSelf(ref);
  }

  lemma LeapSilent(st: State, ref: Log, fork: Log, lapse: Lapse)
    requires Anchored(st, ref) && |fork| == 1 && fork[0].seqno > st.lastSeq
    requires HasEntry(ref + fork, st.lastSeq, st.lastHash.value)
    ensures Advances(st, Leap(ref, fork, lapse))
    ensures Silent(st, [Leap(ref, fork, lapse), Tick(fork, fork, true, true, true, 0)])
  {
    assert HasEntry(ref, st.lastSeq, st.lastHash.value);
    TwoSilent(st, Leap(ref, fork, lapse), Tick(fork, fork, true, true, true, 0));
  }

  lemma TrustNeededToAdvance(h: Digest, st: State, ref: Log, lapse: Lapse) returns (fork: Log)
    requires Sound(h, ref) && Anchored(st, ref) && st.lastSeq + 1 < Pow10(20) && !lapse.UnverifiedSeen?
    ensures var t, u := Leap(ref, fork, lapse), Tick(fork, fork, true, true, true, 0);
      LacksOnly(h, t, lapse) && Advances(st, t) && Silent(st, [t, u]) && Trusted(h, u) && !Begins(ref, fork)
  {
    fork := Fork(h, ref, st.lastSeq + 1);
    ForkSound(h, ref, st.lastSeq + 1);
    GraftedSilent(h, st, ref);
    LeapLacks(h, ref, fork, lapse);
    LeapSilent(st, ref, fork, lapse);
    BeginsSelf(fork);
  }

  /** Each condition is needed, at the last tick and wherever the reference is replaced: a run whose first
      tick lacks just that one, and which is trusted otherwise, can be silent with the anchored history
      gone. */
  lemma TrustNeeded(h: Digest, st: State, ref: Log, last: bool, lapse: Lapse) returns (ticks: seq<Tick>)
    requires Sound(h, ref) && Anchored(st, ref) && st.lastSeq + 1 < Pow10(20)
    requires if last then lapse.Unread? || lapse.UnverifiedSeen? else !lapse.UnverifiedSeen?
    ensures |ticks| == (if last then 1 else 2) && Silent(st, ticks) && LacksOnly(h, ticks[0], lapse)
    ensures (Advances(st, ticks[0]) <==> !last) && (!last ==> Trusted(h, ticks[1]))
    ensures !Begins(ref, ticks[|ticks| - 1].seen)
  {
    if last {
      var t := LastCheckNeeded(h, st, ref, lapse);
      ticks := [t];
      assert Silent(AnchorTip(st, t), ticks[1..]);
    } else {
      var fork := TrustNeededToAdvance(h, st, ref, lapse);
      ticks := [Leap(ref, fork, lapse), Tick(fork, fork, true, true, true, 0)];
    }
  }
}
