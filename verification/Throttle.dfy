/** The login throttle: a map of counters with eviction, refined to a pure history of failures and
    successes. Times are nanoseconds on one clock that does not run backwards. */
module Throttle {
  import opened Basics

  const WINDOW: int := 15 * 60 * SECOND
  const FREE_EMAIL: nat := 5
  const HARD_EMAIL: nat := 15
  const FREE_IP: nat := 20
  const HARD_IP: nat := 60
  const MAX_DELAY: int := 30 * SECOND

  datatype Key = Email(text: string) | Ip(text: string)

  /** The map key: the two kinds share one map. */
  function KeyText(k: Key): string
  {
    match k case Email(t) => "e:" + t case Ip(t) => "i:" + t
  }

  /** No two keys collide, whatever the texts. */
  lemma KeyTextInjective(j: Key, k: Key)
    requires KeyText(j) == KeyText(k)
    ensures j == k
  {
    assert KeyText(j)[0] == (if j.Email? then 'e' else 'i') && KeyText(k)[0] == (if k.Email? then 'e' else 'i');
    assert KeyText(j)[2..] == j.text && KeyText(k)[2..] == k.text;
  }

  // ---- the pure specification -----------------------------------------------------------------------

  datatype Counter = Counter(failures: nat, first: int)

  datatype Event = Failed(email: string, ip: string, at: int) | Succeeded(email: string, ip: string)

  predicate Touches(e: Event, k: Key) { k == Email(e.email) || k == Ip(e.ip) }

  /** Failures in the current window and the time of its first one; a success closes the window, a
      failure after its end opens a new one. */
  function Window(history: seq<Event>, k: Key): Option<Counter>
  {
    if history == [] then None
    else
      var e, before := history[|history| - 1], Window(history[..|history| - 1], k);
      if !Touches(e, k) then before
      else if e.Succeeded? then None
      else if before.Some? && e.at - before.value.first <= WINDOW then
        Some(Counter(before.value.failures + 1, before.value.first))
      else Some(Counter(1, e.at))
  }

  /** The window as seen at a time: over once its length has passed. */
  function Open(c: Option<Counter>, now: int): Option<Counter>
  {
    if c.Some? && now - c.value.first <= WINDOW then c else None
  }

  function Pow2(n: nat): nat { if n == 0 then 1 else 2 * Pow2(n - 1) }

  /** Free attempts cost nothing, then the delay doubles from one second up to the maximum. */
  function Backoff(failures: nat, free: nat): int
  {
    if failures < free then 0 else Min(MAX_DELAY, SECOND * Pow2(failures - free))
  }

  datatype Verdict = Verdict(delay: int, blocked: bool)

  function Judge(c: Option<Counter>, free: nat, hard: nat): Verdict
  {
    if c.None? then Verdict(0, false)
    else if c.value.failures >= hard then Verdict(MAX_DELAY, true)
    else Verdict(Backoff(c.value.failures, free), false)
  }

  function SpecCheck(history: seq<Event>, email: string, ip: string, now: int): Verdict
  {
    var e := Judge(Open(Window(history, Email(email)), now), FREE_EMAIL, HARD_EMAIL);
    var i := Judge(Open(Window(history, Ip(ip)), now), FREE_IP, HARD_IP);
    Verdict(Max(e.delay, i.delay), e.blocked || i.blocked)
  }

  function Left(c: Option<Counter>, now: int): int
  {
    if c.None? then 0 else c.value.first + WINDOW - now
  }

  /** What remains of the longer of the two open windows, whether or not it blocks. */
  function SpecRetry(history: seq<Event>, email: string, ip: string, now: int): int
  {
    Max(Left(Open(Window(history, Email(email)), now), now), Left(Open(Window(history, Ip(ip)), now), now))
  }

  /** Retry-After is zero exactly if neither key has time left in its window. */
  lemma RetryZero(history: seq<Event>, email: string, ip: string, now: int)
    ensures SpecRetry(history, email, ip, now) >= 0
    ensures SpecRetry(history, email, ip, now) == 0 <==>
      && (Window(history, Email(email)).Some? ==> Window(history, Email(email)).value.first + WINDOW <= now)
      && (Window(history, Ip(ip)).Some? ==> Window(history, Ip(ip)).value.first + WINDOW <= now)
  {
  }

  /** So it is positive after a single failure, although nothing is blocked. */
  lemma RetryWithoutBlock(email: string, ip: string, at: int)
    ensures var history := [Failed(email, ip, at)];
      SpecRetry(history, email, ip, at) == WINDOW && SpecCheck(history, email, ip, at) == Verdict(0, false)
  {
    var history := [Failed(email, ip, at)];
    assert history[..0] == [];
    assert Window(history, Email(email)) == Some(Counter(1, at)) && Window(history, Ip(ip)) == Some(Counter(1, at));
  }

  /** Failures that touch the key. */
  function FailuresOf(history: seq<Event>, k: Key): nat
  {
    if history == [] then 0
    else
      var e := history[|history| - 1];
      FailuresOf(history[..|history| - 1], k) + if e.Failed? && Touches(e, k) then 1 else 0
  }

  /** The window opens with the i-th event, a failure of the key, and counts every failure of the key since,
      all within its length and with no success among them. */
  ghost predicate OpensAt(history: seq<Event>, k: Key, i: nat, c: Counter)
  {
    && i < |history| && history[i].Failed? && Touches(history[i], k) && history[i].at == c.first
    && c.failures == FailuresOf(history[i..], k)
    && forall j :: i <= j < |history| && Touches(history[j], k) ==>
         history[j].Failed? && history[j].at - c.first <= WINDOW
  }

  /** What a counter counts. */
  lemma {:induction false} WindowCounts(history: seq<Event>, k: Key) returns (i: nat)
    requires Window(history, k).Some?
    ensures OpensAt(history, k, i, Window(history, k).value)
    decreases |history|
  {
    var n := |history| - 1;
    var before, e := history[..n], history[n];
    if !Touches(e, k) || (Window(before, k).Some? && e.at - Window(before, k).value.first <= WINDOW) {
      i := WindowCounts(before, k);
      assert history[i..][..|history[i..]| - 1] == before[i..];
      forall j | i <= j < n ensures history[j] == before[j] {}
    } else {
      i := n;
      assert history[n..] == [e] && [e][..0] == [];
    }
  }

  /** The i-th event is the last that touches the key. */
  ghost predicate LastTouch(history: seq<Event>, k: Key, i: nat)
  {
    i < |history| && Touches(history[i], k) && forall j :: i < j < |history| ==> !Touches(history[j], k)
  }

  ghost predicate Untouched(history: seq<Event>, k: Key)
  {
    forall j :: 0 <= j < |history| ==> !Touches(history[j], k)
  }

  /** The last event that touches the key is a success. */
  ghost predicate EndsInSuccess(history: seq<Event>, k: Key)
  {
    exists i: nat :: LastTouch(history, k, i) && history[i].Succeeded?
  }

  lemma SuccessShifts(before: seq<Event>, e: Event, k: Key)
    requires !Touches(e, k)
    ensures EndsInSuccess(before + [e], k) <==> EndsInSuccess(before, k)
    ensures Untouched(before + [e], k) <==> Untouched(before, k)
  {
    var history := before + [e];
    forall i: nat ensures LastTouch(history, k, i) <==> LastTouch(before, k, i) {
      assert forall j :: 0 <= j < |before| ==> history[j] == before[j];
    }
    if EndsInSuccess(before, k) {
      var i: nat :| LastTouch(before, k, i) && before[i].Succeeded?;
      assert LastTouch(history, k, i) && history[i].Succeeded?;
    }
    if Untouched(history, k) {
      forall j | 0 <= j < |before| ensures !Touches(before[j], k) { assert history[j] == before[j]; }
    }
  }

  lemma LastEventTouches(before: seq<Event>, e: Event, k: Key)
    requires Touches(e, k)
    ensures EndsInSuccess(before + [e], k) <==> e.Succeeded?
    ensures !Untouched(before + [e], k)
  {
    var history := before + [e];
    assert history[|before|] == e && LastTouch(history, k, |before|);
    forall i: nat | LastTouch(history, k, i) ensures i == |before| { assert Touches(history[|before|], k); }
  }

  /** A key has no counter exactly if the last event that touches it is a success, or there is none. */
  lemma {:induction false} WindowNone(history: seq<Event>, k: Key)
    ensures Window(history, k).None? <==> Untouched(history, k) || EndsInSuccess(history, k)
    decreases |history|
  {
    if history != [] {
      var before, e := history[..|history| - 1], history[|history| - 1];
      assert history == before + [e];
      if Touches(e, k) {
        LastEventTouches(before, e, k);
      } else {
        WindowNone(before, k);
        SuccessShifts(before, e, k);
      }
    }
  }

  /** This many failures of the key lie in a window that is not over. */
  ghost predicate Reached(history: seq<Event>, k: Key, n: nat, now: int)
  {
    && Window(history, k).Some?
    && now - Window(history, k).value.first <= 15 * MINUTE && Window(history, k).value.failures >= n
  }

  /** A login is blocked exactly if its email has fifteen failures in an open window or its address has
      sixty; either alone is enough, and then the delay is thirty seconds. */
  lemma BlockedExactly(history: seq<Event>, email: string, ip: string, now: int)
    ensures var v := SpecCheck(history, email, ip, now);
      && (v.blocked <==> Reached(history, Email(email), 15, now) || Reached(history, Ip(ip), 60, now))
      && (v.blocked ==> v.delay == 30 * SECOND)
  {
    DelayBounds(history, Email(email), now, FREE_EMAIL, HARD_EMAIL);
    DelayBounds(history, Ip(ip), now, FREE_IP, HARD_IP);
  }

  lemma DelayBounds(history: seq<Event>, k: Key, now: int, free: nat, hard: nat)
    requires free <= hard
    ensures 0 <= Judge(Open(Window(history, k), now), free, hard).delay <= MAX_DELAY
    ensures free > 0 ==>
      (Judge(Open(Window(history, k), now), free, hard).delay == 0 <==> !Reached(history, k, free, now))
  {
    var c := Open(Window(history, k), now);
    if c.Some? && free <= c.value.failures { Pow2Grows(0, c.value.failures - free); }
  }

  /** It is not even delayed exactly if its email has fewer than five failures in an open window and its
      address fewer than twenty. */
  lemma FreeExactly(history: seq<Event>, email: string, ip: string, now: int)
    ensures SpecCheck(history, email, ip, now) == Verdict(0, false) <==>
      !Reached(history, Email(email), 5, now) && !Reached(history, Ip(ip), 20, now)
  {
    DelayBounds(history, Email(email), now, FREE_EMAIL, HARD_EMAIL);
    DelayBounds(history, Ip(ip), now, FREE_IP, HARD_IP);
  }

  // ---- the clamped shift ------------------------------------------------------------------------------

  /** The delay as computed: shift by at most six, then cut to the maximum. */
  function ShiftDelay(failures: nat, free: nat): int
    requires free <= failures
  {
    var exp := if failures - free > 6 then 6 else failures - free;
    Min(SECOND * Pow2(exp), MAX_DELAY)
  }

  lemma {:induction false} Pow2Grows(m: nat, n: nat)
    requires m <= n
    ensures Pow2(m) <= Pow2(n)
    decreases n
  {
    if m < n { Pow2Grows(m, n - 1); }
  }

  /** Clamping the exponent never changes the delay. */
  lemma ShiftIsBackoff(failures: nat, free: nat)
    requires free <= failures
    ensures ShiftDelay(failures, free) == Backoff(failures, free)
  {
    if failures - free > 6 {
      Pow2Grows(6, failures - free);
      assert Pow2(6) == 64 by { assert Pow2(2) == 4 && Pow2(4) == 4 * Pow2(2) && Pow2(6) == 4 * Pow2(4); }
    }
  }

  /** More failures never mean a shorter delay or a lifted block. */
  lemma JudgeMonotone(m: nat, n: nat, at: int, free: nat, hard: nat)
    requires m <= n && free <= hard
    ensures var a, b := Judge(Some(Counter(m, at)), free, hard), Judge(Some(Counter(n, at)), free, hard);
      0 <= a.delay <= b.delay <= MAX_DELAY && (a.blocked ==> b.blocked)
  {
    if free <= m { Pow2Grows(m - free, n - free); }
    if free <= n { Pow2Grows(0, n - free); }
    if free <= m { Pow2Grows(0, m - free); }
  }

  // ---- the throttle -------------------------------------------------------------------------------------

  /** The map holds the window, or nothing when the window is over by the clock. */
  ghost predicate Tracks(m: map<string, Counter>, history: seq<Event>, clock: int, k: Key)
  {
    if KeyText(k) in m then Window(history, k) == Some(m[KeyText(k)])
    else Open(Window(history, k), clock) == None
  }

  class Throttle {
    var m: map<string, Counter>
    ghost var history: seq<Event>
    ghost var clock: int

    ghost predicate Valid()
      reads this
    {
      forall k: Key :: Tracks(m, history, clock, k)
    }

    constructor ()
      ensures Valid() && history == [] && m == map[]
    {
      m, history, clock := map[], [], 0;
    }

    /** eval: drops its own entry once the window is over. */
    method Eval(k: Key, free: nat, hard: nat, now: int) returns (v: Verdict)
      requires Valid() && clock <= now && free <= hard
      modifies this`m, this`clock
      ensures Valid() && clock == now
      ensures v == Judge(Open(Window(history, k), now), free, hard)
    {
      assert Tracks(m, history, clock, k);
      ghost var before := m;
      var key := KeyText(k);
      clock := now;
      if key !in m {
        StillOver(before, m, history, old(clock), now);
        return Verdict(0, false);
      }
      var c := m[key];
      if now - c.first > WINDOW {
        m := m - {key};
        StillOver(before, m, history, old(clock), now);
        return Verdict(0, false);
      }
      StillOver(before, m, history, old(clock), now);
      if c.failures >= hard { return Verdict(MAX_DELAY, true); }
      if c.failures < free { return Verdict(0, false); }
      ShiftIsBackoff(c.failures, free);
      v := Verdict(ShiftDelay(c.failures, free), false);
    }

    /** Check: the verdict of the history, evictions or not. */
    method Check(email: string, ip: string, now: int) returns (v: Verdict)
      requires Valid() && clock <= now
      modifies this`m, this`clock
      ensures Valid() && clock == now
      ensures v == SpecCheck(history, email, ip, now)
    {
      var e := Eval(Email(email), FREE_EMAIL, HARD_EMAIL, now);
      var i := Eval(Ip(ip), FREE_IP, HARD_IP, now);
      v := Verdict(Max(e.delay, i.delay), e.blocked || i.blocked);
    }

    method RetryAfter(email: string, ip: string, now: int) returns (d: int)
      requires Valid() && clock <= now
      ensures d == SpecRetry(history, email, ip, now)
    {
      d := 0;
      assert Tracks(m, history, clock, Email(email)) && Tracks(m, history, clock, Ip(ip));
      var keys := [KeyText(Email(email)), KeyText(Ip(ip))];
      var i := 0;
      while i < 2
        invariant 0 <= i <= 2
        invariant i == 0 ==> d == 0
        invariant i == 1 ==> d == Max(0, Left(Open(Window(history, Email(email)), now), now))
        invariant i == 2 ==>
          d == Max(Max(0, Left(Open(Window(history, Email(email)), now), now)),
            Left(Open(Window(history, Ip(ip)), now), now))
      {
        if keys[i] in m {
          var rem := WINDOW - (now - m[keys[i]].first);
          if rem > d { d := rem; }
        }
        i := i + 1;
      }
    }

    method Bump(k: Key, now: int)
      modifies this`m
      ensures m == old(m)[KeyText(k) := Bumped(old(m), k, now)]
    {
      var key := KeyText(k);
      if key !in m || now - m[key].first > WINDOW {
        m := m[key := Counter(1, now)];
      } else {
        m := m[key := Counter(m[key].failures + 1, m[key].first)];
      }
    }

    /** Fail: one more event in the history. */
    method Fail(email: string, ip: string, now: int)
      requires Valid() && clock <= now
      modifies this
      ensures Valid() && clock == now && history == old(history) + [Failed(email, ip, now)]
    {
      ghost var before := m;
      Bump(Email(email), now);
      KeysApart(email, ip);
      Bump(Ip(ip), now);
      history, clock := history + [Failed(email, ip, now)], now;
      forall k: Key ensures Tracks(m, history, clock, k) {
        FailTracks(before, old(history), old(clock), email, ip, now, m, k);
      }
    }

    /** Success: clears both keys. */
    method Success(email: string, ip: string)
      requires Valid()
      modifies this
      ensures Valid() && clock == old(clock) && history == old(history) + [Succeeded(email, ip)]
    {
      ghost var before := m;
      m := m - {KeyText(Email(email)), KeyText(Ip(ip))};
      history := history + [Succeeded(email, ip)];
      forall k: Key ensures Tracks(m, history, clock, k) {
        assert Tracks(before, old(history), clock, k);
        assert history[..|history| - 1] == old(history);
        if KeyText(k) == KeyText(Email(email)) { KeyTextInjective(k, Email(email)); }
        if KeyText(k) == KeyText(Ip(ip)) { KeyTextInjective(k, Ip(ip)); }
      }
    }

    /** Cleanup: drops entries whose window is over; the history, and so every later answer, is as before. */
    method Cleanup(now: int)
      requires Valid() && clock <= now
      modifies this`m, this`clock
      ensures Valid() && clock == now
      ensures forall t :: t in m <==> t in old(m) && now - old(m)[t].first <= WINDOW
    {
      var keys := m.Keys;
      ghost var before := m;
      while keys != {}
        invariant keys <= before.Keys
        invariant forall t :: t in m <==> t in before && (t in keys || now - before[t].first <= WINDOW)
        invariant forall t :: t in m ==> m[t] == before[t]
        decreases |keys|
      {
        var t :| t in keys;
        if now - m[t].first > WINDOW { m := m - {t}; }
        keys := keys - {t};
      }
      clock := now;
      StillOver(before, m, history, old(clock), now);
    }
  }

  function Bumped(m: map<string, Counter>, k: Key, now: int): Counter
  {
    if KeyText(k) in m && now - m[KeyText(k)].first <= WINDOW
    then Counter(m[KeyText(k)].failures + 1, m[KeyText(k)].first)
    else Counter(1, now)
  }

  lemma KeysApart(email: string, ip: string)
    ensures KeyText(Email(email)) != KeyText(Ip(ip))
  {
    assert KeyText(Email(email))[0] == 'e' && KeyText(Ip(ip))[0] == 'i';
  }

  /** Entries may go once their window is over, and a window that is over stays over. */
  lemma StillOver(m: map<string, Counter>, less: map<string, Counter>, history: seq<Event>, clock: int, now: int)
    requires forall k: Key :: Tracks(m, history, clock, k)
    requires clock <= now
    requires forall t :: t in less ==> t in m && less[t] == m[t]
    requires forall t :: t in m && t !in less ==> now - m[t].first > WINDOW
    ensures forall k: Key :: Tracks(less, history, now, k)
  {
    forall k: Key ensures Tracks(less, history, now, k) { assert Tracks(m, history, clock, k); }
  }

  lemma FailTracks(m: map<string, Counter>, history: seq<Event>, clock: int, email: string, ip: string, now: int,
      m': map<string, Counter>, k: Key)
    requires Tracks(m, history, clock, k) && clock <= now
    requires m' == m[KeyText(Email(email)) := Bumped(m, Email(email), now)][KeyText(Ip(ip)) := Bumped(m, Ip(ip), now)]
    ensures Tracks(m', history + [Failed(email, ip, now)], now, k)
  {
    var more := history + [Failed(email, ip, now)];
    assert more[..|more| - 1] == history;
    KeysApart(email, ip);
    if KeyText(k) == KeyText(Email(email)) { KeyTextInjective(k, Email(email)); }
    if KeyText(k) == KeyText(Ip(ip)) { KeyTextInjective(k, Ip(ip)); }
  }
}
