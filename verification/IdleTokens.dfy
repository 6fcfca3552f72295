/** Bearer tokens with an absolute and an idle expiry, and a throttled refresh of the last use. Times
    are nanoseconds on one clock. */
module IdleTokens {
  import opened Basics

  datatype Row = Row(user: Id, expires: int, lastUsed: int)

  /** A quarter of the idle window, at most a minute. */
  function TouchEvery(idle: nat): nat
  {
    if idle > 0 && idle / 4 < MINUTE then idle / 4 else MINUTE
  }

  predicate IdleOut(row: Row, idle: nat, now: int) { idle > 0 && now > row.lastUsed + idle }

  predicate Accepts(row: Row, idle: nat, now: int) { !(row.expires < now) && !IdleOut(row, idle, now) }

  predicate Touches(row: Row, idle: nat, now: int) { Accepts(row, idle, now) && now - row.lastUsed > TouchEvery(idle) }

  /** The row after a validation whose touch goes through. */
  function After(row: Row, idle: nat, now: int): Row
  {
    if Touches(row, idle, now) then row.(lastUsed := now) else row
  }

  type Tokens = map<Id, Row>

  /** The calls of the service; the database may lose a touch. */
  datatype Call = Issued(hash: Id, user: Id, ttl: int, at: int) | Validated(hash: Id, at: int,
      touchOk: bool) | Revoked(hash: Id)

  function Apply(tokens: Tokens, idle: nat, c: Call): Tokens
  {
    match c
    case Issued(hash, user, ttl, at) => tokens[hash := Row(user, at + ttl, at)]
    case Validated(hash, at, touchOk) =>
      if hash in tokens && touchOk then tokens[hash := After(tokens[hash], idle, at)] else tokens
    case Revoked(hash) => tokens - {hash}
  }

  /** Validate's answer: None for a missing, expired or idle token. */
  function Answer(tokens: Tokens, idle: nat, hash: Id, now: int): Option<Id>
  {
    if hash in tokens && Accepts(tokens[hash], idle, now) then Some(tokens[hash].user) else None
  }

  class TokenService {
    const idle: nat
    var tokens: Tokens

    constructor (idle: nat)
      ensures this.idle == idle && tokens == map[]
    {
      this.idle, tokens := idle, map[];
    }

    method Issue(hash: Id, user: Id, ttl: int, now: int)
      modifies this
      ensures tokens == Apply(old(tokens), idle, Issued(hash, user, ttl, now))
    {
      tokens := tokens[hash := Row(user, now + ttl, now)];
    }

    /** Validate: a lost touch changes nothing. */
    method Validate(hash: Id, now: int, touchOk: bool) returns (user: Option<Id>)
      modifies this
      ensures user == Answer(old(tokens), idle, hash, now)
      ensures tokens == Apply(old(tokens), idle, Validated(hash, now, touchOk))
    {
      if hash !in tokens { return None; }
      var row := tokens[hash];
      assert tokens == tokens[hash := row];
      if row.expires < now { return None; }
      if idle > 0 && now > row.lastUsed + idle { return None; }
      var touchEvery := MINUTE;
      if idle > 0 && idle / 4 < touchEvery { touchEvery := idle / 4; }
      if now - row.lastUsed > touchEvery && touchOk {
        tokens := tokens[hash := row.(lastUsed := now)];
      }
      return Some(row.user);
    }

    method Revoke(hash: Id)
      modifies this
      ensures tokens == Apply(old(tokens), idle, Revoked(hash))
    {
      tokens := tokens - {hash};
    }
  }

  // ---- runs of validations ----------------------------------------------------------------------------

  function RowAt(row: Row, idle: nat, calls: seq<int>): Row
  {
    if calls == [] then row else After(RowAt(row, idle, calls[..|calls| - 1]), idle, calls[|calls| - 1])
  }

  /** Whether the last call of a run is refused for idleness. */
  predicate IdleRejected(row: Row, idle: nat, calls: seq<int>)
    requires calls != []
  {
    IdleOut(RowAt(row, idle, calls[..|calls| - 1]), idle, calls[|calls| - 1])
  }

  /** Calls in order, starting at the token's last use, with no gap above the bound. */
  ghost predicate Paced(row: Row, calls: seq<int>, gap: int)
  {
    forall i :: 0 <= i < |calls| ==> 0 <= calls[i] - Before(row, calls, i) <= gap
  }

  function Before(row: Row, calls: seq<int>, i: nat): int
    requires i < |calls|
  {
    if i == 0 then row.lastUsed else calls[i - 1]
  }

  ghost predicate NotExpired(row: Row, calls: seq<int>)
  {
    forall i :: 0 <= i < |calls| ==> calls[i] <= row.expires
  }

  lemma PacedPrefix(row: Row, calls: seq<int>, gap: int)
    requires calls != [] && Paced(row, calls, gap)
    ensures Paced(row, calls[..|calls| - 1], gap)
  {
  }

  /** The recorded last use lags behind the latest call by at most the touch interval. */
  lemma {:induction false} LagBounded(row: Row, idle: nat, calls: seq<int>, gap: int)
    requires idle > 0 && Paced(row, calls, gap) && gap <= idle - TouchEvery(idle) && NotExpired(row, calls)
    ensures RowAt(row, idle, calls).expires == row.expires
    ensures var latest := if calls == [] then row.lastUsed else calls[|calls| - 1];
      latest - TouchEvery(idle) <= RowAt(row, idle, calls).lastUsed <= latest
    ensures calls != [] ==> !IdleRejected(row, idle, calls)
    decreases |calls|
  {
    if calls != [] {
      PacedPrefix(row, calls, gap);
      LagBounded(row, idle, calls[..|calls| - 1], gap);
      assert 0 <= calls[|calls| - 1] - Before(row, calls, |calls| - 1) <= gap;
    }
  }

  /** No run with gaps up to the bound is refused for idleness before absolute expiry. */
  ghost predicate SafeGap(idle: nat, gap: int)
  {
    forall row: Row, calls: seq<int> :: calls != [] && Paced(row, calls, gap) && NotExpired(row, calls) ==>
      !IdleRejected(row, idle, calls)
  }

  /** The largest safe gap is exactly the idle window less the touch interval, and that is at least three
      quarters of the window. */
  lemma SafeGapExactly(idle: nat, gap: int)
    requires idle > 0
    ensures SafeGap(idle, gap) <==> gap <= idle - TouchEvery(idle)
    ensures 4 * (idle - TouchEvery(idle)) >= 3 * idle
  {
    if gap <= idle - TouchEvery(idle) {
      forall row: Row, calls: seq<int> | calls != [] && Paced(row, calls, gap) && NotExpired(row, calls)
        ensures !IdleRejected(row, idle, calls)
      {
        LagBounded(row, idle, calls, gap);
      }
    } else {
      var row := Row(0, idle + 1, 0);
      var calls := [TouchEvery(idle) as int, idle + 1];
      assert calls[..1] == [TouchEvery(idle) as int] && calls[..1][..0] == [];
      assert RowAt(row, idle, calls[..1]) == row;
      assert Paced(row, calls, gap) && NotExpired(row, calls) && IdleRejected(row, idle, calls);
    }
  }

  /** A token refused once is refused from then on. */
  lemma RejectedForever(row: Row, idle: nat, now: int, later: int)
    requires !Accepts(row, idle, now) && now <= later
    ensures After(row, idle, now) == row && !Accepts(row, idle, later)
  {
  }

  lemma {:induction false} RunRejected(row: Row, idle: nat, now: int, calls: seq<int>)
    requires !Accepts(row, idle, now) && forall i :: 0 <= i < |calls| ==> now <= calls[i]
    ensures RowAt(row, idle, calls) == row && forall i :: 0 <= i < |calls| ==>
      !Accepts(RowAt(row, idle, calls[..i]), idle, calls[i])
    decreases |calls|
  {
    if calls != [] {
      var r := calls[..|calls| - 1];
      RunRejected(row, idle, now, r);
      RejectedForever(row, idle, now, calls[|calls| - 1]);
      forall i | 0 <= i < |calls| ensures !Accepts(RowAt(row, idle, calls[..i]), idle, calls[i]) {
        if i < |r| {
          assert r[..i] == calls[..i] && !Accepts(RowAt(row, idle, r[..i]), idle, r[i]);
        } else {
          assert calls[..i] == r;
        }
      }
    }
  }

  // ---- runs of calls --------------------------------------------------------------------------------------

  function RunCalls(tokens: Tokens, idle: nat, calls: seq<Call>): Tokens
  {
    if calls == [] then tokens else Apply(RunCalls(tokens, idle, calls[..|calls| - 1]), idle, calls[|calls| - 1])
  }

  lemma {:induction false} AbsentStays(tokens: Tokens, idle: nat, hash: Id, calls: seq<Call>)
    requires hash !in tokens && forall i :: 0 <= i < |calls| ==> !(calls[i].Issued? && calls[i].hash == hash)
    ensures hash !in RunCalls(tokens, idle, calls)
    decreases |calls|
  {
    if calls != [] { AbsentStays(tokens, idle, hash, calls[..|calls| - 1]); }
  }

  /** A revoked token is refused by every later validation, until its hash is issued again. */
  lemma RevokedForever(tokens: Tokens, idle: nat, hash: Id, calls: seq<Call>, now: int)
    requires forall i :: 0 <= i < |calls| ==> !(calls[i].Issued? && calls[i].hash == hash)
    ensures Answer(RunCalls(Apply(tokens, idle, Revoked(hash)), idle, calls), idle, hash, now) == None
  {
    AbsentStays(Apply(tokens, idle, Revoked(hash)), idle, hash, calls);
  }

  /** The times a token is validated. */
  function TimesOf(calls: seq<Call>, hash: Id): seq<int>
  {
    if calls == [] then []
    else
      var last := calls[|calls| - 1];
      TimesOf(calls[..|calls| - 1], hash) + if last.Validated? && last.hash == hash then [last.at] else []
  }

  /** The token is only validated, and no touch of it is lost. */
  ghost predicate OnlyUsed(calls: seq<Call>, hash: Id)
  {
    forall i :: 0 <= i < |calls| && calls[i].hash == hash ==> calls[i].Validated? && calls[i].touchOk
  }

  /** What happens to other tokens does not matter. */
  lemma {:induction false} RowFollows(tokens: Tokens, idle: nat, calls: seq<Call>, hash: Id)
    requires hash in tokens && OnlyUsed(calls, hash)
    ensures var end := RunCalls(tokens, idle, calls);
      hash in end && end[hash] == RowAt(tokens[hash], idle, TimesOf(calls, hash))
    decreases |calls|
  {
    if calls != [] {
      var r, last := calls[..|calls| - 1], calls[|calls| - 1];
      RowFollows(tokens, idle, r, hash);
      var times := TimesOf(r, hash);
      if last.hash == hash { assert (times + [last.at])[..|times|] == times; } else { assert times + [] == times; }
    }
  }

  lemma {:induction false} IdentityFixed(row: Row, idle: nat, calls: seq<int>)
    ensures RowAt(row, idle, calls).user == row.user && RowAt(row, idle, calls).expires == row.expires
    decreases |calls|
  {
    if calls != [] { IdentityFixed(row, idle, calls[..|calls| - 1]); }
  }

  /** An issued token is accepted, for the user it was issued to, up to its expiry as long as it is used
      with no gap above the safe one, whatever else the service does meanwhile. */
  lemma IssuedAccepted(tokens: Tokens, idle: nat, issue: Call, calls: seq<Call>, now: int)
    requires issue.Issued? && OnlyUsed(calls, issue.hash) && now <= issue.at + issue.ttl
    requires var row, times := Row(issue.user, issue.at + issue.ttl, issue.at), TimesOf(calls, issue.hash) + [now];
      NotExpired(row, times) && (idle > 0 ==> Paced(row, times, idle - TouchEvery(idle)))
    ensures Answer(RunCalls(Apply(tokens, idle, issue), idle, calls), idle, issue.hash, now) == Some(issue.user)
  {
    var row, times := Row(issue.user, issue.at + issue.ttl, issue.at), TimesOf(calls, issue.hash);
    RowFollows(Apply(tokens, idle, issue), idle, calls, issue.hash);
    IdentityFixed(row, idle, times);
    if idle > 0 {
      LagBounded(row, idle, times + [now], idle - TouchEvery(idle));
      assert (times + [now])[..|times|] == times;
    }
  }

  // ---- what becomes of an issued token --------------------------------------------------------------------

  ghost predicate NotReissued(calls: seq<Call>, hash: Id)
  {
    forall i :: 0 <= i < |calls| ==> !(calls[i].Issued? && calls[i].hash == hash)
  }

  ghost predicate NotRevoked(calls: seq<Call>, hash: Id)
  {
    forall i :: 0 <= i < |calls| ==> calls[i] != Revoked(hash)
  }

  /** The last use on record: the issue, or the latest validation in time that was due to be recorded and
      whose touch was not lost. */
  function LastUse(idle: nat, issue: Call, calls: seq<Call>): int
    requires issue.Issued?
  {
    if calls == [] then issue.at
    else
      var last, c := LastUse(idle, issue, calls[..|calls| - 1]), calls[|calls| - 1];
      if c.Validated? && c.hash == issue.hash && c.touchOk && c.at - last > TouchEvery(idle)
        && c.at <= issue.at + issue.ttl && (idle > 0 ==> c.at <= last + idle)
      then c.at else last
  }

  /** Until its hash is issued again a token is in the table exactly if it was not revoked, with the user and
      the expiry it was issued with and its last use on record. */
  lemma {:induction false} IssuedRow(tokens: Tokens, idle: nat, issue: Call, calls: seq<Call>)
    requires issue.Issued? && NotReissued(calls, issue.hash)
    ensures var end := RunCalls(Apply(tokens, idle, issue), idle, calls);
      && (issue.hash in end <==> NotRevoked(calls, issue.hash))
      && (issue.hash in end ==>
            end[issue.hash] == Row(issue.user, issue.at + issue.ttl, LastUse(idle, issue, calls)))
    decreases |calls|
  {
    if calls != [] {
      var r := calls[..|calls| - 1];
      IssuedRow(tokens, idle, issue, r);
      assert calls[|calls| - 1] != Revoked(issue.hash) && NotRevoked(r, issue.hash) ==> NotRevoked(calls, issue.hash);
    }
  }

  /** A validation of an issued token names the user it was issued to exactly if it was not revoked, has not
      expired, and has a use on record within the idle window; otherwise it is refused. */
  lemma AnsweredExactly(tokens: Tokens, idle: nat, issue: Call, calls: seq<Call>, now: int)
    requires issue.Issued? && NotReissued(calls, issue.hash)
    ensures Answer(RunCalls(Apply(tokens, idle, issue), idle, calls), idle, issue.hash, now) ==
      if NotRevoked(calls, issue.hash) && now <= issue.at + issue.ttl
        && (idle > 0 ==> now <= LastUse(idle, issue, calls) + idle)
      then Some(issue.user) else None
  {
    IssuedRow(tokens, idle, issue, calls);
  }

  /** An expired token is refused, whatever happened to it meanwhile. */
  lemma ExpiredRefused(tokens: Tokens, idle: nat, issue: Call, calls: seq<Call>, now: int)
    requires issue.Issued? && NotReissued(calls, issue.hash) && now > issue.at + issue.ttl
    ensures Answer(RunCalls(Apply(tokens, idle, issue), idle, calls), idle, issue.hash, now) == None
  {
    AnsweredExactly(tokens, idle, issue, calls, now);
  }

  /** No validation of the token is later than this. */
  ghost predicate UsedUpTo(calls: seq<Call>, hash: Id, latest: int)
  {
    forall i :: 0 <= i < |calls| && calls[i].Validated? && calls[i].hash == hash ==> calls[i].at <= latest
  }

  lemma {:induction false} LastUseBounded(idle: nat, issue: Call, calls: seq<Call>, latest: int)
    requires issue.Issued? && issue.at <= latest
    requires UsedUpTo(calls, issue.hash, latest)
    ensures LastUse(idle, issue, calls) <= latest
    decreases |calls|
  {
    if calls != [] { LastUseBounded(idle, issue, calls[..|calls| - 1], latest); }
  }

  /** With an idle window, a token is refused once its latest use of any kind is longer ago than that. */
  lemma IdleRefused(tokens: Tokens, idle: nat, issue: Call, calls: seq<Call>, latest: int, now: int)
    requires issue.Issued? && NotReissued(calls, issue.hash) && idle > 0 && issue.at <= latest && now > latest + idle
    requires UsedUpTo(calls, issue.hash, latest)
    ensures Answer(RunCalls(Apply(tokens, idle, issue), idle, calls), idle, issue.hash, now) == None
  {
    LastUseBounded(idle, issue, calls, latest);
    AnsweredExactly(tokens, idle, issue, calls, now);
  }

  // ---- how often the row is written -----------------------------------------------------------------------

  function TouchCount(row: Row, idle: nat, calls: seq<int>): nat
  {
    if calls == [] then 0
    else
      var r := calls[..|calls| - 1];
      TouchCount(row, idle, r) + if Touches(RowAt(row, idle, r), idle, calls[|calls| - 1]) then 1 else 0
  }

  ghost predicate Within(calls: seq<int>, from: int, span: nat)
  {
    forall i :: 0 <= i < |calls| ==> from <= calls[i] <= from + span
  }

  /** n intervals of length q. */
  function Total(n: nat, q: nat): nat { if n == 0 then 0 else Total(n - 1, q) + q }

  /** Each touch after the first is more than an interval after the one before. */
  lemma {:induction false} TouchesSpaced(row: Row, idle: nat, calls: seq<int>, from: int, span: nat)
    requires Within(calls, from, span)
    ensures TouchCount(row, idle, calls) > 0 ==>
      from + Total(TouchCount(row, idle, calls) - 1, TouchEvery(idle)) <= RowAt(row, idle, calls).lastUsed <= from
        + span
    decreases |calls|
  {
    if calls != [] { TouchesSpaced(row, idle, calls[..|calls| - 1], from, span); }
  }

  lemma {:induction false} TotalDivides(n: nat, q: nat, span: nat)
    requires q > 0 && Total(n, q) <= span
    ensures n <= span / q
    decreases n
  {
    if n > 0 {
      TotalDivides(n - 1, q, span - q);
      assert span / q == (span - q) / q + 1 by { DivStep(span - q, q); }
    }
  }

  lemma DivStep(x: nat, q: nat)
    requires q > 0
    ensures (x + q) / q == x / q + 1
  {
    assert x + q == q * (x / q + 1)
      + x % q by { assert x == q * (x / q) + x % q; assert q * (x / q + 1) == q * (x / q) + q; }
    QuotientUnique(x + q, q, x / q + 1, x % q);
  }

  lemma QuotientUnique(x: nat, q: nat, k: nat, r: nat)
    requires q > 0 && x == q * k + r && r < q
    ensures x / q == k
  {
    var d := x / q - k;
    assert x == q * (x / q) + x % q;
    assert q * (x / q) == q * k + q * d by { assert x / q == k + d; Distributes(q, k, d); }
    assert q * d == r - x % q;
    assert d == 0 by { Unscaled(q, d, r - x % q); }
  }

  lemma Distributes(q: int, a: int, b: int)
    ensures q * (a + b) == q * a + q * b
  {
  }

  lemma Unscaled(q: int, d: int, e: int)
    requires q > 0 && q * d == e && 0 < q + e && e < q
    ensures d == 0
  {
  }

  lemma CountBounded(n: nat, q: nat, span: nat)
    requires q > 0 && (n > 0 ==> Total(n - 1, q) <= span)
    ensures n <= span / q + 1
  {
    if n > 0 { TotalDivides(n - 1, q, span); }
  }

  /** Over any calls within a span there are at most span / interval + 1 writes. */
  lemma TouchesBounded(row: Row, idle: nat, calls: seq<int>, from: int, span: nat)
    requires Within(calls, from, span) && TouchEvery(idle) > 0
    ensures TouchCount(row, idle, calls) <= span / TouchEvery(idle) + 1
  {
    TouchesSpaced(row, idle, calls, from, span);
    CountBounded(TouchCount(row, idle, calls), TouchEvery(idle), span);
  }
}
