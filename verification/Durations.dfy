/** Grant windows: 64-bit nanosecond durations, microsecond intervals, and the clamp. */
module Durations {
  import opened Basics

  const TWO63: int := 0x8000_0000_0000_0000
  const TWO64: int := 0x1_0000_0000_0000_0000
  const MICRO: int := 1000
  const DAY: int := 86400 * SECOND

  predicate Int64(x: int) { -TWO63 <= x < TWO63 }

  /** How many times x overflows. */
  function Overflows(x: int): int { (x + TWO63) / TWO64 }

  /** Two's-complement wrap-around of a Go int64 operation. */
  function Wrap64(x: int): (w: int)
    ensures Int64(w) && w == x - TWO64 * Overflows(x)
    ensures Int64(x) ==> w == x
  {
    (x + TWO63) % TWO64 - TWO63
  }

  lemma WrapShift(x: int, k: int)
    ensures Wrap64(x - TWO64 * k) == Wrap64(x)
  {
  }

  /** A Postgres interval column. */
  datatype Interval = Interval(valid: bool, months: int, days: int, micros: int)

  predicate Fits(iv: Interval)
  {
    -0x8000_0000 <= iv.months < 0x8000_0000 && -0x8000_0000 <= iv.days < 0x8000_0000 && Int64(iv.micros)
  }

  /** The nanoseconds an interval stands for, with 30-day months, in unbounded arithmetic. */
  function Nanos(iv: Interval): int
  {
    iv.months * 30 * DAY + iv.days * DAY + iv.micros * MICRO
  }

  /** intervalToDuration, every operation wrapping. */
  function ToDuration(iv: Interval): (d: Option<int>)
    ensures d.Some? ==> 0 < d.value < TWO63
  {
    if !iv.valid then None
    else
      var d := Wrap64(Wrap64(Wrap64(Wrap64(iv.months * 30) * DAY) + Wrap64(iv.days * DAY)) + Wrap64(iv.micros * MICRO));
      if d <= 0 then None else Some(d)
  }

  /** All the wrapping collapses to one wrap of the true value. */
  lemma ToDurationIs(iv: Interval)
    ensures ToDuration(iv) == if iv.valid && Wrap64(Nanos(iv)) > 0 then Some(Wrap64(Nanos(iv))) else None
  {
    var x, y, z := iv.months * 30, iv.days * DAY, iv.micros * MICRO;
    var a := Wrap64(x);
    var b := Wrap64(a * DAY);
    var c := Wrap64(b + Wrap64(y));
    var k := Overflows(x) * DAY + Overflows(a * DAY) + Overflows(y) + Overflows(b + Wrap64(y)) + Overflows(z);
    assert c + Wrap64(z) == Nanos(iv) - TWO64 * k;
    WrapShift(Nanos(iv), k);
  }

  /** clamp. */
  function Clamp(dur: int, ruleMax: Interval, maxTtl: int): int
  {
    var ceiling := ToDuration(ruleMax);
    var granted := if ceiling.Some? && dur > ceiling.value then ceiling.value else dur;
    if granted > maxTtl then maxTtl else granted
  }

  /** The bound the policy and the server set together; a cap that is not positive is no cap. */
  function Ceiling(ruleMax: Interval, maxTtl: int): int
  {
    if ruleMax.valid && Nanos(ruleMax) > 0 then Min(Nanos(ruleMax), maxTtl) else maxTtl
  }

  /** The clamp never exceeds the request or the true ceiling, even when the cap overflows an int64;
      when the cap does not overflow it is exactly the least of the three. */
  lemma ClampBounds(dur: int, ruleMax: Interval, maxTtl: int)
    requires Int64(maxTtl)
    ensures Clamp(dur, ruleMax, maxTtl) <= dur && Clamp(dur, ruleMax, maxTtl) <= Ceiling(ruleMax, maxTtl)
    ensures Int64(Nanos(ruleMax)) ==> Clamp(dur, ruleMax, maxTtl) == Min(dur, Ceiling(ruleMax, maxTtl))
  {
    ToDurationIs(ruleMax);
  }

  /** Without the no-overflow hypothesis the least-of-three reading fails: a cap of 2^61 microseconds
      wraps to zero and is taken for no cap, one of 2^61 + 1 wraps to one microsecond. */
  lemma OverflowingCap()
    ensures Clamp(SECOND, Interval(true, 0, 0, TWO63 / 4 + 1), 8 * 3600 * SECOND) == MICRO
    ensures Ceiling(Interval(true, 0, 0, TWO63 / 4 + 1), 8 * 3600 * SECOND) == 8 * 3600 * SECOND
  {
  }

  /** durationToInterval; the division truncates toward zero. */
  function FromDuration(d: int): Interval
  {
    Interval(true, 0, 0, if d >= 0 then d / MICRO else -((-d) / MICRO))
  }

  /** mustDuration. */
  function MustDuration(iv: Interval): (d: int)
    ensures d > 0
  {
    match ToDuration(iv) case Some(d) => d case None => MINUTE
  }

  /** The window minted by the deciding vote: what is left of the granted duration after a round trip
      through the interval column. */
  function VotedWindow(granted: int): int { MustDuration(FromDuration(granted)) }

  lemma VotedWindowIs(granted: int)
    requires 0 < granted < TWO63
    ensures VotedWindow(granted) == if granted < MICRO then MINUTE else granted - granted % MICRO
    ensures VotedWindow(granted) <= granted <==> granted >= MICRO
  {
  }

  /** Both windows, self-service and voted, for one accepted request. */
  ghost predicate WindowsBounded(granted: int, ceiling: int)
  {
    && 0 < granted <= ceiling
    && 0 < VotedWindow(granted) <= ceiling
  }

  /** An accepted request gets a positive window within policy cap and server limit on both routes,
      exactly when the clamped duration is at least a microsecond or the one-minute fallback itself
      is within the ceiling. */
  lemma WindowsBoundedExactly(dur: int, ruleMax: Interval, maxTtl: int)
    requires Int64(dur) && Int64(maxTtl) && Clamp(dur, ruleMax, maxTtl) > 0
    ensures WindowsBounded(Clamp(dur, ruleMax, maxTtl), Ceiling(ruleMax, maxTtl))
      <==> Clamp(dur, ruleMax, maxTtl) >= MICRO || MINUTE <= Ceiling(ruleMax, maxTtl)
  {
    ClampBounds(dur, ruleMax, maxTtl);
    VotedWindowIs(Clamp(dur, ruleMax, maxTtl));
  }

  /** time.Duration(seconds) * time.Second in the handler. */
  function RequestedDuration(seconds: int): int { Wrap64(seconds * SECOND) }

  /** For a request of whole seconds the microsecond always holds, given that neither the seconds nor
      the cap overflow and the server limit is not below a microsecond. */
  lemma WholeSecondsBounded(seconds: int, ruleMax: Interval, maxTtl: int)
    requires 0 < seconds && Int64(seconds * SECOND) && Int64(Nanos(ruleMax)) && MICRO <= maxTtl < TWO63
    ensures Clamp(RequestedDuration(seconds), ruleMax, maxTtl) >= MICRO
    ensures WindowsBounded(Clamp(RequestedDuration(seconds), ruleMax, maxTtl), Ceiling(ruleMax, maxTtl))
  {
    ClampBounds(RequestedDuration(seconds), ruleMax, maxTtl);
    var n := Micros(ruleMax);
    assert Nanos(ruleMax) == MICRO * n;
    WindowsBoundedExactly(RequestedDuration(seconds), ruleMax, maxTtl);
  }

  function Micros(iv: Interval): int
  {
    iv.months * 30 * 86400 * 1_000_000 + iv.days * 86400 * 1_000_000 + iv.micros
  }

  /** Whole seconds alone are not enough: this cap wraps to 512 nanoseconds and turns into a one-minute
      window under a thirty-second server limit. */
  const WRAPPING_CAP := Interval(true, 0, 0, 793_209_995_169_510_720)

  lemma WrappedCapOverruns()
    ensures Fits(WRAPPING_CAP)
    ensures Clamp(RequestedDuration(1), WRAPPING_CAP, 30 * SECOND) == 512 &&
      Ceiling(WRAPPING_CAP, 30 * SECOND) == 30 * SECOND
    ensures VotedWindow(512) == MINUTE
  {
  }
}
