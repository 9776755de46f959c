/** Time on one clock: 64-bit counts that saturate instead of wrapping (`timer_heap.hpp`, the conversions). */
module Clock {
  import opened Wrappers

  const MAX: int := 0x7FFF_FFFF_FFFF_FFFF
  const MIN: int := -0x8000_0000_0000_0000

  predicate Fits64(x: int) { MIN <= x <= MAX }

  /** Division as the source's language does it: toward zero. */
  function Quotient(a: int, b: int): int
    requires b > 0
  {
    if a >= 0 then a / b else -(-a / b)
  }

  /** saturate_cast() from a coarser unit, `num` ticks of this clock each: the guards compare against the
      largest count that still fits, so no product is formed that could wrap. */
  function Cast(count: int, num: int): int
    requires num > 0
  {
    if count > 0 && count > Quotient(MAX, num) then MAX
    else if count < 0 && count < Quotient(MIN, num) then MIN
    else count * num
  }

  /** The guards are exact: the conversion is the true product, clamped to what 64 bits can say. */
  lemma CastClamps(count: int, num: int)
    requires num > 0
    ensures Cast(count, num) == if count * num > MAX then MAX else if count * num < MIN then MIN else count * num
    ensures Fits64(Cast(count, num))
  {
    Above(count, num);
    Below(count, num);
    Sign(count, num);
  }

  lemma Above(count: int, num: int)
    requires num > 0
    ensures count > MAX / num <==> count * num > MAX
  {
    var hi := MAX / num;
    Bracket(MAX, num);
    if count > hi { Scale(hi + 1, count, num); } else { Scale(count, hi, num); }
  }

  lemma Below(count: int, num: int)
    requires num > 0
    ensures count < -(-MIN / num) <==> count * num < MIN
  {
    var lo := -MIN / num;
    Bracket(-MIN, num);
    Opposite(lo, num);
    Opposite(lo + 1, num);
    if count < -lo { Scale(count, -lo - 1, num); } else { Scale(-lo, count, num); }
  }

  lemma Opposite(a: int, num: int)
    ensures (-a) * num == -(a * num)
  {
  }

  lemma Sign(count: int, num: int)
    requires num > 0
    ensures (count > 0 ==> count * num > 0) && (count < 0 ==> count * num < 0) && (count == 0 ==> count * num == 0)
  {
  }

  lemma Bracket(a: int, b: int)
    requires a >= 0 && b > 0
    ensures a / b * b <= a < (a / b + 1) * b
  {
  }

  lemma Scale(a: int, b: int, num: int)
    requires a <= b && num > 0
    ensures a * num <= b * num
  {
  }

  /** saturate_cast() for any ratio num/den, in lowest terms, of the unit to the clock's tick. None is signed overflow,
      which is undefined: in a guard's bound, or in the conversion itself. */
  function CastRatio(count: int, num: int, den: int): Option<int>
    requires num > 0 && den > 0
  {
    var hi, lo := Quotient(MAX, num) * den, Quotient(MIN, num) * den;
    if count > 0 && !Fits64(hi) then None
    else if count > 0 && count > hi then Some(MAX)
    else if count < 0 && !Fits64(lo) then None
    else if count < 0 && count < lo then Some(MIN)
    else if !Fits64(count * num) then None
    else Some(Quotient(count * num, den))
  }

  /** For units that are whole multiples of the tick it is the clamped product, and never overflows. */
  lemma WholeUnits(count: int, num: int)
    requires num > 0
    ensures CastRatio(count, num, 1) == Some(Cast(count, num))
  {
    CastClamps(count, num);
    Bracket(MAX, num);
    Bracket(-MIN, num);
    assert Quotient(count * num, 1) == count * num;
    Shrinks(MAX, num);
    Shrinks(-MIN, num);
  }

  lemma Shrinks(a: int, b: int)
    requires a >= 0 && b > 0
    ensures 0 <= a / b <= a
  {
    var q := a / b;
    Bracket(a, b);
    if q > 0 { Scale(1, b, q); }
    if q < 0 { Scale(q + 1, 0, b); }
  }

  /** For units finer than the tick every duration but zero overflows in the guard. */
  lemma FinerUnits(count: int, den: int)
    requires den > 1
    ensures CastRatio(count, 1, den).None? <==> count != 0
  {
    assert Quotient(MAX, 1) == MAX && Quotient(MIN, 1) == MIN;
    Scale(2, den, MAX);
    Scale(2, den, -MIN);
  }

  /** now + d, at most the last instant the clock can say. */
  function Add(now: int, d: int): int {
    if d > 0 && now > MAX - d then MAX else now + d
  }

  /** A repeating timer's period: at least one tick. */
  function Period(d: int): int { if d <= 0 then 1 else d }

  /** The deadline after one that was due at `when` and is collected at `now`. */
  function Rearm(when: int, period: int, now: int): int {
    var next := Add(when, period);
    if next > now then next else Add(now, period)
  }

  // ── phase ──

  /** The deadlines of a repeating timer polled at `polls`: each poll that finds it due re-arms it. */
  function DeadlineAfter(first: int, period: int, polls: seq<int>): int {
    if polls == [] then first
    else Rearm(DeadlineAfter(first, period, polls[..|polls| - 1]), period, polls[|polls| - 1])
  }

  /** The k-th poll finds the timer due and comes less than a period late. */
  ghost predicate Prompt(first: int, period: int, polls: seq<int>) {
    forall k :: 0 <= k < |polls| ==>
      DeadlineAfter(first, period, polls[..k]) <= polls[k] < DeadlineAfter(first, period, polls[..k]) + period
  }

  /** Polled less than a period late every time, the n-th deadline is first + n periods, however late each
      single poll was: lateness never adds up. */
  lemma {:induction false} PhaseKept(first: int, period: int, polls: seq<int>)
    requires period > 0 && Prompt(first, period, polls) && first + |polls| * period <= MAX
    ensures DeadlineAfter(first, period, polls) == first + |polls| * period
  {
    if polls != [] {
      var n := |polls| - 1;
      var front := polls[..n];
      forall k | 0 <= k < |front|
        ensures DeadlineAfter(first, period, front[..k]) <= front[k] < DeadlineAfter(first, period, front[..k]) + period
      {
        assert front[..k] == polls[..k];
      }
      NextMultiple(first, period, n);
      PhaseKept(first, period, front);
      assert polls[..n] == front;
      var d := DeadlineAfter(first, period, front);
      assert d <= polls[n] < d + period;
    }
  }

  lemma NextMultiple(first: int, period: int, n: nat)
    ensures first + (n + 1) * period == first + n * period + period
  {
  }

  /** A re-armed timer keeps its phase exactly when the poll was less than a period late; otherwise it
      resyncs to one period from now, having fired once. */
  lemma RearmIffPrompt(when: int, period: int, now: int)
    requires period > 0 && when <= now && now + period <= MAX
    ensures now < when + period ==> Rearm(when, period, now) == when + period
    ensures now >= when + period ==> Rearm(when, period, now) == now + period
    ensures (Rearm(when, period, now) - when) == period <==> now < when + period || now == when
  {
  }

  // ── how long to wait ──

  const TICKS_PER_MS: int := 1_000_000

  /** timeout_from(): whole milliseconds, rounded up; None is "wait indefinitely". */
  function TimeoutFrom(now: int, deadline: Option<int>): (r: Option<int>)
    ensures r.None? <==> deadline.None?
  {
    if deadline.None? then None
    else if deadline.value <= now then Some(0)
    else
      var left := deadline.value - now;
      Some((left + TICKS_PER_MS - 1) / TICKS_PER_MS)
  }

  /** Waiting the timeout out always reaches the deadline, at most one millisecond late, and a timeout of
      zero means the deadline is here: the loop never spins on a timer that is not due. */
  lemma TimeoutReaches(now: int, deadline: int)
    ensures var ms := TimeoutFrom(now, Some(deadline)).value;
            && ms >= 0 && (ms == 0 <==> deadline <= now)
            && deadline <= now + ms * TICKS_PER_MS
            && (deadline > now ==> now + ms * TICKS_PER_MS < deadline + TICKS_PER_MS)
  {
  }
}
