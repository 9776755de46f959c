/** The test host's clock (`headless.hpp`, advance()): timers fire at their own instants inside the window.

  The model is the clock and the timer heap; what a fired message does to the program is not part of it,
  so the timers of the window are the ones armed when it starts. */
module Headless {
  import opened Wrappers
  import Clock
  import opened TimerHeap

  datatype Tick = Tick(at: int, id: Id)

  /** When `id` fired, in order. */
  ghost function TimesOf(log: seq<Tick>, id: Id): seq<int> {
    if log == [] then []
    else
      var last := log[|log| - 1];
      TimesOf(log[..|log| - 1], id) + if last.id == id then [last.at] else []
  }

  ghost function Ticks(at: int, fired: seq<Id>): seq<Tick> {
    seq(|fired|, k requires 0 <= k < |fired| => Tick(at, fired[k]))
  }

  lemma {:induction false} TimesOfAppend(log: seq<Tick>, at: int, fired: seq<Id>, id: Id)
    requires forall i, j :: 0 <= i < j < |fired| ==> fired[i] != fired[j]
    ensures TimesOf(log + Ticks(at, fired), id) == TimesOf(log, id) + if id in fired then [at] else []
    decreases |fired|
  {
    var all := log + Ticks(at, fired);
    if fired == [] {
      assert all == log;
    } else {
      var front := fired[..|fired| - 1];
      assert all[..|all| - 1] == log + Ticks(at, front);
      assert all[|all| - 1] == Tick(at, fired[|fired| - 1]);
      assert fired == front + [fired[|fired| - 1]];
      TimesOfAppend(log, at, front, id);
    }
  }

  /** The instant of the n-th firing; past the end of the clock it is the end of the clock. */
  function Boundary(first: int, period: int, n: nat): int {
    if n == 0 then first else Clock.Add(Boundary(first, period, n - 1), period)
  }

  /** Below the end of the clock a boundary is first + n periods. */
  lemma {:induction false} BoundaryIsMultiple(first: int, period: int, n: nat)
    requires period > 0 && Boundary(first, period, n) < Clock.MAX
    ensures Boundary(first, period, n) == first + n * period
  {
    if n > 0 {
      BoundaryIsMultiple(first, period, n - 1);
      Clock.NextMultiple(first, period, n - 1);
    }
  }

  /** A timer that started the window as `t` fired at `times` and is now `cur`. */
  ghost predicate Ticked<P>(t: Timer<P>, times: seq<int>, timers: map<Id, Timer<P>>, id: Id) {
    && (forall k :: 0 <= k < |times| ==> times[k] == Boundary(t.when, t.period, k))
    && (t.period > 0 ==> id in timers && timers[id] == t.(when := Boundary(t.when, t.period, |times|)))
    && (t.period <= 0 ==> |times| <= 1 && (id in timers <==> times == []) && (id in timers ==> timers[id] == t))
  }

  /** Only these timers fired. */
  ghost predicate Of(log: seq<Tick>, ids: set<Id>) { forall k :: 0 <= k < |log| ==> log[k].id in ids }

  /** The whole window so far. */
  ghost predicate Window<P>(t0: map<Id, Timer<P>>, timers: map<Id, Timer<P>>, log: seq<Tick>) {
    && timers.Keys <= t0.Keys && Of(log, t0.Keys)
    && forall id :: id in t0 ==> Ticked(t0[id], TimesOf(log, id), timers, id)
  }

  lemma OfTicks<P>(log: seq<Tick>, at: int, fired: seq<Id>, timers: map<Id, Timer<P>>, now: int, ids: set<Id>)
    requires Of(log, ids) && timers.Keys <= ids && DueInOrder(timers, now, fired)
    ensures Of(log + Ticks(at, fired), ids) && Of(Ticks(at, fired) + log, ids)
  {
    forall k | 0 <= k < |fired| ensures fired[k] in ids { assert fired[k] in DueSet(timers, now); }
  }

  lemma FiredIffDue<P>(timers: map<Id, Timer<P>>, at: int, fired: seq<Id>, id: Id)
    requires DueInOrder(timers, at, fired)
    ensures id in fired <==> id in timers && timers[id].when <= at
  {
    if id in fired {
      var k :| 0 <= k < |fired| && fired[k] == id;
      assert fired[k] in DueSet(timers, at);
    }
    if id in timers && timers[id].when <= at { assert id in DueSet(timers, at); }
  }

  /** One timer through a poll at the earliest deadline. */
  lemma TickedMore<P>(t: Timer<P>, times: seq<int>, timers: map<Id, Timer<P>>, at: int, id: Id)
    requires Ticked(t, times, timers, id) && at < Clock.MAX && (id in timers ==> at <= timers[id].when)
    ensures Ticked(t, times + if id in timers && timers[id].when <= at then [at] else [], Collected(timers, at), id)
  {
    if id in timers && timers[id].when <= at {
      if t.period > 0 { RearmIsLater(timers[id].when, timers[id].period, at); }
    } else {
      assert times + [] == times;
    }
  }

  lemma FiredAt<P>(t0: map<Id, Timer<P>>, timers: map<Id, Timer<P>>, log: seq<Tick>, at: int, fired: seq<Id>)
    requires Window(t0, timers, log) && at < Clock.MAX && DueInOrder(timers, at, fired) && NotBefore(timers, at)
    ensures Window(t0, Collected(timers, at), log + Ticks(at, fired))
  {
    OfTicks(log, at, fired, timers, at, t0.Keys);
    forall id | id in t0 ensures Ticked(t0[id], TimesOf(log + Ticks(at, fired), id), Collected(timers, at), id) {
      TimesOfAppend(log, at, fired, id);
      FiredIffDue(timers, at, fired, id);
      TickedMore(t0[id], TimesOf(log, id), timers, at, id);
    }
  }

  ghost predicate NotBefore<P>(timers: map<Id, Timer<P>>, at: int) {
    forall id :: id in timers ==> at <= timers[id].when
  }

  ghost predicate Within(log: seq<Tick>, now: int, end: int) {
    forall k :: 0 <= k < |log| ==> now <= log[k].at <= end
  }

  /** advance(). What is due or overdue already fires at once, earliest first. From then on every `every` fires at each
      of its period boundaries up to the end of the window, once each and at that very instant, and at no other time; a
      one-shot fires once, at its deadline. Nothing due is left. */
  method Advance<P>(h: Heap<P>, now: int, d: int) returns (end: int, ghost late: seq<Id>, ghost log: seq<Tick>)
    requires h.Valid() && 0 <= d && now + d < Clock.MAX
    modifies h
    ensures h.Valid() && end == now + d && NotBefore(h.timers, end + 1)
    ensures DueInOrder(old(h.timers), now, late)
    ensures Window(Collected(old(h.timers), now), h.timers, log) && Within(log, now, end)
  {
    end, late := now + d, [];
    var next := h.NextDeadline();
    if next.Some? && next.value <= now {
      var out;
      out, late := h.CollectDue(now);
    } else {
      NothingDue(h.timers, now);
    }
    forall id | id in h.timers ensures now <= h.timers[id].when { assert id !in DueSet(h.timers, now); }
    log := Run(h, now, end);
  }

  lemma NothingDue<P>(timers: map<Id, Timer<P>>, now: int)
    requires forall id :: id in timers ==> timers[id].when > now
    ensures DueInOrder(timers, now, []) && DueSet(timers, now) == {} && Collected(timers, now) == timers
  {
  }

  /** The loop, once nothing is overdue. */
  method Run<P>(h: Heap<P>, now: int, end: int) returns (ghost log: seq<Tick>)
    requires h.Valid() && now <= end < Clock.MAX && NotBefore(h.timers, now)
    modifies h
    ensures h.Valid() && NotBefore(h.timers, end + 1)
    ensures Window(old(h.timers), h.timers, log) && Within(log, now, end)
  {
    log := [];
    var clock := now;
    ghost var t0, polled := h.timers, false;
    while true
      invariant h.Valid() && now <= clock <= end
      invariant Window(t0, h.timers, log) && Within(log, now, end)
      invariant NotBefore(h.timers, if polled then clock + 1 else clock)
      decreases end - clock, !polled
    {
      var next := h.NextDeadline();
      if next.None? || next.value > end {
        assert NotBefore(h.timers, end + 1);
        break;
      }
      assert NotBefore(h.timers, next.value);
      if next.value > clock { clock := next.value; }
      log := Poll(h, t0, clock, log, now, end);
      polled := true;
    }
  }

  method Poll<P>(h: Heap<P>, ghost t0: map<Id, Timer<P>>, at: int, ghost log: seq<Tick>, ghost now: int, ghost end: int)
    returns (ghost more: seq<Tick>)
    requires h.Valid() && Window(t0, h.timers, log) && now <= at <= end < Clock.MAX
    requires NotBefore(h.timers, at) && Within(log, now, end)
    modifies h
    ensures h.Valid() && Window(t0, h.timers, more)
    ensures NotBefore(h.timers, at + 1) && Within(more, now, end)
  {
    var out;
    ghost var fired;
    out, fired := h.CollectDue(at);
    FiredAt(t0, old(h.timers), log, at, fired);
    more := log + Ticks(at, fired);
    forall id | id in h.timers ensures at < h.timers[id].when {
      assert id !in DueSet(h.timers, at);
    }
  }

  lemma {:induction false} TimesWithin(log: seq<Tick>, now: int, end: int, id: Id)
    requires Within(log, now, end)
    ensures forall k :: 0 <= k < |TimesOf(log, id)| ==> now <= TimesOf(log, id)[k] <= end
  {
    if log != [] {
      var front := log[..|log| - 1];
      assert Within(front, now, end) by { assert forall k | 0 <= k < |front| :: front[k] == log[k]; }
      TimesWithin(front, now, end, id);
    }
  }

  lemma {:induction false} BoundaryGrows(first: int, period: int, n: nat, m: nat)
    requires period > 0 && first <= Clock.MAX && n <= m
    ensures Boundary(first, period, n) <= Boundary(first, period, m) <= Clock.MAX
    decreases m
  {
    if n < m { BoundaryGrows(first, period, n, m - 1); }
    else if n > 0 { BoundaryGrows(first, period, n - 1, n - 1); }
  }

  /** What `Advance` promises of one repeating timer, counted: the n-th boundary is inside the window
      exactly when there was an n-th firing. */
  lemma OncePerBoundary<P>(t0: map<Id, Timer<P>>, timers: map<Id, Timer<P>>, log: seq<Tick>, now: int, end: int,
                           id: Id, n: nat)
    requires Window(t0, timers, log) && Within(log, now, end) && NotBefore(timers, end + 1)
    requires id in t0 && t0[id].period > 0 && t0[id].when <= Clock.MAX
    ensures Boundary(t0[id].when, t0[id].period, n) <= end <==> n < |TimesOf(log, id)|
  {
    var times := TimesOf(log, id);
    TimesWithin(log, now, end, id);
    assert Ticked(t0[id], times, timers, id);
    if n < |times| { assert times[n] <= end; }
    else { BoundaryGrows(t0[id].when, t0[id].period, |times|, n); }
  }

  lemma {:induction false} TimesOfConcat(a: seq<Tick>, b: seq<Tick>, id: Id)
    ensures TimesOf(a + b, id) == TimesOf(a, id) + TimesOf(b, id)
    decreases |b|
  {
    if b == [] {
      assert a + b == a;
    } else {
      assert (a + b)[..|a + b| - 1] == a + b[..|b| - 1];
      TimesOfConcat(a, b[..|b| - 1], id);
    }
  }

  lemma {:induction false} TimesOfOthers(log: seq<Tick>, ids: set<Id>, id: Id)
    requires Of(log, ids) && id !in ids
    ensures TimesOf(log, id) == []
  {
    if log != [] {
      var front := log[..|log| - 1];
      assert Of(front, ids) by { assert forall k | 0 <= k < |front| :: front[k] == log[k]; }
      TimesOfOthers(front, ids, id);
    }
  }

  lemma {:induction false} BoundaryShift(first: int, period: int, n: nat)
    ensures Boundary(Clock.Add(first, period), period, n) == Boundary(first, period, n + 1)
  {
    if n > 0 { BoundaryShift(first, period, n - 1); }
  }

  /** One timer through the poll at `now` and the window after it. */
  lemma TickedJoin<P>(t: Timer<P>, now: int, times: seq<int>, t2: map<Id, Timer<P>>, id: Id)
    requires t.when == now < Clock.MAX && t.period > 0
    requires Ticked(t.(when := Clock.Rearm(t.when, t.period, now)), times, t2, id)
    ensures Ticked(t, [now] + times, t2, id)
  {
    BoundaryShift(now, t.period, |times|);
    var all := [now] + times;
    forall k | 0 <= k < |all| ensures all[k] == Boundary(t.when, t.period, k) {
      if k > 0 {
        assert all[k] == times[k - 1];
        BoundaryShift(now, t.period, k - 1);
      }
    }
  }

  /** If nothing was overdue when the window began, its first poll is one of the boundaries too: the whole log, the
      poll at `now` included, is a window of the timers it began with. */
  lemma WindowFromStart<P>(t0: map<Id, Timer<P>>, now: int, late: seq<Id>, t2: map<Id, Timer<P>>, log: seq<Tick>)
    requires now < Clock.MAX && NotBefore(t0, now) && DueInOrder(t0, now, late) && Window(Collected(t0, now), t2, log)
    ensures Window(t0, t2, Ticks(now, late) + log)
  {
    OfLess(log, Collected(t0, now).Keys, t0.Keys);
    OfTicks(log, now, late, t0, now, t0.Keys);
    forall id | id in t0 ensures Ticked(t0[id], TimesOf(Ticks(now, late) + log, id), t2, id) {
      TimesFromStart(t0, now, late, log, id);
      TimesJoin(t0, now, t2, log, id);
    }
  }

  lemma TimesFromStart<P>(t0: map<Id, Timer<P>>, now: int, late: seq<Id>, log: seq<Tick>, id: Id)
    requires DueInOrder(t0, now, late) && id in t0
    ensures TimesOf(Ticks(now, late) + log, id) == (if t0[id].when <= now then [now] else []) + TimesOf(log, id)
  {
    TimesOfAppend([], now, late, id);
    assert [] + Ticks(now, late) == Ticks(now, late);
    TimesOfConcat(Ticks(now, late), log, id);
    FiredIffDue(t0, now, late, id);
  }

  lemma OfLess(log: seq<Tick>, ids: set<Id>, more: set<Id>)
    requires Of(log, ids) && ids <= more
    ensures Of(log, more)
  {
  }

  lemma TimesJoin<P>(t0: map<Id, Timer<P>>, now: int, t2: map<Id, Timer<P>>, log: seq<Tick>, id: Id)
    requires now < Clock.MAX && NotBefore(t0, now) && Window(Collected(t0, now), t2, log) && id in t0
    ensures Ticked(t0[id], (if t0[id].when <= now then [now] else []) + TimesOf(log, id), t2, id)
  {
    var t1, times := Collected(t0, now), TimesOf(log, id);
    if id !in t1 {
      TimesOfOthers(log, t1.Keys, id);
    } else {
      assert Ticked(t1[id], times, t2, id);
      if t0[id].when <= now { TickedJoin(t0[id], now, times, t2, id); }
      else { assert [] + times == times; }
    }
  }
}
