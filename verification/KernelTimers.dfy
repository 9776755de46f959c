/** Repeating timers in the kernel, whatever the program does meanwhile: `advance` (`headless.hpp`) moves the clock from
  deadline to deadline, and messages that are folded in between may start, keep, replace and stop sources. */
module KernelTimers {
  import opened Wrappers
  import opened Messages
  import opened Sources
  import opened KernelModel
  import opened KernelInvariant
  import Clock
  import Headless

  /** A timer's deadline and period after a step that leaves it armed: only firing it moves the deadline. */
  ghost predicate Moved<Msg>(a: Action<Msg>, id: nat, now: int, t: Timer<Msg>, t': Timer<Msg>) {
    && t'.period == t.period
    && t'.when == if a == Fire(id) && t.period > 0 then Clock.Rearm(t.when, t.period, now) else t.when
  }

  lemma OpMoves<Msg>(t: Tables<Msg>, op: Op<Msg>, id: nat)
    requires id in t.timers && id < t.nextTimer && id in DoOp(t, op).timers
    ensures DoOp(t, op).timers[id].when == t.timers[id].when && DoOp(t, op).timers[id].period == t.timers[id].period
  {
  }

  lemma EffectMoves<Model, Msg>(p: Program<Model, Msg>, k: State<Model, Msg>, c: Cmd<Msg>, id: nat)
    requires k.plan == [] && id in k.t.timers && id < k.t.nextTimer && id in RunEffect(p, k, c).t.timers
    ensures RunEffect(p, k, c).t.timers[id] == k.t.timers[id]
  {
  }

  lemma StepMoves<Model, Msg>(p: Program<Model, Msg>, k: State<Model, Msg>, a: Action<Msg>, id: nat)
    requires Enabled(k, a) && id in k.t.timers && id < k.t.nextTimer && id in Next(p, k, a).t.timers
    ensures Moved(a, id, k.t.now, k.t.timers[id], Next(p, k, a).t.timers[id])
  {
    if a.Loop? && k.plan != [] { OpMoves(k.t, k.plan[0], id); }
    else if a.Loop? && k.effects != [] && k.exit.None? {
      EffectMoves(p, k.(effects := k.effects[1..]), k.effects[0], id);
    }
  }

  /** How often the timer fired between two moments. */
  function Firings<Msg>(acts: seq<Action<Msg>>, id: nat, i: nat, j: nat): nat
    requires i <= j <= |acts|
  {
    if i == j then 0 else Firings(acts, id, i, j - 1) + if acts[j - 1] == Fire(id) then 1 else 0
  }

  /** The subscription `key` is the same run, of timer `id`, from i to j. */
  ghost predicate Kept<Model, Msg>(ks: seq<State<Model, Msg>>, key: Key, id: nat, i: nat, j: nat) {
    forall n :: i <= n <= j && n < |ks| ==> HasRun(ks[n], key, id)
  }

  ghost predicate HasRun<Model, Msg>(k: State<Model, Msg>, key: Key, id: nat) {
    !k.down && key.EveryKey? && SourceSlot(key) in k.t.runs && k.t.runs[SourceSlot(key)].timer == Some(id)
  }

  /** advance() never moves the clock past a deadline. */
  ghost predicate InStep<Msg>(t: Tables<Msg>, a: Action<Msg>, id: nat) {
    a.Tick? && id in t.timers ==> a.now <= t.timers[id].when
  }

  /** The timer is armed, repeating, not overdue, and at its n-th boundary. */
  ghost predicate AtBoundary<Msg>(t: Tables<Msg>, id: nat, first: int, period: int, n: nat) {
    && id in t.timers && id < t.nextTimer && t.timers[id].period == period > 0
    && t.timers[id].when == Headless.Boundary(first, period, n) && t.now <= t.timers[id].when
  }

  lemma Armed<Model, Msg>(p: Program<Model, Msg>, ks: seq<State<Model, Msg>>, acts: seq<Action<Msg>>, n: nat,
        key: Key, id: nat)
    requires IsRun(p, ks, acts) && n < |ks| && HasRun(ks[n], key, id)
    ensures id in ks[n].t.timers && id < ks[n].t.nextTimer && ks[n].t.timers[id].period > 0
  {
    RunInv(p, ks, acts, n);
    assert RunOk(SourceSlot(key), ks[n].t.runs[SourceSlot(key)], ks[n].t.timers, ks[n].t.nextTimer);
  }

  /** What a step has done to the timer and the clock. */
  ghost predicate Link<Msg>(t: Tables<Msg>, a: Action<Msg>, t': Tables<Msg>, id: nat) {
    && id in t.timers && id in t'.timers && id < t'.nextTimer && t.now < Clock.MAX && InStep(t, a, id)
    && Moved(a, id, t.now, t.timers[id], t'.timers[id]) && t'.now == (if a.Tick? then a.now else t.now)
    && (a == Fire(id) ==> t.timers[id].when <= t.now)
  }

  lemma NowStays<Model, Msg>(p: Program<Model, Msg>, k: State<Model, Msg>, a: Action<Msg>)
    requires Enabled(k, a)
    ensures Next(p, k, a).t.now == if a.Tick? then a.now else k.t.now
  {
  }

  /** One step of a run. */
  lemma LinkAt<Model, Msg>(p: Program<Model, Msg>, ks: seq<State<Model, Msg>>, acts: seq<Action<Msg>>, key: Key,
        id: nat, n: nat)
    requires IsRun(p, ks, acts) && n < |acts| && HasRun(ks[n], key, id) && HasRun(ks[n + 1], key, id)
    requires InStep(ks[n].t, acts[n], id) && ks[n].t.now < Clock.MAX
    ensures Link(ks[n].t, acts[n], ks[n + 1].t, id)
  {
    Armed(p, ks, acts, n, key, id);
    Armed(p, ks, acts, n + 1, key, id);
    StepMoves(p, ks[n], acts[n], id);
    NowStays(p, ks[n], acts[n]);
  }

  lemma BoundaryStep<Msg>(t: Tables<Msg>, a: Action<Msg>, t': Tables<Msg>, id: nat, first: int, period: int, n: nat)
    requires Link(t, a, t', id) && AtBoundary(t, id, first, period, n)
    ensures a == Fire(id) ==> t.now == Headless.Boundary(first, period, n)
    ensures AtBoundary(t', id, first, period, n + if a == Fire(id) then 1 else 0)
  {
  }

  function Tabs<Model, Msg>(ks: seq<State<Model, Msg>>): (ts: seq<Tables<Msg>>)
    ensures |ts| == |ks|
  {
    seq(|ks|, n requires 0 <= n < |ks| => ks[n].t)
  }

  /** Each firing so far was at its boundary. */
  ghost predicate OnTime<Msg>(ts: seq<Tables<Msg>>, acts: seq<Action<Msg>>, id: nat, first: int, period: int,
        i: nat, j: nat)
    requires i <= j <= |acts| && |acts| < |ts|
  {
    i == j || (OnTime(ts, acts, id, first, period, i, j - 1)
               && (acts[j - 1] == Fire(id) ==>
                     ts[j - 1].now == Headless.Boundary(first, period, Firings(acts, id, i, j - 1))))
  }

  lemma {:induction false} Linked<Msg>(ts: seq<Tables<Msg>>, acts: seq<Action<Msg>>, id: nat, i: nat, j: nat,
        first: int, period: int)
    requires |ts| == |acts| + 1 && i <= j < |ts| && forall n :: i <= n < j ==> Link(ts[n], acts[n], ts[n + 1], id)
    requires AtBoundary(ts[i], id, first, period, 0)
    ensures AtBoundary(ts[j], id, first, period, Firings(acts, id, i, j))
    ensures OnTime(ts, acts, id, first, period, i, j)
    decreases j
  {
    if i < j {
      Linked(ts, acts, id, i, j - 1, first, period);
      assert Link(ts[j - 1], acts[j - 1], ts[j], id);
      BoundaryStep(ts[j - 1], acts[j - 1], ts[j], id, first, period, Firings(acts, id, i, j - 1));
    }
  }

  /** Along any run of the kernel in which the clock is never moved past its deadline, an `every` that each
      resubscription keeps fires at first, first + period, first + 2 periods and so on, each once and at that very
      instant, whatever its messages and everybody else's do to the program. */
  lemma EveryFiresAtBoundaries<Model, Msg>(p: Program<Model, Msg>, ks: seq<State<Model, Msg>>,
      acts: seq<Action<Msg>>, key: Key, id: nat, i: nat, j: nat, first: int, period: int)
    requires IsRun(p, ks, acts) && i <= j < |ks| && Kept(ks, key, id, i, j)
    requires forall n :: i <= n < j ==> InStep(ks[n].t, acts[n], id) && ks[n].t.now < Clock.MAX
    requires AtBoundary(ks[i].t, id, first, period, 0)
    ensures AtBoundary(ks[j].t, id, first, period, Firings(acts, id, i, j))
    ensures OnTime(Tabs(ks), acts, id, first, period, i, j)
  {
    var ts := Tabs(ks);
    forall n | i <= n < j ensures Link(ts[n], acts[n], ts[n + 1], id) {
      LinkAt(p, ks, acts, key, id, n);
    }
    Linked(ts, acts, id, i, j, first, period);
  }
}
