/** Who waits for whom: any number of threads and one loop, taking ranked locks (`capability.hpp`, `guarded.hpp`),
  posting to the loop's bounded mailbox (`mailbox.hpp`, `waits.hpp`) and joining scope helpers (`scope.hpp`). The
  wait-for graph has no cycle in any reachable state, so somebody every waiter depends on can always move. */
module WaitGraph {
  /** The rank taken last. */
  const LEAF: nat := 65535

  type Rank = r: nat | r <= LEAF

  /** A guarded object and its rank. */
  datatype Lock = Lock(id: nat, rank: Rank)

  /** One `hold`: the lock, how it is held, and the held_top it replaced. */
  datatype Hold = Hold(lock: Lock, shared: bool, prev: nat)

  datatype Pc = Running | WaitLock(want: Hold) | WaitRoom | Joining(c: nat) | Done

  /** `waiters` is the thread-local set of threads waiting on this one; `top` is its held_top. */
  datatype Thread = Thread(parent: int, waiters: set<nat>, held: seq<Hold>, top: nat, pc: Pc)

  datatype State = State(threads: seq<Thread>, loop: nat, full: bool, closed: bool)

  datatype Action =
    | Root | Spawn(t: nat)
    | BeginLock(t: nat, lock: Lock, shared: bool) | Acquire(t: nat) | Unlock(t: nat)
    | Post(t: nat, fills: bool) | BeginRoom(t: nat) | EndRoom(t: nat, fills: bool) | Drain | Close
    | BeginJoin(t: nat, c: nat) | EndJoin(t: nat) | Exit(t: nat)

  predicate Runs(s: State, t: nat) { t < |s.threads| && s.threads[t].pc.Running? }

  /** `u` holds the lock `h` wants in a way that excludes it. */
  predicate Excludes(u: Thread, h: Hold) {
    exists i :: 0 <= i < |u.held| && u.held[i].lock == h.lock && !(u.held[i].shared && h.shared)
  }

  predicate Enabled(s: State, a: Action) {
    match a
    case Root => true
    case Spawn(t) => Runs(s, t)
    case BeginLock(t, lock, _) => Runs(s, t) && s.threads[t].top < lock.rank
    case Acquire(t) => t < |s.threads| && s.threads[t].pc.WaitLock?
                       && forall u :: 0 <= u < |s.threads| ==> !Excludes(s.threads[u], s.threads[t].pc.want)
    case Unlock(t) => Runs(s, t) && s.threads[t].held != []
    case Post(t, _) => Runs(s, t) && !s.full && !s.closed
    case BeginRoom(t) => Runs(s, t) && s.full && !s.closed
                         && t != s.loop && s.loop !in s.threads[t].waiters && s.threads[t].top == 0
    case EndRoom(t, fills) => t < |s.threads| && s.threads[t].pc.WaitRoom? && (s.closed || !s.full)
        && (fills ==> !s.closed)
    case Drain => Runs(s, s.loop)
    case Close => Runs(s, s.loop)
    case BeginJoin(t, c) => Runs(s, t) && s.threads[t].held == [] && c < |s.threads| && s.threads[c].parent == t
    case EndJoin(t) => t < |s.threads| && s.threads[t].pc.Joining? && s.threads[t].pc.c < |s.threads|
                       && s.threads[s.threads[t].pc.c].pc.Done?
    case Exit(t) => Runs(s, t) && s.threads[t].held == [] && (t == s.loop ==> s.closed)
                    && forall c :: 0 <= c < |s.threads| && s.threads[c].parent == t ==> s.threads[c].pc.Done?
  }

  function Put(s: State, t: nat, th: Thread): State
    requires t < |s.threads|
  { s.(threads := s.threads[t := th]) }

  function Next(s: State, a: Action): State
    requires Enabled(s, a)
  {
    match a
    case Root => s.(threads := s.threads + [Thread(-1, {}, [], 0, Running)])
    case Spawn(t) => s.(threads := s.threads + [Thread(t, s.threads[t].waiters + {t}, [], 0, Running)])
    case BeginLock(t, lock, shared) =>
      var th := s.threads[t];
      Put(s, t, th.(top := lock.rank, pc := WaitLock(Hold(lock, shared, th.top))))
    case Acquire(t) =>
      var th := s.threads[t];
      Put(s, t, th.(held := th.held + [th.pc.want], pc := Running))
    case Unlock(t) =>
      var th := s.threads[t];
      Put(s, t, th.(held := th.held[..|th.held| - 1], top := th.held[|th.held| - 1].prev))
    case Post(t, fills) => s.(full := fills)
    case BeginRoom(t) => Put(s, t, s.threads[t].(pc := WaitRoom))
    case EndRoom(t, fills) => Put(s, t, s.threads[t].(pc := Running)).(full := s.full || fills)
    case Drain => s.(full := false)
    case Close => s.(closed := true, full := false)
    case BeginJoin(t, c) => Put(s, t, s.threads[t].(pc := Joining(c)))
    case EndJoin(t) => Put(s, t, s.threads[t].(pc := Running))
    case Exit(t) => Put(s, t, s.threads[t].(pc := Done))
  }

  /** One running thread that owns the loop; any others come from Root and Spawn. */
  predicate Init(s: State) {
    s.threads == [Thread(-1, {}, [], 0, Running)] && s.loop == 0 && !s.full && !s.closed
  }

  predicate IsRun(run: seq<State>, actions: seq<Action>) {
    && |run| == |actions| + 1 && Init(run[0])
    && forall i :: 0 <= i < |actions| ==> Enabled(run[i], actions[i]) && run[i + 1] == Next(run[i], actions[i])
  }

  // ── the wait-for graph ──

  /** t cannot go on before u does something. */
  predicate Edge(s: State, t: nat, u: nat) {
    && t < |s.threads| && u < |s.threads| && !s.threads[u].pc.Done?
    && match s.threads[t].pc
       case WaitLock(want) => Excludes(s.threads[u], want)
       case WaitRoom => s.full && !s.closed && u == s.loop
       case Joining(c) => u == c
       case _ => false
  }

  // ── what every step keeps ──

  function TopOf(held: seq<Hold>): nat { if held == [] then 0 else held[|held| - 1].lock.rank }

  /** Locks are held in strictly increasing rank, each remembering the rank below it. */
  ghost predicate Ranked(held: seq<Hold>) {
    forall i :: 0 <= i < |held| ==> held[i].prev == TopOf(held[..i]) && held[i].prev < held[i].lock.rank
  }

  ghost predicate TopOk(th: Thread) {
    && Ranked(th.held)
    && (if th.pc.WaitLock? then th.pc.want.prev == TopOf(th.held) && th.pc.want.prev < th.pc.want.lock.rank == th.top
        else th.top == TopOf(th.held))
    && (th.pc.WaitRoom? || th.pc.Joining? || th.pc.Done? ==> th.held == [])
  }

  /** A helper is waited on by its owner and by everybody who waits on the owner. */
  ghost predicate FamilyOk(th: Thread, t: nat, threads: seq<Thread>) {
    && -1 <= th.parent < t
    && (th.parent >= 0 ==> t <= |threads| && th.waiters == threads[th.parent].waiters + {th.parent})
  }

  ghost predicate WaitOk(th: Thread, t: nat, s: State) {
    && (th.pc.WaitRoom? ==> t != s.loop && s.loop !in th.waiters)
    && (th.pc.Joining? ==> th.pc.c < |s.threads| && s.threads[th.pc.c].parent == t)
    && (th.pc.Done? && t == s.loop ==> s.closed)
  }

  ghost predicate ThreadOk(s: State, t: nat) {
    t < |s.threads| && TopOk(s.threads[t]) && FamilyOk(s.threads[t], t, s.threads) && WaitOk(s.threads[t], t, s)
  }

  ghost predicate Inv(s: State) {
    s.loop < |s.threads| && forall t :: 0 <= t < |s.threads| ==> ThreadOk(s, t)
  }

  /** A thread changes its locks or its wait; its family stays. */
  lemma PutKeeps(s: State, t: nat, th: Thread, full: bool)
    requires Inv(s) && t < |s.threads| && TopOk(th) && WaitOk(th, t, s)
    requires th.parent == s.threads[t].parent && th.waiters == s.threads[t].waiters
    ensures Inv(Put(s, t, th).(full := full))
  {
    var s' := Put(s, t, th).(full := full);
    forall u | 0 <= u < |s'.threads| ensures ThreadOk(s', u) {
      assert ThreadOk(s, u);
    }
  }

  lemma GrowKeeps(s: State, th: Thread)
    requires Inv(s) && th.held == [] && th.top == 0 && th.pc.Running?
    requires -1 <= th.parent < |s.threads|
             && (th.parent >= 0 ==> th.waiters == s.threads[th.parent].waiters + {th.parent})
    ensures Inv(s.(threads := s.threads + [th]))
  {
    var s' := s.(threads := s.threads + [th]);
    forall u | 0 <= u < |s'.threads| ensures ThreadOk(s', u) {
      if u < |s.threads| { assert ThreadOk(s, u); }
    }
  }

  lemma RankedMore(held: seq<Hold>, h: Hold)
    requires Ranked(held) && h.prev == TopOf(held) && h.prev < h.lock.rank
    ensures Ranked(held + [h])
  {
    var more := held + [h];
    forall i | 0 <= i < |more| ensures more[i].prev == TopOf(more[..i]) && more[i].prev < more[i].lock.rank {
      assert more[..i] == held[..i];
    }
  }

  lemma RankedLess(held: seq<Hold>)
    requires Ranked(held) && held != []
    ensures Ranked(held[..|held| - 1]) && held[|held| - 1].prev == TopOf(held[..|held| - 1])
  {
    var less := held[..|held| - 1];
    forall i | 0 <= i < |less| ensures less[i].prev == TopOf(less[..i]) && less[i].prev < less[i].lock.rank {
      assert less[..i] == held[..i];
    }
  }

  lemma BeginLockKeeps(s: State, t: nat, lock: Lock, shared: bool)
    requires Inv(s) && Enabled(s, BeginLock(t, lock, shared))
    ensures Inv(Next(s, BeginLock(t, lock, shared)))
  {
    var th := s.threads[t];
    assert ThreadOk(s, t);
    PutKeeps(s, t, th.(top := lock.rank, pc := WaitLock(Hold(lock, shared, th.top))), s.full);
  }

  lemma AcquireKeeps(s: State, t: nat)
    requires Inv(s) && Enabled(s, Acquire(t))
    ensures Inv(Next(s, Acquire(t)))
  {
    var th := s.threads[t];
    assert ThreadOk(s, t);
    RankedMore(th.held, th.pc.want);
    PutKeeps(s, t, th.(held := th.held + [th.pc.want], pc := Running), s.full);
  }

  lemma UnlockKeeps(s: State, t: nat)
    requires Inv(s) && Enabled(s, Unlock(t))
    ensures Inv(Next(s, Unlock(t)))
  {
    var th := s.threads[t];
    assert ThreadOk(s, t);
    RankedLess(th.held);
    PutKeeps(s, t, th.(held := th.held[..|th.held| - 1], top := th.held[|th.held| - 1].prev), s.full);
  }

  /** A wait begins or ends, with no lock held. */
  lemma WaitKeeps(s: State, a: Action)
    requires Inv(s) && Enabled(s, a) && (a.BeginRoom? || a.EndRoom? || a.BeginJoin? || a.EndJoin? || a.Exit?)
    ensures Inv(Next(s, a))
  {
    var th := s.threads[a.t];
    assert ThreadOk(s, a.t);
    TopZero(th.held);
    match a
    case BeginRoom(t) => PutKeeps(s, t, th.(pc := WaitRoom), s.full);
    case EndRoom(t, fills) => PutKeeps(s, t, th.(pc := Running), s.full || fills);
    case BeginJoin(t, c) => PutKeeps(s, t, th.(pc := Joining(c)), s.full);
    case EndJoin(t) => PutKeeps(s, t, th.(pc := Running), s.full);
    case Exit(t) => PutKeeps(s, t, th.(pc := Done), s.full);
  }

  lemma NextKeeps(s: State, a: Action)
    requires Inv(s) && Enabled(s, a)
    ensures Inv(Next(s, a))
  {
    match a
    case Root => GrowKeeps(s, Thread(-1, {}, [], 0, Running));
    case Spawn(t) => GrowKeeps(s, Thread(t, s.threads[t].waiters + {t}, [], 0, Running));
    case BeginLock(t, lock, shared) => BeginLockKeeps(s, t, lock, shared);
    case Acquire(t) => AcquireKeeps(s, t);
    case Unlock(t) => UnlockKeeps(s, t);
    case Post(_, _) => RoomKeeps(s, a);
    case Drain => RoomKeeps(s, a);
    case Close => RoomKeeps(s, a);
    case _ => WaitKeeps(s, a);
  }

  lemma TopZero(held: seq<Hold>)
    requires Ranked(held)
    ensures TopOf(held) == 0 <==> held == []
  {
    if held != [] { assert held[|held| - 1].prev < held[|held| - 1].lock.rank; }
  }

  lemma RoomKeeps(s: State, a: Action)
    requires Inv(s) && Enabled(s, a) && (a.Post? || a.Drain? || a.Close?)
    ensures Inv(Next(s, a))
  {
    var s' := Next(s, a);
    forall u | 0 <= u < |s'.threads| ensures ThreadOk(s', u) { assert ThreadOk(s, u); }
  }

  lemma {:induction false} RunInv(run: seq<State>, actions: seq<Action>, n: nat)
    requires IsRun(run, actions) && n < |run|
    ensures Inv(run[n])
  {
    if n == 0 { assert Ranked([]); }
    else {
      RunInv(run, actions, n - 1);
      NextKeeps(run[n - 1], actions[n - 1]);
    }
  }

  // ── no cycle ──

  datatype Measure = Measure(kind: nat, n: nat)

  predicate Less(a: Measure, b: Measure) { a.kind < b.kind || (a.kind == b.kind && a.n < b.n) }

  /** Lock waits come last, by rank; before them joins below the loop, then room waits, then all other joins. */
  function MeasureOf(s: State, t: nat): Measure
    requires t < |s.threads|
  {
    var th := s.threads[t];
    match th.pc
    case WaitLock(want) => Measure(1, LEAF - want.lock.rank)
    case Joining(_) => Measure(if t == s.loop || s.loop in th.waiters then 2 else 4, |s.threads| - t)
    case WaitRoom => Measure(3, 0)
    case _ => Measure(0, 0)
  }

  /** No held lock is ranked above held_top. */
  lemma {:induction false} TopIsMost(held: seq<Hold>, i: nat)
    requires Ranked(held) && i < |held|
    ensures held[i].lock.rank <= TopOf(held)
    decreases |held|
  {
    if i < |held| - 1 {
      RankedLess(held);
      assert held[|held| - 1].prev < held[|held| - 1].lock.rank;
      TopIsMost(held[..|held| - 1], i);
    }
  }

  lemma EdgeDecreases(s: State, t: nat, u: nat)
    requires Inv(s) && Edge(s, t, u)
    ensures Less(MeasureOf(s, u), MeasureOf(s, t))
  {
    assert ThreadOk(s, t) && ThreadOk(s, u);
    var th, uh := s.threads[t], s.threads[u];
    if th.pc.WaitLock? {
      var i :| 0 <= i < |uh.held| && uh.held[i].lock == th.pc.want.lock;
      TopIsMost(uh.held, i);
    }
  }

  /** A chain of waits. */
  predicate Chain(s: State, path: seq<nat>) {
    path != [] && forall i :: 0 <= i < |path| - 1 ==> Edge(s, path[i], path[i + 1])
  }

  lemma {:induction false} ChainDecreases(s: State, path: seq<nat>, n: nat)
    requires Inv(s) && Chain(s, path) && 0 < n < |path|
    ensures path[0] < |s.threads| && path[n] < |s.threads| && Less(MeasureOf(s, path[n]), MeasureOf(s, path[0]))
  {
    assert Edge(s, path[n - 1], path[n]);
    EdgeDecreases(s, path[n - 1], path[n]);
    if n > 1 { ChainDecreases(s, path, n - 1); }
  }

  /** In every reachable state no chain of waits comes back to where it began. */
  lemma NoCycle(run: seq<State>, actions: seq<Action>, n: nat, path: seq<nat>)
    requires IsRun(run, actions) && n < |run| && Chain(run[n], path) && |path| > 1
    ensures path[|path| - 1] != path[0]
  {
    RunInv(run, actions, n);
    ChainDecreases(run[n], path, |path| - 1);
  }

  // ── no deadlock ──

  ghost predicate Blocked(s: State, t: nat) { exists u: nat :: Edge(s, t, u) }

  /** A waiting thread that no edge leaves can end its wait by itself. */
  lemma UnblockedCanGoOn(s: State, t: nat) returns (a: Action)
    requires Inv(s) && t < |s.threads| && !Blocked(s, t)
    requires s.threads[t].pc.WaitLock? || s.threads[t].pc.WaitRoom? || s.threads[t].pc.Joining?
    ensures Enabled(s, a) && (a == Acquire(t) || a == EndRoom(t, false) || a == EndJoin(t))
  {
    assert ThreadOk(s, t);
    match s.threads[t].pc
    case WaitLock(want) =>
      a := Acquire(t);
      forall u | 0 <= u < |s.threads| ensures !Excludes(s.threads[u], want) {
        assert ThreadOk(s, u);
        assert !Edge(s, t, u);
      }
    case WaitRoom =>
      a := EndRoom(t, false);
      assert !Edge(s, t, s.loop);
      assert ThreadOk(s, s.loop);
    case Joining(c) =>
      a := EndJoin(t);
      assert !Edge(s, t, c);
  }

  /** A chain one wait longer at the front. */
  lemma ChainMore(s: State, t: nat, path: seq<nat>)
    requires Chain(s, path) && Edge(s, t, path[0])
    ensures Chain(s, [t] + path)
  {
    var more := [t] + path;
    forall i | 0 <= i < |more| - 1 ensures Edge(s, more[i], more[i + 1]) {
      if i > 0 { assert Edge(s, path[i - 1], path[i]); }
    }
  }

  /** From every thread the waits lead to one that is not blocked. */
  lemma {:induction false} EndsUnblocked(s: State, t: nat) returns (path: seq<nat>)
    requires Inv(s) && t < |s.threads| && !s.threads[t].pc.Done?
    ensures Chain(s, path) && path[0] == t && path[|path| - 1] < |s.threads|
    ensures !Blocked(s, path[|path| - 1]) && !s.threads[path[|path| - 1]].pc.Done?
    decreases MeasureOf(s, t).kind, MeasureOf(s, t).n
  {
    path := [t];
    if Blocked(s, t) {
      var u: nat :| Edge(s, t, u);
      EdgeDecreases(s, t, u);
      var rest := EndsUnblocked(s, u);
      ChainMore(s, t, rest);
      path := [t] + rest;
    }
  }

  /** In every reachable state, whoever is not done waits, through some chain, on a thread that runs or that can end
      its own wait right now. */
  lemma NoDeadlock(run: seq<State>, actions: seq<Action>, n: nat, t: nat) returns (path: seq<nat>, a: Action)
    requires IsRun(run, actions) && n < |run| && t < |run[n].threads| && !run[n].threads[t].pc.Done?
    ensures Chain(run[n], path) && path[0] == t && path[|path| - 1] < |run[n].threads|
    ensures var last := path[|path| - 1];
            run[n].threads[last].pc.Running?
            || (Enabled(run[n], a) && (a == Acquire(last) || a == EndRoom(last, false) || a == EndJoin(last)))
  {
    RunInv(run, actions, n);
    path := EndsUnblocked(run[n], t);
    a := Root;
    if !run[n].threads[path[|path| - 1]].pc.Running? { a := UnblockedCanGoOn(run[n], path[|path| - 1]); }
  }
}
