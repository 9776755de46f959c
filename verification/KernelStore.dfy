/** The kernel's tables as the source keeps them: a real timer heap, a real mailbox, a real diff. Each operation is
  shown to be the machine's operation on `Tables`, so a kernel built on these parts makes runs of the machine.

  The machine numbers its timers; the heap hands out ids of slots and generations. A ghost map names the ids by those
  numbers. It can be kept as long as no slot was freed 2^32 times; everything here is stated under that condition. */
module KernelStore {
  import opened Wrappers
  import opened Messages
  import opened Sources
  import opened KernelModel
  import opened Composition
  import Clock
  import H = TimerHeap
  import M = Mailbox
  import R = Reconcile

  /** A source's or keyed task's run, with the heap's id. */
  datatype RealRun = RealRun(origin: Origin, timer: Option<H.Id>)

  ghost predicate Unwrapped(frees: seq<nat>) { forall ix :: 0 <= ix < |frees| ==> frees[ix] < H.GENERATIONS }

  /** Frees are never taken back. */
  lemma UnwrappedBefore(f: seq<nat>, f': seq<nat>, left: set<nat>)
    requires H.FreedAs(f, f', left) && Unwrapped(f')
    ensures Unwrapped(f)
  {
    forall ix | 0 <= ix < |f| ensures f[ix] < H.GENERATIONS { assert f[ix] <= f'[ix] < H.GENERATIONS; }
  }

  // ── the relation, by component ──

  ghost predicate RunShows(ours: RealRun, run: Run, name: map<H.Id, nat>) {
    && ours.origin == run.origin && (ours.timer.None? <==> run.timer.None?)
    && (ours.timer.Some? ==> ours.timer.value in name && run.timer == Some(name[ours.timer.value]))
  }

  ghost predicate RunsShow(ours: map<Slot, RealRun>, runs: map<Slot, Run>, name: map<H.Id, nat>) {
    ours.Keys == runs.Keys && forall s :: s in ours ==> RunShows(ours[s], runs[s], name)
  }

  /** Every id handed out has a number below the next. */
  ghost predicate Names(name: map<H.Id, nat>, issued: set<H.Id>, next: nat) {
    name.Keys == issued && forall id :: id in name ==> name[id] < next
  }

  ghost predicate TimersShow<Msg>(h: map<H.Id, H.Timer<Queued<Msg>>>, issued: set<H.Id>, timers: map<nat, Timer<Msg>>,
                                  next: nat, name: map<H.Id, nat>)
  {
    Named(h, timers, name) && Names(name, issued, next)
  }

  /** A timer that is not in the heap any more is not in the machine's map either. */
  lemma NamedGone<Msg>(h: map<H.Id, H.Timer<Queued<Msg>>>, t: map<nat, Timer<Msg>>, name: map<H.Id, nat>, id: H.Id)
    requires Named(h, t, name) && id in name
    ensures id in h <==> name[id] in t
  {
    if name[id] in t {
      assert Has(h, name, name[id]);
      var o :| o in h && o in name && name[o] == name[id];
    }
  }

  /** Cancelling, of a live id or a stale one. */
  lemma NamedDrop<Msg>(h: map<H.Id, H.Timer<Queued<Msg>>>, t: map<nat, Timer<Msg>>, name: map<H.Id, nat>, id: H.Id)
    requires Named(h, t, name) && id in name
    ensures Named(h - {id}, t - {name[id]}, name)
  {
    forall n | n in t - {name[id]} ensures Has(h - {id}, name, n) {
      assert Has(h, name, n);
      var o :| o in h && o in name && name[o] == n;
      assert o in h - {id};
    }
  }

  /** Arming, under the next number. */
  lemma NamedPut<Msg>(h: map<H.Id, H.Timer<Queued<Msg>>>, issued: set<H.Id>, t: map<nat, Timer<Msg>>, n: nat,
                      name: map<H.Id, nat>, id: H.Id, when: int, period: int, q: Queued<Msg>)
    requires TimersShow(h, issued, t, n, name) && id !in issued
    ensures TimersShow(h[id := H.Timer(when, period, q)], issued + {id}, t[n := Timer(when, period, q)], n + 1,
        name[id := n])
  {
    var h', t', name' := h[id := H.Timer(when, period, q)], t[n := Timer(when, period, q)], name[id := n];
    assert id !in name;
    forall m | m in t' ensures Has(h', name', m) {
      if m == n {
        assert name'[id] == n;
      } else {
        assert Has(h, name, m);
        var o :| o in h && o in name && name[o] == m;
        assert o in h' && name'[o] == m;
      }
    }
    forall o | o in h' ensures o in name' && name'[o] in t'
        && t'[name'[o]] == Timer(h'[o].when, h'[o].period, h'[o].payload) {
      if o != id { assert o in h && name[o] < n; }
    }
  }

  /** Replacing a message. */
  lemma NamedRepay<Msg>(h: map<H.Id, H.Timer<Queued<Msg>>>, t: map<nat, Timer<Msg>>, name: map<H.Id, nat>, id: H.Id,
                        q: Queued<Msg>)
    requires Named(h, t, name) && id in h
    ensures Named(h[id := h[id].(payload := q)], t[name[id] := t[name[id]].(payload := q)], name)
  {
    var h', t' := h[id := h[id].(payload := q)], t[name[id] := t[name[id]].(payload := q)];
    forall n | n in t' ensures Has(h', name, n) {
      assert Has(h, name, n);
      var o :| o in h && o in name && name[o] == n;
      assert o in h';
    }
  }

  lemma RunsDrop(ours: map<Slot, RealRun>, runs: map<Slot, Run>, name: map<H.Id, nat>, slot: Slot)
    requires RunsShow(ours, runs, name)
    ensures RunsShow(ours - {slot}, runs - {slot}, name)
  {
  }

  /** A new run; the names of older ids stand. */
  lemma RunsPut(ours: map<Slot, RealRun>, runs: map<Slot, Run>, name: map<H.Id, nat>, slot: Slot, r: RealRun, run: Run,
                name': map<H.Id, nat>)
    requires RunsShow(ours, runs, name) && RunShows(r, run, name')
    requires forall id :: id in name ==> id in name' && name'[id] == name[id]
    ensures RunsShow(ours[slot := r], runs[slot := run], name')
  {
    var ours', runs' := ours[slot := r], runs[slot := run];
    forall s | s in ours' ensures RunShows(ours'[s], runs'[s], name') {
      if s != slot { assert RunShows(ours[s], runs[s], name); }
    }
  }

  // ── the relation, as a whole ──

  /** Everything the parts hold, as values. */
  datatype Parts<+Msg> = Parts(live: set<Origin>, ours: map<Slot, RealRun>, now: int,
                               h: map<H.Id, H.Timer<Queued<Msg>>>, issued: set<H.Id>, box: Box<Msg>)

  ghost predicate Shows<Msg>(t: Tables<Msg>, c: Parts<Msg>, name: map<H.Id, nat>) {
    && t.live == c.live && t.now == c.now && t.box == c.box
    && RunsShow(c.ours, t.runs, name) && TimersShow(c.h, c.issued, t.timers, t.nextTimer, name)
  }

  function BoxRetire<Msg>(b: Box<Msg>, o: Origin): Box<Msg> { b.(live := b.live - {o}) }

  function BoxOpen<Msg>(b: Box<Msg>): Box<Msg> { b.(live := b.live + {b.last + 1}, last := b.last + 1) }

  /** The parts after a run was stopped: origin retired, timer cancelled if there is one, entry erased. */
  ghost function Stopped<Msg>(c: Parts<Msg>, slot: Slot): Parts<Msg>
    requires slot in c.ours
  {
    var run := c.ours[slot];
    c.(live := c.live - {run.origin}, box := BoxRetire(c.box, run.origin), ours := c.ours - {slot},
       h := if run.timer.Some? then c.h - {run.timer.value} else c.h)
  }

  lemma StopShows<Msg>(t: Tables<Msg>, c: Parts<Msg>, name: map<H.Id, nat>, slot: Slot)
    requires Shows(t, c, name)
    ensures Shows(StopRun(t, slot), if slot in c.ours then Stopped(c, slot) else c, name)
  {
    if slot in c.ours {
      assert RunShows(c.ours[slot], t.runs[slot], name);
      RunsDrop(c.ours, t.runs, name, slot);
      if c.ours[slot].timer.Some? { NamedDrop(c.h, t.timers, name, c.ours[slot].timer.value); }
    }
  }

  lemma LaunchShows<Msg>(t: Tables<Msg>, c: Parts<Msg>, name: map<H.Id, nat>, slot: Slot)
    requires Shows(t, c, name)
    ensures var o := c.box.last + 1;
            Shows(Launch(t, slot), c.(live := c.live + {o}, box := BoxOpen(c.box),
                ours := c.ours[slot := RealRun(o, None)]), name)
  {
    var o := c.box.last + 1;
    RunsPut(c.ours, t.runs, name, slot, RealRun(o, None), Run(o, None), name);
  }

  /** The parts after a run that is a timer was started under `id`. */
  function Launched<Msg>(c: Parts<Msg>, slot: Slot, id: H.Id, when: int, period: int, msg: Msg): Parts<Msg> {
    var o := c.box.last + 1;
    c.(live := c.live + {o}, box := BoxOpen(c.box), ours := c.ours[slot := RealRun(o, Some(id))],
       h := c.h[id := H.Timer(when, period, Queued(o, msg))], issued := c.issued + {id})
  }

  lemma LaunchTimerShows<Msg>(t: Tables<Msg>, c: Parts<Msg>, name: map<H.Id, nat>, slot: Slot, id: H.Id, when: int,
                              period: int, msg: Msg)
    requires Shows(t, c, name) && id !in c.issued
    ensures Shows(LaunchTimer(t, slot, when, period, msg), Launched(c, slot, id, when, period, msg),
        name[id := t.nextTimer])
  {
    var o, n := c.box.last + 1, t.nextTimer;
    NamedPut(c.h, c.issued, t.timers, n, name, id, when, period, Queued(o, msg));
    RunsPut(c.ours, t.runs, name, slot, RealRun(o, Some(id)), Run(o, Some(n)), name[id := n]);
  }

  lemma ArmShows<Msg>(t: Tables<Msg>, c: Parts<Msg>, name: map<H.Id, nat>, id: H.Id, delay: int, msg: Msg)
    requires Shows(t, c, name) && id !in c.issued
    ensures Shows(ArmUnkeyed(t, delay, msg),
                  c.(h := c.h[id := H.Timer(Clock.Add(c.now, delay), 0, Queued(0, msg))], issued := c.issued + {id}),
                  name[id := t.nextTimer])
  {
    var n := t.nextTimer;
    NamedPut(c.h, c.issued, t.timers, n, name, id, Clock.Add(c.now, delay), 0, Queued(0, msg));
    forall s | s in c.ours ensures RunShows(c.ours[s], t.runs[s], name[id := n]) {
      assert RunShows(c.ours[s], t.runs[s], name);
    }
  }

  /** What keeping a source does to the heap's map. */
  ghost function Kept<Msg>(c: Parts<Msg>, key: Key, leaf: Leaf<Msg>): Parts<Msg> {
    var slot := SourceSlot(key);
    if leaf.Every? && slot in c.ours && c.ours[slot].timer.Some? && c.ours[slot].timer.value in c.h then
      var id := c.ours[slot].timer.value;
      c.(h := c.h[id := c.h[id].(payload := Queued(c.ours[slot].origin, leaf.msg))])
    else c
  }

  lemma KeepShows<Msg>(t: Tables<Msg>, c: Parts<Msg>, name: map<H.Id, nat>, key: Key, leaf: Leaf<Msg>)
    requires Shows(t, c, name)
    ensures Shows(Keep(t, key, leaf), Kept(c, key, leaf), name)
  {
    var slot := SourceSlot(key);
    if leaf.Every? && slot in c.ours && c.ours[slot].timer.Some? {
      assert RunShows(c.ours[slot], t.runs[slot], name);
      var id := c.ours[slot].timer.value;
      NamedGone(c.h, t.timers, name, id);
      if id in c.h { NamedRepay(c.h, t.timers, name, id, Queued(c.ours[slot].origin, leaf.msg)); }
    }
  }

  // ── what each step of the machine does to its tables ──

  /** post_from(), accepted; a full drop_oldest mailbox evicts its oldest. */
  function Posted<Msg>(t: Tables<Msg>, q: Queued<Msg>, evict: bool): Tables<Msg> {
    var queue := if evict && t.box.queue != [] then t.box.queue[1..] else t.box.queue;
    t.(box := t.box.(queue := queue + [q]))
  }

  function Drained<Msg>(t: Tables<Msg>): Tables<Msg> { t.(box := t.box.(queue := [])) }

  function ShutDown<Msg>(t: Tables<Msg>): Tables<Msg> {
    t.(timers := map[], runs := map[], live := {}, box := t.box.(queue := [], live := {}, closed := true))
  }

  /** An effect; a keyed one stops the old run, its start is a planned operation. */
  function EffectOn<Msg>(t: Tables<Msg>, c: Cmd<Msg>): Tables<Msg> {
    match c
    case After(key, delay, msg) => if key == "" then ArmUnkeyed(t, delay, msg) else StopRun(t, TaskSlot(key))
    case Task(key) => if key == "" then t else StopRun(t, TaskSlot(key))
    case Cancel(key) => StopRun(t, TaskSlot(key))
    case _ => t
  }

  /** The tables after any step: one of the operations below, or nothing. (A fire is part of `Store.Collect`.) */
  lemma NextTables<Model, Msg>(p: Program<Model, Msg>, k: State<Model, Msg>, a: Action<Msg>)
    requires Enabled(k, a) && !a.Fire?
    ensures Next(p, k, a).t ==
            match a
            case Post(from, msg, evict) => Posted(k.t, Queued(from, msg), evict)
            case Drain => Drained(k.t)
            case Tick(now) => k.t.(now := now)
            case Shutdown => ShutDown(k.t)
            case Loop =>
              if k.plan != [] then DoOp(k.t, k.plan[0])
              else if k.effects != [] && k.exit.None? then EffectOn(k.t, k.effects[0])
              else k.t
            case _ => k.t
  {
  }

  /** Planned operations, one after the other. */
  function Performed<Msg>(t: Tables<Msg>, ops: seq<Op<Msg>>): Tables<Msg> {
    if ops == [] then t else DoOp(Performed(t, ops[..|ops| - 1]), ops[|ops| - 1])
  }

  lemma PerformedMore<Msg>(t: Tables<Msg>, ops: seq<Op<Msg>>, i: nat)
    requires i < |ops|
    ensures Performed(t, ops[..i + 1]) == DoOp(Performed(t, ops[..i]), ops[i])
  {
    assert ops[..i + 1][..i] == ops[..i];
  }

  lemma ShutShows<Msg>(t: Tables<Msg>, c: Parts<Msg>, name: map<H.Id, nat>)
    requires Shows(t, c, name)
    ensures Shows(ShutDown(t), c.(live := {}, ours := map[], h := map[],
                                  box := c.box.(queue := [], live := {}, closed := true)), name)
  {
  }

  lemma CollectShows<Model, Msg>(p: Program<Model, Msg>, k: State<Model, Msg>, c: Parts<Msg>, name: map<H.Id, nat>,
                                 fired: seq<H.Id>, out: seq<Queued<Msg>>)
    returns (ks: seq<State<Model, Msg>>, ids: seq<nat>)
    requires Shows(k.t, c, name) && Quiet(k) && k.t.now < Clock.MAX
    requires H.DueInOrder(c.h, c.now, fired) && H.Paid(c.h, fired, out)
    ensures Fires(p, ks, ids) && |ids| == |fired| && ks[0] == k
    ensures var last := ks[|fired|];
            && last == k.(pending := k.pending + out, t := last.t)
            && Shows(last.t, c.(h := H.Collected(c.h, c.now)), name)
  {
    ks, ids := CollectIsFires(p, k, c.h, name, fired, out);
  }

  // ── the parts together ──

  class Store<Msg> {
    const heap: H.Heap<Queued<Msg>>
    const box: M.Mailbox<Msg>
    var live: set<Origin>
    var ours: map<Slot, RealRun>
    var now: int
    ghost var name: map<H.Id, nat>

    ghost predicate Valid()
      reads this, heap, box
    {
      heap.Valid() && box.Valid()
    }

    ghost function Holds(): Parts<Msg>
      requires Valid()
      reads this, heap, box
    {
      Parts(live, ours, now, heap.timers, heap.issued, Box(box.q[box.head..], box.live, box.last, box.closed))
    }

    /** What the parts hold is `t`, unless a slot of the heap was freed 2^32 times. */
    ghost predicate Is(t: Tables<Msg>)
      reads this, heap, box
    {
      Valid() && (Unwrapped(heap.frees) ==> Shows(t, Holds(), name))
    }

    constructor (capacity: nat, policy: Policy, start: int)
      ensures Is(Tables({}, map[], map[], 0, start, Box([], {}, 0, false))) && fresh(heap) && fresh(box)
    {
      heap := new H.Heap<Queued<Msg>>();
      box := new M.Mailbox<Msg>(capacity, policy);
      live, ours, now, name := {}, map[], start, map[];
      new;
      assert box.q[box.head..] == [];
    }

    // ── one part at a time ──

    method NewOrigin() returns (o: Origin)
      requires Valid()
      modifies box, `live
      ensures Valid() && o == old(box.last) + 1
      ensures Holds() == old(Holds()).(live := old(live) + {o}, box := BoxOpen(old(Holds()).box))
    {
      o := box.OpenOrigin();
      live := live + {o};
    }

    method RetireOrigin(o: Origin)
      requires Valid()
      modifies box, `live
      ensures Valid()
      ensures Holds() == old(Holds()).(live := old(live) - {o}, box := BoxRetire(old(Holds()).box, o))
    {
      live := live - {o};
      box.Retire(o);
    }

    /** heap.after() */
    method PutOnce(delay: int, q: Queued<Msg>) returns (id: H.Id)
      requires Valid()
      modifies heap
      ensures Valid() && H.Call(old(heap.timers), old(heap.frees), heap.timers, heap.frees)
      ensures Unwrapped(heap.frees) ==> Unwrapped(old(heap.frees)) && id !in old(heap.issued)
      ensures Holds() == old(Holds()).(h := old(heap.timers)[id := H.Timer(Clock.Add(now, delay), 0, q)],
                                       issued := old(heap.issued) + {id})
    {
      id := heap.After(now, delay, q);
      if Unwrapped(heap.frees) { UnwrappedBefore(old(heap.frees), heap.frees, H.Left(old(heap.timers), heap.timers)); }
    }

    /** heap.every() */
    method PutEvery(interval: int, q: Queued<Msg>) returns (id: H.Id)
      requires Valid()
      modifies heap
      ensures Valid() && (Unwrapped(heap.frees) ==> Unwrapped(old(heap.frees)) && id !in old(heap.issued))
      ensures var period := Clock.Period(interval);
              Holds() == old(Holds()).(h := old(heap.timers)[id := H.Timer(Clock.Add(now, period), period, q)],
                                       issued := old(heap.issued) + {id})
    {
      id := heap.Every(now, interval, q);
      if Unwrapped(heap.frees) { UnwrappedBefore(old(heap.frees), heap.frees, H.Left(old(heap.timers), heap.timers)); }
    }

    /** heap.cancel() */
    method DropTimer(id: H.Id)
      requires Valid()
      modifies heap
      ensures Valid() && (Unwrapped(heap.frees) ==> Unwrapped(old(heap.frees)))
      ensures Holds() == old(Holds()).(h := old(heap.timers) - {id})
    {
      var ok := heap.Cancel(id);
      if Unwrapped(heap.frees) { UnwrappedBefore(old(heap.frees), heap.frees, H.Left(old(heap.timers), heap.timers)); }
    }

    /** heap.clear() */
    method DropTimers()
      requires Valid()
      modifies heap
      ensures Valid() && (Unwrapped(heap.frees) ==> Unwrapped(old(heap.frees)))
      ensures Holds() == old(Holds()).(h := map[])
    {
      heap.Clear();
      if Unwrapped(heap.frees) { UnwrappedBefore(old(heap.frees), heap.frees, H.Left(old(heap.timers), heap.timers)); }
    }

    /** mailbox.close() */
    method CloseBox()
      requires Valid()
      modifies box
      ensures Valid()
      ensures Holds() == old(Holds()).(box := old(Holds()).box.(queue := [], live := {}, closed := true))
    {
      box.Close();
      assert box.q[box.head..] == [];
    }

    /** mailbox.drain_tagged() */
    method TakeAll() returns (out: seq<Queued<Msg>>)
      requires Valid()
      modifies box
      ensures Valid() && out
              == M.With(M.Judged(old(Holds()).box.queue, old(Holds()).box.live, old(Holds()).box.last), M.Delivered)
      ensures Holds() == old(Holds()).(box := old(Holds()).box.(queue := []))
    {
      out := box.DrainTagged();
      assert box.q[box.head..] == [];
    }

    // ── one source or keyed run ──

    /** stop_keyed_task(), stop_stream() and stop_source() of a timer. The id of a keyed `after` that has fired cancels
        nothing. */
    method Stop(slot: Slot, ghost t: Tables<Msg>)
      requires Is(t)
      modifies this, heap, box
      ensures Is(StopRun(t, slot))
    {
      ghost var c := Holds();
      if Unwrapped(heap.frees) { StopShows(t, c, name, slot); }
      if slot !in ours { return; }
      var run := ours[slot];
      RetireOrigin(run.origin);
      if run.timer.Some? { DropTimer(run.timer.value); }
      ours := ours - {slot};
      assert Holds() == Stopped(c, slot);
    }

    /** start_stream() and start_keyed_task(): a fresh origin. */
    method Open(slot: Slot, ghost t: Tables<Msg>)
      requires Is(t)
      modifies this, box
      ensures Is(Launch(t, slot))
    {
      if Unwrapped(heap.frees) { LaunchShows(t, Holds(), name, slot); }
      var o := NewOrigin();
      ours := ours[slot := RealRun(o, None)];
    }

    method PutAfter(slot: Slot, delay: int, msg: Msg) returns (id: H.Id)
      requires Valid()
      modifies `live, `ours, heap, box
      ensures Valid() && (Unwrapped(heap.frees) ==> Unwrapped(old(heap.frees)) && id !in old(heap.issued))
      ensures Holds() == Launched(old(Holds()), slot, id, Clock.Add(now, delay), 0, msg)
    {
      var o := NewOrigin();
      id := PutOnce(delay, Queued(o, msg));
      ours := ours[slot := RealRun(o, Some(id))];
    }

    /** A keyed `after`. */
    method OpenAfter(slot: Slot, delay: int, msg: Msg, ghost t: Tables<Msg>)
      requires Is(t)
      modifies this, heap, box
      ensures Is(LaunchTimer(t, slot, Clock.Add(t.now, delay), 0, msg))
    {
      ghost var c := Holds();
      var id := PutAfter(slot, delay, msg);
      if Unwrapped(heap.frees) { LaunchTimerShows(t, c, name, slot, id, Clock.Add(c.now, delay), 0, msg); }
      name := name[id := t.nextTimer];
    }

    method PutSource(slot: Slot, interval: int, msg: Msg) returns (id: H.Id)
      requires Valid()
      modifies `live, `ours, heap, box
      ensures Valid() && (Unwrapped(heap.frees) ==> Unwrapped(old(heap.frees)) && id !in old(heap.issued))
      ensures var period := Clock.Period(interval);
              Holds() == Launched(old(Holds()), slot, id, Clock.Add(now, period), period, msg)
    {
      var o := NewOrigin();
      id := PutEvery(interval, Queued(o, msg));
      ours := ours[slot := RealRun(o, Some(id))];
    }

    /** start_source() of an `every`. */
    method OpenEvery(slot: Slot, interval: int, msg: Msg, ghost t: Tables<Msg>)
      requires Is(t)
      modifies this, heap, box
      ensures var period := Clock.Period(interval); Is(LaunchTimer(t, slot, Clock.Add(t.now, period), period, msg))
    {
      ghost var c, period := Holds(), Clock.Period(interval);
      var id := PutSource(slot, interval, msg);
      if Unwrapped(heap.frees) { LaunchTimerShows(t, c, name, slot, id, Clock.Add(c.now, period), period, msg); }
      name := name[id := t.nextTimer];
    }

    /** An unkeyed `after`. */
    method ArmOnce(delay: int, msg: Msg, ghost t: Tables<Msg>)
      requires Is(t)
      modifies this, heap
      ensures Is(ArmUnkeyed(t, delay, msg))
    {
      ghost var c := Holds();
      var id := PutOnce(delay, Queued(0, msg));
      if Unwrapped(heap.frees) { ArmShows(t, c, name, id, delay, msg); }
      name := name[id := t.nextTimer];
    }

    /** keep_source(). */
    method KeepSource(key: Key, leaf: Leaf<Msg>, ghost t: Tables<Msg>)
      requires Is(t)
      modifies heap
      ensures Is(Keep(t, key, leaf))
    {
      ghost var c := Holds();
      if Unwrapped(heap.frees) { KeepShows(t, c, name, key, leaf); }
      var slot := SourceSlot(key);
      if leaf.Every? && slot in ours && ours[slot].timer.Some? {
        var ok := heap.ReplacePayload(ours[slot].timer.value, Queued(ours[slot].origin, leaf.msg));
      }
      assert Holds() == Kept(c, key, leaf);
    }

    /** Any planned operation. */
    method Do(op: Op<Msg>, ghost t: Tables<Msg>)
      requires Is(t)
      modifies this, heap, box
      ensures Is(DoOp(t, op))
    {
      match op
      case StopSource(key) => if !key.HostKey? { Stop(SourceSlot(key), t); }
      case KeepSource(key, leaf) => KeepSource(key, leaf, t);
      case StartSource(key, leaf) =>
        match leaf {
          case Every(interval, msg) => OpenEvery(SourceSlot(key), interval, msg, t);
          case Stream(_) => Open(SourceSlot(key), t);
          case Host(_) =>
        }
      case StartTask(n) => Open(TaskSlot(n), t);
      case Arm(n, delay, msg) => OpenAfter(TaskSlot(n), delay, msg, t);
    }

    /** Planned operations, in order. */
    method DoAll(ops: seq<Op<Msg>>, ghost t: Tables<Msg>)
      requires Is(t)
      modifies this, heap, box
      ensures Is(Performed(t, ops))
    {
      var i := 0;
      assert ops[..0] == [];
      while i < |ops|
        invariant 0 <= i <= |ops| && Is(Performed(t, ops[..i]))
      {
        Do(ops[i], Performed(t, ops[..i]));
        PerformedMore(t, ops, i);
        i := i + 1;
      }
      assert ops[..i] == ops;
    }

    /** reconcile(): the real diff, and its stops, keeps and starts. With a diff that is safe, that is what the machine
        plans and then does. */
    method Resubscribe(diff: R.RunningSources<Msg>, leaves: seq<Leaf<Msg>>, ghost t: Tables<Msg>)
      requires Is(t) && R.Safe(diff.running, leaves)
      modifies this, heap, box, diff
      ensures diff.running == Wanted(leaves)
      ensures var d := Diff(old(diff.running), leaves);
              Is(Performed(t, StopOps(d.stop) + KeepOps(d.keep) + StartOps(d.start)))
    {
      var plan, ok := diff.Reconcile(leaves);
      DoAll(StopOps(plan.stop) + KeepOps(plan.keep) + StartOps(plan.start), t);
    }

    /** The part of interpret() that touches the tables. */
    method Effect(c: Cmd<Msg>, ghost t: Tables<Msg>)
      requires Is(t)
      modifies this, heap, box
      ensures Is(EffectOn(t, c))
    {
      match c
      case After(key, delay, msg) => if key == "" { ArmOnce(delay, msg, t); } else { Stop(TaskSlot(key), t); }
      case Task(key) => if key != "" { Stop(TaskSlot(key), t); }
      case Cancel(key) => Stop(TaskSlot(key), t);
      case _ =>
    }

    // ── the loop's other steps, and the senders' ──

    /** A sender's post; one that is refused or has to wait changes nothing. */
    method Post(q: Queued<Msg>, mayBlock: bool, ghost t: Tables<Msg>) returns (r: M.Outcome)
      requires Is(t)
      modifies box
      ensures Is(if r.Accepted? then Posted(t, q, old(box.Full())) else t)
    {
      r := box.PostFrom(q, mayBlock);
    }

    /** Everything queued, without what retired origins sent. */
    method Drain(ghost t: Tables<Msg>) returns (out: seq<Queued<Msg>>)
      requires Is(t)
      modifies box
      ensures Is(Drained(t)) && (Unwrapped(heap.frees) ==> out == Unretired(t.box, t.box.queue))
    {
      DrainIsUnretired(Holds().box, Holds().box.queue);
      out := TakeAll();
    }

    method Tick(to: int, ghost t: Tables<Msg>)
      requires Is(t)
      modifies `now
      ensures Is(t.(now := to))
    {
      now := to;
    }

    /** collect_due(): a run of the machine's fires, one per due timer. */
    method Collect<Model>(ghost p: Program<Model, Msg>, ghost k: State<Model, Msg>)
      returns (out: seq<Queued<Msg>>, ghost ks: seq<State<Model, Msg>>, ghost ids: seq<nat>)
      requires Is(k.t) && Quiet(k) && k.t.now < Clock.MAX && now < Clock.MAX
      modifies heap
      ensures Unwrapped(heap.frees) ==>
                && Fires(p, ks, ids) && ks[0] == k && ks[|ids|] == k.(pending := k.pending + out, t := ks[|ids|].t)
                && Is(ks[|ids|].t)
    {
      ghost var c, frees := Holds(), heap.frees;
      ghost var fired;
      out, fired := heap.CollectDue(now);
      ks, ids := [k], [];
      if Unwrapped(heap.frees) {
        UnwrappedBefore(frees, heap.frees, H.Left(c.h, heap.timers));
        ks, ids := CollectShows(p, k, c, name, fired, out);
      }
    }

    method Shutdown(ghost t: Tables<Msg>)
      requires Is(t)
      modifies this, heap, box
      ensures Is(ShutDown(t))
    {
      ghost var c := Holds();
      DropTimers();
      ours, live := map[], {};
      CloseBox();
      if Unwrapped(heap.frees) { ShutShows(t, c, name); }
    }
  }
}
