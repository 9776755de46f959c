/** What every step of the kernel keeps, in every interleaving with senders. */
module KernelInvariant {
  import opened Wrappers
  import opened Messages
  import opened Sources
  import opened KernelModel
  import Clock

  // ── the invariant ──

  ghost function Origins(runs: map<Slot, Run>): set<Origin> {
    set s | s in runs :: runs[s].origin
  }

  /** No two runs share an origin or a timer. */
  ghost predicate Separate(runs: map<Slot, Run>) {
    && (forall s, t :: s in runs && t in runs && s != t ==> runs[s].origin != runs[t].origin)
    && (forall s, t :: s in runs && t in runs && s != t && runs[s].timer.Some? ==> runs[s].timer != runs[t].timer)
  }

  /** `live_origins_` is the disjoint union of the origins in the tables, and is the mailbox's `live_`. */
  ghost predicate Tied<Msg>(live: set<Origin>, runs: map<Slot, Run>, box: Box<Msg>) {
    && live == Origins(runs)
    && Separate(runs)
    && (forall s :: s in runs ==> 1 <= runs[s].origin <= box.last)
    && box.live == live
  }

  ghost predicate OriginsOk<Msg>(t: Tables<Msg>) { Tied(t.live, t.runs, t.box) }

  /** A queued message names an origin that was handed out. */
  ghost predicate Issued<Msg>(qs: seq<Queued<Msg>>, last: Origin) {
    forall i :: 0 <= i < |qs| ==> qs[i].from <= last
  }

  ghost predicate QueuesOk<Model, Msg>(k: State<Model, Msg>) {
    && Issued(k.t.box.queue, k.t.box.last) && Issued(k.pending, k.t.box.last) && Issued(k.batch, k.t.box.last)
    && (!k.folding ==> k.effects == [] && k.batch == [])
  }

  /** Some run owns timer `id`, and the timer's message carries that run's origin. */
  ghost predicate Owned(runs: map<Slot, Run>, id: nat, from: Origin) {
    exists s :: s in runs && runs[s] == Run(from, Some(id))
  }

  /** An armed timer is unkeyed or belongs to a current run; a run's timer sends as that run; a running
      `every` has a repeating timer in the heap. */
  ghost predicate Timed<Msg>(runs: map<Slot, Run>, timers: map<nat, Timer<Msg>>, next: nat) {
    && (forall id :: id in timers ==>
          id < next && (timers[id].payload.from == 0 || Owned(runs, id, timers[id].payload.from)))
    && (forall s :: s in runs ==> RunOk(s, runs[s], timers, next))
  }

  ghost predicate RunOk<Msg>(s: Slot, run: Run, timers: map<nat, Timer<Msg>>, next: nat) {
    && (run.timer.Some? ==> run.timer.value < next)
    && (run.timer.Some? && run.timer.value in timers ==> timers[run.timer.value].payload.from == run.origin)
    && (s.SourceSlot? ==> !s.key.HostKey?)
    && (s.SourceSlot? && s.key.EveryKey? ==>
          run.timer.Some? && run.timer.value in timers && timers[run.timer.value].period > 0)
  }

  ghost predicate TimersOk<Msg>(t: Tables<Msg>) { Timed(t.runs, t.timers, t.nextTimer) }

  /** The table's slots after one planned operation. */
  ghost function SlotsAfter<Msg>(slots: set<Slot>, op: Op<Msg>): set<Slot> {
    match op
    case StopSource(key) => slots - {SourceSlot(key)}
    case KeepSource(_, _) => slots
    case StartSource(key, _) => if key.HostKey? then slots else slots + {SourceSlot(key)}
    case StartTask(name) => slots + {TaskSlot(name)}
    case Arm(name, _, _) => slots + {TaskSlot(name)}
  }

  /** A start finds its slot free. */
  ghost predicate OpOk<Msg>(slots: set<Slot>, op: Op<Msg>) {
    match op
    case StopSource(_) => true
    case KeepSource(key, leaf) => true
    case StartSource(key, leaf) => SourceSlot(key) !in slots && KeyFits(key, leaf)
    case StartTask(name) => TaskSlot(name) !in slots
    case Arm(name, _, _) => TaskSlot(name) !in slots
  }

  ghost predicate PlanOk<Msg>(slots: set<Slot>, plan: seq<Op<Msg>>)
    decreases |plan|
  {
    plan == [] || (OpOk(slots, plan[0]) && PlanOk(SlotsAfter(slots, plan[0]), plan[1..]))
  }

  ghost function AfterPlan<Msg>(slots: set<Slot>, plan: seq<Op<Msg>>): set<Slot>
    decreases |plan|
  {
    if plan == [] then slots else AfterPlan(SlotsAfter(slots, plan[0]), plan[1..])
  }

  /** The slots a wanted list fills: host sources have no entry of the kernel's own. */
  ghost function SourceSlots(keys: set<Key>): set<Slot> {
    set key | key in keys && !key.HostKey? :: SourceSlot(key)
  }

  ghost function OnlySources(slots: set<Slot>): set<Slot> {
    set s | s in slots && s.SourceSlot?
  }

  /** What is left of the plan leads from the table to the running set, which is the model's wanted set
      unless the model changed since. */
  ghost predicate Planned<Model, Msg>(p: Program<Model, Msg>, model: Model, dirty: bool, running: seq<Entry<Msg>>,
                                      slots: set<Slot>, plan: seq<Op<Msg>>)
  {
    && PlanOk(slots, plan)
    && OnlySources(AfterPlan(slots, plan)) == SourceSlots(KeySet(running))
    && Distinct(running)
    && (!dirty ==> running == Wanted(p.subscribe(model)))
  }

  ghost predicate SubsOk<Model, Msg>(p: Program<Model, Msg>, k: State<Model, Msg>) {
    Planned(p, k.model, k.dirty, k.running, k.t.runs.Keys, k.plan)
  }

  /** The whole invariant, until shutdown. */
  ghost predicate Inv<Model, Msg>(p: Program<Model, Msg>, k: State<Model, Msg>) {
    k.down || (OriginsOk(k.t) && QueuesOk(k) && TimersOk(k.t) && SubsOk(p, k))
  }

  // ── one run ──

  lemma OriginsWithout(runs: map<Slot, Run>, slot: Slot)
    requires Separate(runs) && slot in runs
    ensures Origins(runs - {slot}) == Origins(runs) - {runs[slot].origin}
    ensures Separate(runs - {slot})
  {
    var r := runs - {slot};
    forall o | o in Origins(runs) - {runs[slot].origin} ensures o in Origins(r) {
      var s :| s in runs && runs[s].origin == o;
      assert s in r && r[s].origin == o;
    }
    forall o | o in Origins(r) ensures o in Origins(runs) - {runs[slot].origin} {
      var s :| s in r && r[s].origin == o;
      assert s in runs && runs[s].origin == o;
    }
  }

  lemma OriginsWith(runs: map<Slot, Run>, slot: Slot, run: Run)
    requires Separate(runs) && slot !in runs
    requires run.origin !in Origins(runs)
    requires run.timer.Some? ==> forall s :: s in runs ==> runs[s].timer != run.timer
    ensures Origins(runs[slot := run]) == Origins(runs) + {run.origin}
    ensures Separate(runs[slot := run])
  {
    var r := runs[slot := run];
    forall s | s in runs ensures r[s] == runs[s] && r[s].origin in Origins(runs) {}
    assert r[slot] == run;
    forall o | o in Origins(runs) + {run.origin} ensures o in Origins(r) {
      if o == run.origin { assert r[slot].origin == o; }
      else { var s :| s in runs && runs[s].origin == o; assert s in r && r[s].origin == o; }
    }
  }

  lemma StopRunKeeps<Msg>(k: Tables<Msg>, slot: Slot)
    requires OriginsOk(k) && TimersOk(k)
    ensures var n := StopRun(k, slot); OriginsOk(n) && TimersOk(n) && n.runs.Keys == k.runs.Keys - {slot}
  {
    if slot in k.runs {
      var n := StopRun(k, slot);
      OriginsWithout(k.runs, slot);
      forall id | id in n.timers && n.timers[id].payload.from != 0
        ensures Owned(n.runs, id, n.timers[id].payload.from)
      {
        var s :| s in k.runs && k.runs[s] == Run(k.timers[id].payload.from, Some(id));
        assert s != slot;
        assert s in n.runs && n.runs[s] == k.runs[s];
      }
    }
  }

  lemma LaunchKeeps<Msg>(k: Tables<Msg>, slot: Slot)
    requires OriginsOk(k) && TimersOk(k) && slot !in k.runs
    requires slot.SourceSlot? ==> slot.key.StreamKey?
    ensures var n := Launch(k, slot); OriginsOk(n) && TimersOk(n) && n.runs.Keys == k.runs.Keys + {slot}
  {
    var n := Launch(k, slot);
    OriginsWith(k.runs, slot, n.runs[slot]);
    forall id | id in n.timers && n.timers[id].payload.from != 0
      ensures Owned(n.runs, id, n.timers[id].payload.from)
    {
      var s :| s in k.runs && k.runs[s] == Run(k.timers[id].payload.from, Some(id));
      assert s in n.runs && n.runs[s] == k.runs[s];
    }
    forall s | s in n.runs ensures RunOk(s, n.runs[s], n.timers, n.nextTimer) {
      if s in k.runs { assert RunOk(s, k.runs[s], k.timers, k.nextTimer); }
    }
  }

  lemma LaunchTimerKeeps<Msg>(k: Tables<Msg>, slot: Slot, when: int, period: int, msg: Msg)
    requires OriginsOk(k) && TimersOk(k) && slot !in k.runs
    requires slot.SourceSlot? ==> slot.key.EveryKey? && period > 0
    ensures var n := LaunchTimer(k, slot, when, period, msg);
            OriginsOk(n) && TimersOk(n) && n.runs.Keys == k.runs.Keys + {slot}
  {
    var n := LaunchTimer(k, slot, when, period, msg);
    OriginsWith(k.runs, slot, n.runs[slot]);
    forall id | id in n.timers && n.timers[id].payload.from != 0
      ensures Owned(n.runs, id, n.timers[id].payload.from)
    {
      if id == k.nextTimer {
        assert slot in n.runs && n.runs[slot] == Run(n.timers[id].payload.from, Some(id));
      } else {
        var s :| s in k.runs && k.runs[s] == Run(k.timers[id].payload.from, Some(id));
        assert s in n.runs && n.runs[s] == k.runs[s];
      }
    }
    forall s | s in n.runs ensures RunOk(s, n.runs[s], n.timers, n.nextTimer) {
      if s in k.runs { assert RunOk(s, k.runs[s], k.timers, k.nextTimer); }
    }
  }

  lemma KeepKeeps<Msg>(k: Tables<Msg>, key: Key, leaf: Leaf<Msg>)
    requires OriginsOk(k) && TimersOk(k)
    ensures var n := Keep(k, key, leaf); OriginsOk(n) && TimersOk(n) && n.runs == k.runs
  {
    var n := Keep(k, key, leaf);
    forall id | id in n.timers && n.timers[id].payload.from != 0
      ensures Owned(n.runs, id, n.timers[id].payload.from)
    {
      if n.timers[id] != k.timers[id] {
        assert k.runs[SourceSlot(key)] == Run(n.timers[id].payload.from, Some(id));
      }
    }
    forall s | s in n.runs ensures RunOk(s, n.runs[s], n.timers, n.nextTimer) {
      if s in k.runs { assert RunOk(s, k.runs[s], k.timers, k.nextTimer); }
    }
  }

  // ── one planned operation ──

  lemma OpKeeps<Msg>(k: Tables<Msg>, op: Op<Msg>)
    requires OriginsOk(k) && TimersOk(k) && OpOk(k.runs.Keys, op)
    ensures var n := DoOp(k, op); OriginsOk(n) && TimersOk(n) && n.runs.Keys == SlotsAfter(k.runs.Keys, op)
  {
    match op
    case StopSource(key) => if !key.HostKey? { StopRunKeeps(k, SourceSlot(key)); }
    case KeepSource(key, leaf) => KeepKeeps(k, key, leaf);
    case StartSource(key, leaf) => StartKeeps(k, key, leaf);
    case StartTask(name) => LaunchKeeps(k, TaskSlot(name));
    case Arm(name, delay, msg) => LaunchTimerKeeps(k, TaskSlot(name), Clock.Add(k.now, delay), 0, msg);
  }

  lemma StartKeeps<Msg>(k: Tables<Msg>, key: Key, leaf: Leaf<Msg>)
    requires OriginsOk(k) && TimersOk(k) && SourceSlot(key) !in k.runs && KeyFits(key, leaf)
    ensures var op := StartSource(key, leaf); var n := DoOp(k, op);
            OriginsOk(n) && TimersOk(n) && n.runs.Keys == SlotsAfter(k.runs.Keys, op)
  {
    match leaf
    case Every(interval, msg) =>
      var period := Clock.Period(interval);
      LaunchTimerKeeps(k, SourceSlot(key), Clock.Add(k.now, period), period, msg);
    case Stream(_) => LaunchKeeps(k, SourceSlot(key));
    case Host(_) =>
  }

  // ── a resubscription ──

  lemma {:induction false} StopsPlan<Msg>(slots: set<Slot>, keys: seq<Key>, rest: seq<Op<Msg>>)
    requires PlanOk(slots - SlotsOf(keys), rest)
    ensures PlanOk(slots, StopOps(keys) + rest)
    ensures AfterPlan(slots, StopOps(keys) + rest) == AfterPlan(slots - SlotsOf(keys), rest)
    decreases |keys|
  {
    var plan := StopOps<Msg>(keys) + rest;
    if keys == [] {
      assert plan == rest && slots - SlotsOf(keys) == slots;
    } else {
      assert plan[1..] == StopOps(keys[1..]) + rest;
      assert SlotsOf(keys) == {SourceSlot(keys[0])} + SlotsOf(keys[1..]);
      assert (slots - {SourceSlot(keys[0])}) - SlotsOf(keys[1..]) == slots - SlotsOf(keys);
      StopsPlan(slots - {SourceSlot(keys[0])}, keys[1..], rest);
    }
  }

  ghost function SlotsOf(keys: seq<Key>): set<Slot> {
    set i | 0 <= i < |keys| :: SourceSlot(keys[i])
  }

  lemma {:induction false} KeepsPlan<Msg>(slots: set<Slot>, es: seq<Entry<Msg>>, rest: seq<Op<Msg>>)
    requires PlanOk(slots, rest)
    ensures PlanOk(slots, KeepOps(es) + rest)
    ensures AfterPlan(slots, KeepOps(es) + rest) == AfterPlan(slots, rest)
    decreases |es|
  {
    var plan := KeepOps(es) + rest;
    if es == [] {
      assert plan == rest;
    } else {
      assert plan[1..] == KeepOps(es[1..]) + rest;
      KeepsPlan(slots, es[1..], rest);
    }
  }

  lemma {:induction false} StartsPlan<Msg>(slots: set<Slot>, es: seq<Entry<Msg>>)
    requires Distinct(es)
    requires forall i :: 0 <= i < |es| ==> SourceSlot(es[i].key) !in slots && KeyFits(es[i].key, es[i].leaf)
    ensures PlanOk(slots, StartOps(es))
    ensures AfterPlan(slots, StartOps(es)) == slots + SourceSlots(KeySet(es))
    decreases |es|
  {
    if es != [] {
      var plan, tail := StartOps(es), es[1..];
      assert plan[1..] == StartOps(tail);
      assert es == [es[0]] + tail;
      assert KeySet(es) == {es[0].key} + KeySet(tail) by {
        forall k | k in KeySet(tail) ensures k in KeySet(es) {
          var i :| 0 <= i < |tail| && tail[i].key == k;
          assert es[i + 1].key == k;
        }
        forall k | k in KeySet(es) ensures k in {es[0].key} + KeySet(tail) {
          var i :| 0 <= i < |es| && es[i].key == k;
          if i > 0 { assert tail[i - 1].key == k; }
        }
      }
      StartsPlan(SlotsAfter(slots, plan[0]), tail);
    }
  }

  lemma {:induction false} WantedFit<Msg>(leaves: seq<Leaf<Msg>>)
    ensures forall i :: 0 <= i < |Wanted(leaves)| ==> KeyFits(Wanted(leaves)[i].key, Wanted(leaves)[i].leaf)
  {
    if leaves != [] { WantedFit(leaves[..|leaves| - 1]); }
  }

  lemma SlotsOfKeys<Msg>(es: seq<Entry<Msg>>)
    ensures forall s :: s in SlotsOf(KeysOf(es)) <==> s.SourceSlot? && s.key in KeySet(es)
  {
    var keys := KeysOf(es);
    forall s: Slot | s.SourceSlot? && s.key in KeySet(es) ensures s in SlotsOf(keys) {
      var i :| 0 <= i < |es| && es[i].key == s.key;
      assert s == SourceSlot(keys[i]);
    }
  }

  /** The operations of one diff lead from the running sources to the wanted ones, each start finding its
      slot free. */
  lemma DiffPlan<Msg>(slots: set<Slot>, running: seq<Entry<Msg>>, leaves: seq<Leaf<Msg>>)
    requires OnlySources(slots) == SourceSlots(KeySet(running))
    ensures var d := Diff(running, leaves);
            var plan := StopOps(d.stop) + KeepOps(d.keep) + StartOps(d.start);
            PlanOk(slots, plan) && OnlySources(AfterPlan(slots, plan)) == SourceSlots(KeySet(Wanted(leaves)))
  {
    var want, d := Wanted(leaves), Diff(running, leaves);
    var left := slots - SlotsOf(d.stop);
    var starts := StartOps(d.start);
    forall i | 0 <= i < |d.start|
      ensures SourceSlot(d.start[i].key) !in left && KeyFits(d.start[i].key, d.start[i].leaf)
    {
      FreeStart(slots, running, leaves, i);
    }
    StartsPlan(left, d.start);
    KeepsPlan(left, d.keep, starts);
    StopsPlan(slots, d.stop, KeepOps(d.keep) + starts);
    assert StopOps<Msg>(d.stop) + KeepOps(d.keep) + starts == StopOps<Msg>(d.stop) + (KeepOps(d.keep) + starts);
    SlotsMeet(slots, running, want);
  }

  lemma FreeStart<Msg>(slots: set<Slot>, running: seq<Entry<Msg>>, leaves: seq<Leaf<Msg>>, i: nat)
    requires OnlySources(slots) == SourceSlots(KeySet(running))
    requires i < |Diff(running, leaves).start|
    ensures var e := Diff(running, leaves).start[i]; SourceSlot(e.key) !in slots && KeyFits(e.key, e.leaf)
  {
    WantedFit(leaves);
    var e := Diff(running, leaves).start[i];
    assert e in Wanted(leaves);
    assert SourceSlot(e.key) !in SourceSlots(KeySet(running));
  }

  lemma SlotsMeet<Msg>(slots: set<Slot>, running: seq<Entry<Msg>>, want: seq<Entry<Msg>>)
    requires OnlySources(slots) == SourceSlots(KeySet(running))
    ensures var gone, added := Select(running, KeySet(want), false), Select(want, KeySet(running), false);
            OnlySources((slots - SlotsOf(KeysOf(gone))) + SourceSlots(KeySet(added))) == SourceSlots(KeySet(want))
  {
    var gone, added := Select(running, KeySet(want), false), Select(want, KeySet(running), false);
    SlotsOfKeys(gone);
    var end := (slots - SlotsOf(KeysOf(gone))) + SourceSlots(KeySet(added));
    forall s: Slot | s.SourceSlot? ensures s in end <==> s in SourceSlots(KeySet(want)) {
      assert s in slots <==> s in OnlySources(slots);
    }
  }

  // ── one step of the loop ──

  lemma EffectKeeps<Model, Msg>(p: Program<Model, Msg>, k: State<Model, Msg>, c: Cmd<Msg>)
    requires Inv(p, k) && !k.down && k.plan == [] && k.folding
    ensures Inv(p, RunEffect(p, k, c))
  {
    match c
    case After(key, delay, msg) =>
      if key == "" { UnkeyedKeeps(k.t, delay, msg); }
      else { KeyedKeeps(p, k, key, [Arm(key, delay, msg)]); }
    case Task(key) => if key != "" { KeyedKeeps(p, k, key, [StartTask(key)]); }
    case Cancel(key) => KeyedKeeps(p, k, key, []);
    case _ =>
  }

  lemma UnkeyedKeeps<Msg>(t: Tables<Msg>, delay: int, msg: Msg)
    requires OriginsOk(t) && TimersOk(t)
    ensures OriginsOk(ArmUnkeyed(t, delay, msg)) && TimersOk(ArmUnkeyed(t, delay, msg))
  {
    var n := ArmUnkeyed(t, delay, msg);
    forall s | s in n.runs ensures RunOk(s, n.runs[s], n.timers, n.nextTimer) {
      assert RunOk(s, t.runs[s], t.timers, t.nextTimer);
    }
  }

  lemma KeyedKeeps<Model, Msg>(p: Program<Model, Msg>, k: State<Model, Msg>, key: string, next: seq<Op<Msg>>)
    requires Inv(p, k) && !k.down && k.plan == []
    requires next == [] || next == [StartTask(key)] || (|next| == 1 && next[0].Arm? && next[0].name == key)
    ensures Inv(p, k.(t := StopRun(k.t, TaskSlot(key)), plan := next))
  {
    var s := TaskSlot(key);
    StopRunKeeps(k.t, s);
    TaskPlan(k.t.runs.Keys, key, next);
    var n := k.(t := StopRun(k.t, s), plan := next);
    assert OriginsOk(n.t) && TimersOk(n.t) && QueuesOk(n) && SubsOk(p, n);
  }

  lemma TaskPlan<Msg>(slots: set<Slot>, key: string, next: seq<Op<Msg>>)
    requires next == [] || next == [StartTask(key)] || (|next| == 1 && next[0].Arm? && next[0].name == key)
    ensures var left := slots - {TaskSlot(key)};
            PlanOk(left, next) && OnlySources(AfterPlan(left, next)) == OnlySources(slots)
  {
    var left := slots - {TaskSlot(key)};
    if next != [] {
      assert next[1..] == [];
      assert PlanOk(SlotsAfter(left, next[0]), next[1..]);
      assert AfterPlan(left, next) == AfterPlan(left + {TaskSlot(key)}, next[1..]) == left + {TaskSlot(key)};
    }
  }

  /** A planned operation leaves the queue alone and never takes an origin back. */
  lemma OpFrame<Msg>(t: Tables<Msg>, op: Op<Msg>)
    ensures DoOp(t, op).box.queue == t.box.queue && t.box.last <= DoOp(t, op).box.last
  {
  }

  lemma PlanStepKeeps<Model, Msg>(p: Program<Model, Msg>, k: State<Model, Msg>)
    requires Inv(p, k) && !k.down && k.plan != []
    ensures Inv(p, LoopStep(p, k))
  {
    OpKeeps(k.t, k.plan[0]);
    OpFrame(k.t, k.plan[0]);
    assert QueuesOk(LoopStep(p, k));
    assert SubsOk(p, LoopStep(p, k));
  }

  lemma LoopKeeps<Model, Msg>(p: Program<Model, Msg>, k: State<Model, Msg>)
    requires Inv(p, k) && !k.down && Busy(k)
    ensures Inv(p, LoopStep(p, k))
  {
    if k.plan != [] {
      PlanStepKeeps(p, k);
    } else if k.effects != [] {
      if k.exit.None? {
        var rest := k.(effects := k.effects[1..]);
        assert Inv(p, rest);
        EffectKeeps(p, rest, k.effects[0]);
      }
    } else if k.exit.None? && k.batch != [] && k.folded < p.budget && k.batch[0].from != 0 && k.dirty {
      DiffPlan(k.t.runs.Keys, k.running, p.subscribe(k.model));
      assert SubsOk(p, Resubscribe(p, k));
    }
  }

  // ── every step ──

  lemma DrainIssued<Msg>(box: Box<Msg>, queue: seq<Queued<Msg>>, last: Origin)
    requires Issued(queue, last)
    ensures Issued(Unretired(box, queue), last)
  {
    if queue != [] {
      assert forall i | 0 <= i < |queue[1..]| :: queue[1..][i] == queue[i + 1];
      DrainIssued(box, queue[1..], last);
    }
  }

  lemma FireKeeps<Model, Msg>(p: Program<Model, Msg>, k: State<Model, Msg>, id: nat)
    requires Inv(p, k) && Enabled(k, Action<Msg>.Fire(id))
    ensures Inv(p, Next(p, k, Action<Msg>.Fire(id)))
  {
    var n, t := Next(p, k, Action<Msg>.Fire(id)), k.t.timers[id];
    assert t.payload.from <= k.t.box.last by {
      if t.payload.from != 0 {
        var s :| s in k.t.runs && k.t.runs[s] == Run(t.payload.from, Some(id));
      }
    }
    forall s | s in n.t.runs ensures RunOk(s, n.t.runs[s], n.t.timers, n.t.nextTimer) {
      assert RunOk(s, k.t.runs[s], k.t.timers, k.t.nextTimer);
      if s.SourceSlot? && s.key.EveryKey? && n.t.runs[s].timer == Some(id) { assert t.period > 0; }
    }
    assert TimersOk(n.t) && QueuesOk(n);
  }

  lemma PostKeeps<Model, Msg>(p: Program<Model, Msg>, k: State<Model, Msg>, a: Action<Msg>)
    requires Inv(p, k) && Enabled(k, a) && a.Post?
    ensures Inv(p, Next(p, k, a))
  {
    if !k.down {
      var n := Next(p, k, a);
      var kept := if a.evict && k.t.box.queue != [] then k.t.box.queue[1..] else k.t.box.queue;
      assert n.t.box.queue == kept + [Queued(a.from, a.msg)];
      assert Issued(kept, k.t.box.last);
      assert Issued(n.t.box.queue, n.t.box.last);
      assert Tied(n.t.live, n.t.runs, n.t.box);
    }
  }

  /** Every step of every thread keeps the invariant. */
  lemma NextKeeps<Model, Msg>(p: Program<Model, Msg>, k: State<Model, Msg>, a: Action<Msg>)
    requires Inv(p, k) && Enabled(k, a)
    ensures Inv(p, Next(p, k, a))
  {
    match a
    case Post(_, _, _) => PostKeeps(p, k, a);
    case Loop => LoopKeeps(p, k);
    case Drain => DrainIssued(k.t.box, k.t.box.queue, k.t.box.last);
    case Fire(id) => FireKeeps(p, k, id);
    case Subscribe =>
      DiffPlan(k.t.runs.Keys, k.running, p.subscribe(k.model));
      assert SubsOk(p, Resubscribe(p, k));
    case _ =>
  }

  lemma InitInv<Model, Msg>(p: Program<Model, Msg>, k: State<Model, Msg>)
    requires Init(k)
    ensures Inv(p, k)
  {
    assert PlanOk(k.t.runs.Keys, k.plan);
    assert AfterPlan(k.t.runs.Keys, k.plan) == {};
  }

  /** The invariant holds in every state of every run. */
  lemma {:induction false} RunInv<Model, Msg>(p: Program<Model, Msg>, ks: seq<State<Model, Msg>>,
                                              acts: seq<Action<Msg>>, i: nat)
    requires IsRun(p, ks, acts) && i < |ks|
    ensures Inv(p, ks[i])
  {
    if i == 0 {
      InitInv(p, ks[0]);
    } else {
      RunInv(p, ks, acts, i - 1);
      NextKeeps(p, ks[i - 1], acts[i - 1]);
    }
  }
}
