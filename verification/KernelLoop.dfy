/** The kernel's own code: fold_pending(), interpret(), reconcile() and the source tables, as methods that
  update fields. Each method is shown to be a run of `KernelModel.LoopStep`, so what `KernelInvariant`,
  `KernelTheorems` and `KernelFifo` prove of that machine holds of this code. */
module KernelLoop {
  import opened Wrappers
  import opened Messages
  import opened Sources
  import opened KernelModel
  import KernelInvariant
  import Clock

  // ── runs of the loop ──

  ghost predicate InSteps<Model, Msg>(p: Program<Model, Msg>, a: State<Model, Msg>, b: State<Model, Msg>, n: nat)
    decreases n
  {
    if n == 0 then a == b else Busy(a) && InSteps(p, LoopStep(p, a), b, n - 1)
  }

  /** The loop, left alone, gets from `a` to `b`. */
  ghost predicate Reaches<Model, Msg>(p: Program<Model, Msg>, a: State<Model, Msg>, b: State<Model, Msg>) {
    exists n: nat :: InSteps(p, a, b, n)
  }

  lemma {:induction false} StepsThen<Model, Msg>(p: Program<Model, Msg>, a: State<Model, Msg>, b: State<Model, Msg>,
                                                 c: State<Model, Msg>, n: nat, m: nat)
    requires InSteps(p, a, b, n) && InSteps(p, b, c, m)
    ensures InSteps(p, a, c, n + m)
    decreases n
  {
    if n > 0 { StepsThen(p, LoopStep(p, a), b, c, n - 1, m); }
  }

  lemma Stay<Model, Msg>(p: Program<Model, Msg>, a: State<Model, Msg>)
    ensures Reaches(p, a, a)
  {
    assert InSteps(p, a, a, 0);
  }

  lemma Then<Model, Msg>(p: Program<Model, Msg>, a: State<Model, Msg>, b: State<Model, Msg>, c: State<Model, Msg>)
    requires Reaches(p, a, b) && Reaches(p, b, c)
    ensures Reaches(p, a, c)
  {
    var n: nat :| InSteps(p, a, b, n);
    var m: nat :| InSteps(p, b, c, m);
    StepsThen(p, a, b, c, n, m);
  }

  lemma Step<Model, Msg>(p: Program<Model, Msg>, a: State<Model, Msg>, b: State<Model, Msg>, c: State<Model, Msg>)
    requires Reaches(p, a, b) && Busy(b) && c == LoopStep(p, b)
    ensures Reaches(p, a, c)
  {
    assert InSteps(p, c, c, 0);
    assert InSteps(p, b, c, 1);
    Then(p, a, b, c);
  }

  /** The invariant of the machine holds wherever the loop gets to. */
  lemma ReachesKeeps<Model, Msg>(p: Program<Model, Msg>, a: State<Model, Msg>, b: State<Model, Msg>)
    requires KernelInvariant.Inv(p, a) && !a.down && Reaches(p, a, b)
    ensures KernelInvariant.Inv(p, b)
  {
    var n: nat :| InSteps(p, a, b, n);
    StepsKeep(p, a, b, n);
  }

  lemma {:induction false} StepsKeep<Model, Msg>(p: Program<Model, Msg>, a: State<Model, Msg>, b: State<Model,
        Msg>, n: nat)
    requires KernelInvariant.Inv(p, a) && !a.down && InSteps(p, a, b, n)
    ensures KernelInvariant.Inv(p, b)
    decreases n
  {
    if n > 0 {
      KernelInvariant.LoopKeeps(p, a);
      StepsKeep(p, LoopStep(p, a), b, n - 1);
    }
  }

  // ── what the stack holds, put into a state ──

  function With<Model, Msg>(k: State<Model, Msg>, folding: bool, folded: nat, batch: seq<Queued<Msg>>,
                            effects: seq<Cmd<Msg>>, plan: seq<Op<Msg>>): State<Model, Msg>
  {
    k.(folding := folding, folded := folded, batch := batch, effects := effects, plan := plan)
  }

  lemma PlanStep<Model, Msg>(p: Program<Model, Msg>, k: State<Model, Msg>, folding: bool, folded: nat,
                             batch: seq<Queued<Msg>>, effects: seq<Cmd<Msg>>, plan: seq<Op<Msg>>)
    requires plan != []
    ensures LoopStep(p, With(k, folding, folded, batch, effects, plan)) ==
            With(k.(t := DoOp(k.t, plan[0])), folding, folded, batch, effects, plan[1..])
  {
  }

  lemma EffectStep<Model, Msg>(p: Program<Model, Msg>, k: State<Model, Msg>, folded: nat, batch: seq<Queued<Msg>>,
                               c: Cmd<Msg>, rest: seq<Cmd<Msg>>)
    requires k.exit.None?
    ensures LoopStep(p, With(k, true, folded, batch, [c] + rest, [])) ==
            RunEffect(p, With(k, true, folded, batch, rest, []), c)
  {
    assert ([c] + rest)[1..] == rest;
  }

  lemma ResubscribeWith<Model, Msg>(p: Program<Model, Msg>, k: State<Model, Msg>, folding: bool, folded: nat,
                                    batch: seq<Queued<Msg>>)
    ensures var leaves := p.subscribe(k.model); var d := Diff(k.running, leaves);
            Resubscribe(p, With(k, folding, folded, batch, [], [])) ==
            With(k.(dirty := false, running := Wanted(leaves)), folding, folded, batch, [],
                 StopOps(d.stop) + (KeepOps(d.keep) + StartOps(d.start)))
  {
    var d := Diff(k.running, p.subscribe(k.model));
    assert StopOps<Msg>(d.stop) + KeepOps(d.keep) + StartOps(d.start)
        == StopOps<Msg>(d.stop) + (KeepOps(d.keep) + StartOps(d.start));
  }

  lemma FoldStep<Model, Msg>(p: Program<Model, Msg>, k: State<Model, Msg>, folded: nat, batch: seq<Queued<Msg>>)
    requires k.exit.None? && batch != [] && folded < p.budget
    requires batch[0].from == 0 || (!k.dirty && batch[0].from in k.t.live)
    ensures var (m, c) := p.update(k.model, batch[0].msg);
            LoopStep(p, With(k, true, folded, batch, [], [])) ==
            With(k.(model := m, record := k.record + [batch[0].msg], dirty := true), true, folded + 1, batch[1..],
                [c], [])
  {
  }

  lemma QuitDrops<Model, Msg>(p: Program<Model, Msg>, a: State<Model, Msg>, k: State<Model, Msg>, folded: nat,
                              batch: seq<Queued<Msg>>, rest: seq<Cmd<Msg>>)
    requires k.exit.Some? && Reaches(p, a, With(k, true, folded, batch, rest, []))
    ensures Reaches(p, a, With(k, true, folded, batch, [], []))
  {
    if rest != [] {
      Step(p, a, With(k, true, folded, batch, rest, []), With(k, true, folded, batch, [], []));
    }
  }

  /** `timer_of_`, `streams_` and `tasks_` are one map here, `runs`: their keys are of different kinds. */
  class Kernel<Model, Msg> {
    const p: Program<Model, Msg>
    var model: Model
    var record: seq<Msg>
    var dirty: bool
    var exit: Option<int>
    var pending: seq<Queued<Msg>>
    var running: seq<Entry<Msg>>
    var live: set<Origin>
    var runs: map<Slot, Run>
    var timers: map<nat, Timer<Msg>>
    var nextTimer: nat
    var now: int
    var asked: nat
    var dropped: nat
    var box: Box<Msg>

    /** Fields as the constructor's body finds them: the first model, nothing running, nothing queued. */
    constructor (p: Program<Model, Msg>, model: Model, now: int)
      ensures this.p == p
      ensures forall c :: Init(At(true, 0, [], [c], [])) && At(true, 0, [], [c], []).model == model
    {
      this.p, this.model, this.now := p, model, now;
      record, pending, running := [], [], [];
      dirty, exit := true, None;
      live, runs := {}, map[];
      timers, nextTimer, asked, dropped := map[], 0, 0, 0;
      box := Box([], {}, 0, false);
    }

    ghost function Tab(): Tables<Msg>
      reads this
    {
      Tables(live, runs, timers, nextTimer, now, box)
    }

    /** The machine state this object is in when nothing is on the stack. */
    ghost function Idle(): State<Model, Msg>
      reads this
    {
      State(model, record, dirty, exit, pending, false, 0, [], [], [], running, asked, dropped, Tab(), false)
    }

    /** The machine state this object is in, given what the code on the stack still has to do. */
    ghost function At(folding: bool, folded: nat, batch: seq<Queued<Msg>>, effects: seq<Cmd<Msg>>, plan: seq<Op<Msg>>)
      : State<Model, Msg>
      reads this
    {
      With(Idle(), folding, folded, batch, effects, plan)
    }

    // ── one run ──

    /** stop_keyed_task(), stop_stream() and the timer branch of stop_source(). */
    method Erase(slot: Slot)
      modifies `live, `box, `timers, `runs
      ensures Tab() == StopRun(old(Tab()), slot)
    {
      if slot !in runs { return; }
      var run := runs[slot];
      live := live - {run.origin};
      box := box.(live := box.live - {run.origin});
      if run.timer.Some? { timers := timers - {run.timer.value}; }
      runs := runs - {slot};
    }

    /** start_stream() and the start half of start_keyed_task(). */
    method Open(slot: Slot)
      modifies `live, `box, `runs
      ensures Tab() == Launch(old(Tab()), slot)
    {
      var o := box.last + 1;
      box := box.(live := box.live + {o}, last := o);
      live := live + {o};
      runs := runs[slot := Run(o, None)];
    }

    /** The timer branch of start_source() and the start half of a keyed `after`. */
    method OpenTimer(slot: Slot, when: int, period: int, msg: Msg)
      modifies `live, `box, `timers, `nextTimer, `runs
      ensures Tab() == LaunchTimer(old(Tab()), slot, when, period, msg)
    {
      var o, id := box.last + 1, nextTimer;
      box := box.(live := box.live + {o}, last := o);
      live := live + {o};
      timers := timers[id := Timer(when, period, Queued(o, msg))];
      nextTimer := id + 1;
      runs := runs[slot := Run(o, Some(id))];
    }

    method ArmOnce(delay: int, msg: Msg)
      modifies `timers, `nextTimer
      ensures Tab() == ArmUnkeyed(old(Tab()), delay, msg)
    {
      timers := timers[nextTimer := Timer(Clock.Add(now, delay), 0, Queued(0, msg))];
      nextTimer := nextTimer + 1;
    }

    // ── sources ──

    method StopSource(key: Key)
      modifies `live, `box, `timers, `runs
      ensures Tab() == DoOp(old(Tab()), Op<Msg>.StopSource(key))
    {
      if !key.HostKey? { Erase(SourceSlot(key)); }
    }

    method KeepSource(key: Key, leaf: Leaf<Msg>)
      modifies `timers
      ensures Tab() == DoOp(old(Tab()), Op<Msg>.KeepSource(key, leaf))
    {
      var slot := SourceSlot(key);
      if leaf.Every? && slot in runs && runs[slot].timer.Some? && runs[slot].timer.value in timers {
        var id := runs[slot].timer.value;
        timers := timers[id := timers[id].(payload := Queued(runs[slot].origin, leaf.msg))];
      }
    }

    method StartSource(key: Key, leaf: Leaf<Msg>)
      modifies `live, `box, `timers, `nextTimer, `runs
      ensures Tab() == DoOp(old(Tab()), Op<Msg>.StartSource(key, leaf))
    {
      match leaf
      case Every(interval, msg) =>
        var period := Clock.Period(interval);
        OpenTimer(SourceSlot(key), Clock.Add(now, period), period, msg);
      case Stream(_) => Open(SourceSlot(key));
      case Host(_) =>
    }

    // ── effects ──

    /** interpret(): runs the command to the end, or up to a quit. */
    method Interpret(c: Cmd<Msg>, ghost folded: nat, ghost batch: seq<Queued<Msg>>, ghost rest: seq<Cmd<Msg>>)
      requires exit.None?
      modifies this
      ensures Reaches(p, old(At(true, folded, batch, [c] + rest, [])),
                      At(true, folded, batch, if exit.Some? then [] else rest, []))
      ensures model == old(model) && record == old(record) && dirty == old(dirty)
      decreases c, 0
    {
      ghost var start := At(true, folded, batch, [c] + rest, []);
      Stay(p, start);
      EffectStep(p, Idle(), folded, batch, c, rest);
      match c
      case Batch(cmds) =>
        Step(p, start, start, At(true, folded, batch, cmds + rest, []));
        InterpretAll(cmds, folded, batch, rest, start);
      case Quit(code) =>
        exit := Some(code);
        Step(p, start, start, At(true, folded, batch, rest, []));
        QuitDrops(p, start, Idle(), folded, batch, rest);
      case After(key, delay, msg) =>
        if key != "" {
          Keyed(key, Arm(key, delay, msg), folded, batch, rest, start);
        } else {
          RunSimple(c, folded, batch, rest);
          Step(p, start, start, At(true, folded, batch, rest, []));
        }
      case Task(key) =>
        if key != "" {
          Keyed(key, StartTask(key), folded, batch, rest, start);
        } else {
          Step(p, start, start, At(true, folded, batch, rest, []));
        }
      case Cancel(key) =>
        Erase(TaskSlot(key));
        Step(p, start, start, At(true, folded, batch, rest, []));
      case _ =>
        RunSimple(c, folded, batch, rest);
        Step(p, start, start, At(true, folded, batch, rest, []));
    }

    /** The effects that are done in one go: send, an unkeyed `after`, now, random, a host's answer. */
    method RunSimple(c: Cmd<Msg>, ghost folded: nat, ghost batch: seq<Queued<Msg>>, ghost rest: seq<Cmd<Msg>>)
      requires c.Nothing? || c.Send? || c.Ask? || (c.After? && c.key == "")
      modifies `pending, `asked, `timers, `nextTimer
      ensures At(true, folded, batch, rest, []) == RunEffect(p, old(At(true, folded, batch, rest, [])), c)
    {
      match c
      case Send(msg) =>
        pending := pending + [Queued(0, msg)];
      case After(_, delay, msg) =>
        ArmOnce(delay, msg);
      case Ask(reply) =>
        var answer := reply(p.world(asked));
        asked := asked + 1;
        if answer.Some? { pending := pending + [Queued(0, answer.value)]; }
      case _ =>
    }

    /** The loop over a batch of commands; a quit ends it. */
    method InterpretAll(cmds: seq<Cmd<Msg>>, ghost folded: nat, ghost batch: seq<Queued<Msg>>,
                        ghost rest: seq<Cmd<Msg>>, ghost start: State<Model, Msg>)
      requires exit.None? && Reaches(p, start, At(true, folded, batch, cmds + rest, []))
      modifies this
      ensures Reaches(p, start, At(true, folded, batch, if exit.Some? then [] else rest, []))
      ensures model == old(model) && record == old(record) && dirty == old(dirty)
      decreases cmds, 0
    {
      var i := 0;
      while i < |cmds|
        invariant 0 <= i <= |cmds|
        invariant Reaches(p, start, At(true, folded, batch, if exit.Some? then [] else cmds[i..] + rest, []))
        invariant model == old(model) && record == old(record) && dirty == old(dirty)
      {
        if exit.Some? { return; }
        InterpretNext(cmds, i, folded, batch, rest, start);
        i := i + 1;
      }
      assert cmds[i..] + rest == rest;
    }

    /** One command of the batch. */
    method InterpretNext(cmds: seq<Cmd<Msg>>, i: nat, ghost folded: nat, ghost batch: seq<Queued<Msg>>,
                         ghost rest: seq<Cmd<Msg>>, ghost start: State<Model, Msg>)
      requires exit.None? && i < |cmds| && Reaches(p, start, At(true, folded, batch, cmds[i..] + rest, []))
      modifies this
      ensures Reaches(p, start, At(true, folded, batch, if exit.Some? then [] else cmds[i + 1..] + rest, []))
      ensures model == old(model) && record == old(record) && dirty == old(dirty)
      decreases cmds[i], 1
    {
      ghost var before := At(true, folded, batch, cmds[i..] + rest, []);
      assert cmds[i..] + rest == [cmds[i]] + (cmds[i + 1..] + rest);
      Interpret(cmds[i], folded, batch, cmds[i + 1..] + rest);
      Then(p, start, before, At(true, folded, batch, if exit.Some? then [] else cmds[i + 1..] + rest, []));
    }

    /** A keyed `after` or task: the old run goes first, then the new one starts. */
    method Keyed(key: string, op: Op<Msg>, ghost folded: nat, ghost batch: seq<Queued<Msg>>,
                 ghost rest: seq<Cmd<Msg>>, ghost start: State<Model, Msg>)
      requires op == StartTask(key) || (op.Arm? && op.name == key)
      requires Reaches(p, start, start) && Busy(start)
      requires LoopStep(p, start) ==
               At(true, folded, batch, rest, [op]).(t := StopRun(Tab(), TaskSlot(key)))
      modifies `live, `box, `timers, `nextTimer, `runs
      ensures Reaches(p, start, At(true, folded, batch, rest, []))
    {
      Erase(TaskSlot(key));
      Step(p, start, start, At(true, folded, batch, rest, [op]));
      PlanStep(p, Idle(), true, folded, batch, rest, [op]);
      ghost var mid := At(true, folded, batch, rest, [op]);
      if op.Arm? { OpenTimer(TaskSlot(key), Clock.Add(now, op.delay), 0, op.msg); } else { Open(TaskSlot(key)); }
      assert [op][1..] == [];
      Step(p, start, mid, At(true, folded, batch, rest, []));
    }

    // ── subscriptions ──

    /** reconcile(): stops, keeps and starts what the plan says, one source at a time. */
    method Reconcile(ghost folding: bool, ghost folded: nat, ghost batch: seq<Queued<Msg>>)
      modifies `dirty, `running, `live, `box, `timers, `nextTimer, `runs
      ensures !dirty
      ensures !old(dirty) ==> Idle() == old(Idle())
      ensures old(dirty) ==> Reaches(p, Resubscribe(p, old(At(folding, folded, batch, [], []))),
                                     At(folding, folded, batch, [], []))
    {
      if !dirty { return; }
      ghost var start := Resubscribe(p, At(folding, folded, batch, [], []));
      ResubscribeWith(p, Idle(), folding, folded, batch);
      Stay(p, start);
      dirty := false;
      var leaves := p.subscribe(model);
      var plan := Diff(running, leaves);
      running := Wanted(leaves);
      ghost var keeps, starts := KeepOps(plan.keep), StartOps(plan.start);
      StopAll(plan.stop, folding, folded, batch, keeps + starts, start);
      KeepAll(plan.keep, folding, folded, batch, starts, start);
      StartAll(plan.start, folding, folded, batch, start);
    }

    method StopAll(stop: seq<Key>, ghost folding: bool, ghost folded: nat, ghost batch: seq<Queued<Msg>>,
                   ghost rest: seq<Op<Msg>>, ghost start: State<Model, Msg>)
      requires Reaches(p, start, At(folding, folded, batch, [], StopOps<Msg>(stop) + rest))
      modifies `live, `box, `timers, `runs
      ensures Reaches(p, start, At(folding, folded, batch, [], rest))
    {
      var i := 0;
      assert stop[i..] == stop;
      while i < |stop|
        invariant 0 <= i <= |stop|
        invariant Reaches(p, start, At(folding, folded, batch, [], StopOps<Msg>(stop[i..]) + rest))
      {
        ghost var todo := StopOps<Msg>(stop[i..]) + rest;
        ghost var before := At(folding, folded, batch, [], todo);
        PlanStep(p, Idle(), folding, folded, batch, [], todo);
        StopSource(stop[i]);
        assert todo[1..] == StopOps<Msg>(stop[i + 1..]) + rest;
        Step(p, start, before, At(folding, folded, batch, [], todo[1..]));
        i := i + 1;
      }
      assert StopOps<Msg>(stop[i..]) + rest == rest;
    }

    method KeepAll(keep: seq<Entry<Msg>>, ghost folding: bool, ghost folded: nat, ghost batch: seq<Queued<Msg>>,
                   ghost rest: seq<Op<Msg>>, ghost start: State<Model, Msg>)
      requires Reaches(p, start, At(folding, folded, batch, [], KeepOps(keep) + rest))
      modifies `timers
      ensures Reaches(p, start, At(folding, folded, batch, [], rest))
    {
      var i := 0;
      assert keep[i..] == keep;
      while i < |keep|
        invariant 0 <= i <= |keep|
        invariant Reaches(p, start, At(folding, folded, batch, [], KeepOps(keep[i..]) + rest))
      {
        ghost var todo := KeepOps(keep[i..]) + rest;
        ghost var before := At(folding, folded, batch, [], todo);
        PlanStep(p, Idle(), folding, folded, batch, [], todo);
        KeepSource(keep[i].key, keep[i].leaf);
        assert todo[1..] == KeepOps(keep[i + 1..]) + rest;
        Step(p, start, before, At(folding, folded, batch, [], todo[1..]));
        i := i + 1;
      }
      assert KeepOps(keep[i..]) + rest == rest;
    }

    method StartAll(entries: seq<Entry<Msg>>, ghost folding: bool, ghost folded: nat, ghost batch: seq<Queued<Msg>>,
                    ghost start: State<Model, Msg>)
      requires Reaches(p, start, At(folding, folded, batch, [], StartOps(entries)))
      modifies `live, `box, `timers, `nextTimer, `runs
      ensures Reaches(p, start, At(folding, folded, batch, [], []))
    {
      var i := 0;
      assert entries[i..] == entries;
      while i < |entries|
        invariant 0 <= i <= |entries|
        invariant Reaches(p, start, At(folding, folded, batch, [], StartOps(entries[i..])))
      {
        ghost var todo := StartOps(entries[i..]);
        ghost var before := At(folding, folded, batch, [], todo);
        PlanStep(p, Idle(), folding, folded, batch, [], todo);
        StartSource(entries[i].key, entries[i].leaf);
        assert todo[1..] == StartOps(entries[i + 1..]);
        Step(p, start, before, At(folding, folded, batch, [], todo[1..]));
        i := i + 1;
      }
      assert StartOps(entries[i..]) == [];
    }

    // ── the fold ──

    /** fold_one(): the message goes through update(), its command through interpret(). */
    method FoldOne(ghost folded: nat, batch: seq<Queued<Msg>>, ghost start: State<Model, Msg>)
      requires exit.None? && batch != [] && folded < p.budget
      requires batch[0].from == 0 || (!dirty && batch[0].from in live)
      requires Reaches(p, start, At(true, folded, batch, [], []))
      modifies this
      ensures Reaches(p, start, At(true, folded + 1, batch[1..], [], []))
      ensures record == old(record) + [batch[0].msg]
    {
      ghost var before := At(true, folded, batch, [], []);
      FoldStep(p, Idle(), folded, batch);
      var (m, c) := p.update(model, batch[0].msg);
      record := record + [batch[0].msg];
      model := m;
      dirty := true;
      ghost var mid := At(true, folded + 1, batch[1..], [c], []);
      Step(p, start, before, mid);
      assert [c] + [] == [c];
      Interpret(c, folded + 1, batch[1..], []);
      Then(p, start, mid, At(true, folded + 1, batch[1..], [], []));
    }

    /** A message of a source: re-subscribes first if the model changed, then drops the message if its
        source is gone. */
    method Stale(ghost folded: nat, batch: seq<Queued<Msg>>, ghost start: State<Model, Msg>) returns (drop: bool)
      requires exit.None? && batch != [] && folded < p.budget && batch[0].from != 0
      requires Reaches(p, start, At(true, folded, batch, [], []))
      modifies `dirty, `running, `live, `box, `timers, `nextTimer, `runs, `dropped
      ensures !dirty && drop == (batch[0].from !in live)
      ensures Reaches(p, start, At(true, folded, if drop then batch[1..] else batch, [], []))
    {
      ghost var before, stale := At(true, folded, batch, [], []), dirty;
      Reconcile(true, folded, batch);
      ghost var after := At(true, folded, batch, [], []);
      if stale {
        Step(p, start, before, Resubscribe(p, before));
        Then(p, start, Resubscribe(p, before), after);
      }
      drop := batch[0].from !in live;
      if drop {
        dropped := dropped + 1;
        Step(p, start, after, At(true, folded, batch[1..], [], []));
      }
    }

    /** The inner loop: folds the batch up to a quit or the budget; `i` messages of it are dealt with. */
    method FoldBatch(batch: seq<Queued<Msg>>, n0: nat, ghost start: State<Model, Msg>) returns (i: nat, n: nat)
      requires exit.None? && n0 < p.budget && Reaches(p, start, At(true, n0, batch, [], []))
      modifies this
      ensures i <= |batch| && n0 <= n <= p.budget
      ensures Reaches(p, start, At(true, n, batch[i..], [], []))
      ensures |record| == |old(record)| + n - n0
      ensures exit.None? ==> i == |batch| || n == p.budget
      ensures n == n0 ==> i == |batch| && exit.None? && pending == old(pending)
    {
      i, n := 0, n0;
      assert batch[0..] == batch;
      while i < |batch|
        invariant 0 <= i <= |batch| && n0 <= n <= p.budget && exit.None?
        invariant Reaches(p, start, At(true, n, batch[i..], [], []))
        invariant |record| == |old(record)| + n - n0
        invariant n == n0 ==> pending == old(pending)
      {
        if n >= p.budget { return; }
        assert batch[i..][0] == batch[i] && batch[i..][1..] == batch[i + 1..];
        if batch[i].from != 0 {
          var drop := Stale(n, batch[i..], start);
          if drop {
            i := i + 1;
            continue;
          }
        }
        FoldOne(n, batch[i..], start);
        i, n := i + 1, n + 1;
        if exit.Some? { return; }
      }
    }

    /** fold_pending(): at most `budget` folds; what is left waits, in order, ahead of what effects queued. Entered
        while quitting it does nothing. */
    method FoldPending() returns (changed: bool, n: nat)
      modifies this
      ensures Reaches(p, old(At(true, 0, [], [], [])), At(false, n, [], [], []))
      ensures n <= p.budget && |record| == |old(record)| + n && changed == (n > 0)
      ensures exit.None? ==> pending == [] || n == p.budget
      ensures exit.Some? && old(exit).None? ==> pending == []
      ensures old(exit).Some? ==> n == 0 && pending == old(pending)
    {
      ghost var start := At(true, 0, [], [], []);
      Stay(p, start);
      n, changed := 0, false;
      if exit.Some? {
        Step(p, start, start, At(false, 0, [], [], []));
        return;
      }
      while pending != [] && n < p.budget
        invariant exit.None? && n <= p.budget && |record| == |old(record)| + n
        invariant Reaches(p, start, At(true, n, [], [], []))
        decreases p.budget - n, |pending|
      {
        ghost var before := At(true, n, [], [], []);
        var batch := pending;
        pending := [];
        Step(p, start, before, At(true, n, batch, [], []));
        var i;
        i, n := FoldBatch(batch, n, start);
        before := At(true, n, batch[i..], [], []);
        if exit.Some? {
          pending := [];
          Step(p, start, before, At(false, n, [], [], []));
          changed := n > 0;
          return;
        }
        if i < |batch| {
          pending := batch[i..] + pending;
          Step(p, start, before, At(false, n, [], [], []));
          changed := n > 0;
          return;
        }
        assert batch[i..] == [];
      }
      Step(p, start, At(true, n, [], [], []), At(false, n, [], [], []));
      changed := n > 0;
    }
  }
}
