/** The kernel as a machine of atomic steps (`kernel.hpp`, with the mailbox's part of `mailbox.hpp`).

  The loop thread's work is a control stack: `plan` (what one resubscription or keyed effect still has
  to do), `effects` (the command being interpreted), `batch` and `pending` (messages). `LoopStep` runs
  one entry of it, at most one lock-protected region of the mailbox at a time, and any other thread may
  post between any two of them.

  The timers are the map that the timer heap refines; timer ids are numbers never given out twice, which
  is what the heap promises until a slot's generation wraps. */
module KernelModel {
  import opened Wrappers
  import opened Sources
  import opened Messages
  import Clock

  /** What update() returns. `Ask` stands for the effects the loop answers on the spot: now, random and a
      host's handle(). An empty key means "not keyed". */
  datatype Cmd<+Msg> =
    | Nothing
    | Batch(cmds: seq<Cmd<Msg>>)
    | Quit(code: int)
    | Send(msg: Msg)
    | After(key: string, delay: int, msg: Msg)
    | Task(key: string)
    | Cancel(key: string)
    | Ask(reply: int -> Option<Msg>)

  /** The program and its surroundings, uninterpreted. `world(i)` is the i-th outside answer. */
  datatype Program<!Model, !Msg> = Program(
    update: (Model, Msg) -> (Model, Cmd<Msg>),
    subscribe: Model -> seq<Leaf<Msg>>,
    world: nat -> int,
    budget: nat)

  datatype Timer<+Msg> = Timer(when: int, period: int, payload: Queued<Msg>)

  /** `timer_of_` and `streams_` are keyed by source, `tasks_` by name: one table, disjoint keys. */
  datatype Slot = SourceSlot(key: Key) | TaskSlot(name: string)

  datatype Run = Run(origin: Origin, timer: Option<nat>)

  datatype Op<+Msg> =
    | StopSource(key: Key)
    | KeepSource(key: Key, leaf: Leaf<Msg>)
    | StartSource(key: Key, leaf: Leaf<Msg>)
    | StartTask(name: string)
    | Arm(name: string, delay: int, msg: Msg)

  datatype Box<+Msg> = Box(queue: seq<Queued<Msg>>, live: set<Origin>, last: Origin, closed: bool)

  /** What sources and keyed runs are made of: origins, tables, timers, and the mailbox. */
  datatype Tables<+Msg> = Tables(
    live: set<Origin>,
    runs: map<Slot, Run>,
    timers: map<nat, Timer<Msg>>,
    nextTimer: nat,
    now: int,
    box: Box<Msg>)

  datatype State<+Model, +Msg> = State(
    model: Model,
    record: seq<Msg>,
    dirty: bool,
    exit: Option<int>,
    pending: seq<Queued<Msg>>,
    folding: bool,
    folded: nat,
    batch: seq<Queued<Msg>>,
    effects: seq<Cmd<Msg>>,
    plan: seq<Op<Msg>>,
    running: seq<Entry<Msg>>,
    asked: nat,
    dropped: nat,
    t: Tables<Msg>,
    down: bool)

  // ── one source or keyed run ──

  /** Retire a run: out of the live set, out of the mailbox, its timer cancelled, its entry erased. */
  function StopRun<Msg>(t: Tables<Msg>, slot: Slot): Tables<Msg> {
    if slot !in t.runs then t
    else
      var run := t.runs[slot];
      t.(live := t.live - {run.origin},
         box := t.box.(live := t.box.live - {run.origin}),
         timers := if run.timer.Some? then t.timers - {run.timer.value} else t.timers,
         runs := t.runs - {slot})
  }

  /** Open an origin for a run that sends through a sink. */
  function Launch<Msg>(t: Tables<Msg>, slot: Slot): Tables<Msg> {
    var o := t.box.last + 1;
    t.(live := t.live + {o},
       box := t.box.(live := t.box.live + {o}, last := o),
       runs := t.runs[slot := Run(o, None)])
  }

  /** Open an origin for a run that is a timer on the loop. */
  function LaunchTimer<Msg>(t: Tables<Msg>, slot: Slot, when: int, period: int, msg: Msg): Tables<Msg> {
    var o, id := t.box.last + 1, t.nextTimer;
    t.(live := t.live + {o},
       box := t.box.(live := t.box.live + {o}, last := o),
       runs := t.runs[slot := Run(o, Some(id))],
       timers := t.timers[id := Timer(when, period, Queued(o, msg))],
       nextTimer := id + 1)
  }

  /** A kept timer takes the new message and keeps its phase. */
  function Keep<Msg>(t: Tables<Msg>, key: Key, leaf: Leaf<Msg>): Tables<Msg> {
    var slot := SourceSlot(key);
    if leaf.Every? && slot in t.runs && t.runs[slot].timer.Some? && t.runs[slot].timer.value in t.timers then
      var id := t.runs[slot].timer.value;
      t.(timers := t.timers[id := t.timers[id].(payload := Queued(t.runs[slot].origin, leaf.msg))])
    else t
  }

  function DoOp<Msg>(t: Tables<Msg>, op: Op<Msg>): Tables<Msg> {
    match op
    case StopSource(key) => if key.HostKey? then t else StopRun(t, SourceSlot(key))
    case KeepSource(key, leaf) => Keep(t, key, leaf)
    case StartSource(key, leaf) => (
      match leaf
      case Every(interval, msg) =>
        var period := Clock.Period(interval);
        LaunchTimer(t, SourceSlot(key), Clock.Add(t.now, period), period, msg)
      case Stream(_) => Launch(t, SourceSlot(key))
      case Host(_) => t)
    case StartTask(name) => Launch(t, TaskSlot(name))
    case Arm(name, delay, msg) => LaunchTimer(t, TaskSlot(name), Clock.Add(t.now, delay), 0, msg)
  }

  // ── effects ──

  function ArmUnkeyed<Msg>(t: Tables<Msg>, delay: int, msg: Msg): Tables<Msg> {
    t.(timers := t.timers[t.nextTimer := Timer(Clock.Add(t.now, delay), 0, Queued(0, msg))],
       nextTimer := t.nextTimer + 1)
  }

  /** One command of the effect stack. A keyed effect stops the old run now and leaves the start to `plan`. */
  function RunEffect<Model, Msg>(p: Program<Model, Msg>, k: State<Model, Msg>, c: Cmd<Msg>): State<Model, Msg>
    requires k.plan == []
  {
    match c
    case Nothing => k
    case Batch(cmds) => k.(effects := cmds + k.effects)
    case Quit(code) => k.(exit := if k.exit.None? then Some(code) else k.exit)
    case Send(msg) => k.(pending := k.pending + [Queued(0, msg)])
    case After(key, delay, msg) =>
      if key == "" then
        k.(t := ArmUnkeyed(k.t, delay, msg))
      else k.(t := StopRun(k.t, TaskSlot(key)), plan := [Arm(key, delay, msg)])
    case Task(key) =>
      if key == "" then k else k.(t := StopRun(k.t, TaskSlot(key)), plan := [StartTask(key)])
    case Cancel(key) => k.(t := StopRun(k.t, TaskSlot(key)))
    case Ask(reply) =>
      var answer := reply(p.world(k.asked));
      k.(asked := k.asked + 1,
         pending := if answer.Some? then k.pending + [Queued(0, answer.value)] else k.pending)
  }

  // ── subscriptions ──

  function StopOps<Msg>(keys: seq<Key>): seq<Op<Msg>> {
    seq(|keys|, i requires 0 <= i < |keys| => StopSource(keys[i]))
  }

  function KeepOps<Msg>(es: seq<Entry<Msg>>): seq<Op<Msg>> {
    seq(|es|, i requires 0 <= i < |es| => KeepSource(es[i].key, es[i].leaf))
  }

  function StartOps<Msg>(es: seq<Entry<Msg>>): seq<Op<Msg>> {
    seq(|es|, i requires 0 <= i < |es| => StartSource(es[i].key, es[i].leaf))
  }

  /** subscribe() ran and was diffed: stops, then keeps, then starts are still to do. */
  function Resubscribe<Model, Msg>(p: Program<Model, Msg>, k: State<Model, Msg>): State<Model, Msg> {
    var leaves := p.subscribe(k.model);
    var d := Diff(k.running, leaves);
    k.(dirty := false, running := Wanted(leaves),
       plan := StopOps(d.stop) + KeepOps(d.keep) + StartOps(d.start))
  }

  // ── the fold ──

  function FoldOne<Model, Msg>(p: Program<Model, Msg>, k: State<Model, Msg>, msg: Msg): State<Model, Msg> {
    var (m, c) := p.update(k.model, msg);
    k.(model := m, record := k.record + [msg], dirty := true, effects := [c], folded := k.folded + 1)
  }

  /** The next step folds the head of the batch: it has no source, or its source is running and the
      subscriptions are up to date. */
  predicate Folds<Model, Msg>(p: Program<Model, Msg>, k: State<Model, Msg>) {
    && k.folding && k.plan == [] && k.effects == [] && k.exit.None? && k.batch != [] && k.folded < p.budget
    && (k.batch[0].from == 0 || (!k.dirty && k.batch[0].from in k.t.live))
  }

  predicate Busy<Model, Msg>(k: State<Model, Msg>) { k.folding || k.plan != [] }

  /** The loop's next step while it is inside fold_pending() or a resubscription. */
  function LoopStep<Model, Msg>(p: Program<Model, Msg>, k: State<Model, Msg>): State<Model, Msg>
    requires Busy(k)
  {
    if k.plan != [] then k.(plan := k.plan[1..], t := DoOp(k.t, k.plan[0]))
    else if k.effects != [] then
      if k.exit.Some? then k.(effects := [])
      else RunEffect(p, k.(effects := k.effects[1..]), k.effects[0])
    else if k.exit.Some? then
      // a quit inside fold_pending() clears the queue; one that came before any fold (init's command) leaves it
      k.(batch := [], pending := if k.folded > 0 then [] else k.pending, folding := false)
    else if k.batch == [] then
      if k.pending == [] || k.folded >= p.budget then k.(folding := false)
      else k.(batch := k.pending, pending := [])
    else if k.folded >= p.budget then k.(pending := k.batch + k.pending, batch := [], folding := false)
    else if k.batch[0].from != 0 && k.dirty then Resubscribe(p, k)
    else if k.batch[0].from != 0 && k.batch[0].from !in k.t.live then
      k.(batch := k.batch[1..], dropped := k.dropped + 1)
    else FoldOne(p, k.(batch := k.batch[1..]), k.batch[0].msg)
  }

  // ── everything that can happen ──

  datatype Action<+Msg> =
    | Post(from: Origin, msg: Msg, evict: bool)   // any thread, at any time
    | Loop
    | Drain
    | Tick(now: int)
    | Fire(id: nat)
    | BeginFold
    | Subscribe
    | Dispatch(msg: Msg)
    | Stop(code: int)
    | Shutdown

  predicate Retired<Msg>(box: Box<Msg>, o: Origin) { IsRetired(o, box.live, box.last) }

  predicate Enabled<Model, Msg>(k: State<Model, Msg>, a: Action<Msg>) {
    match a
    case Post(from, _, _) =>
      // a sink exists only for an origin that was handed out; a refused post changes nothing
      from <= k.t.box.last && !k.t.box.closed && (from == 0 || !Retired(k.t.box, from))
    case Loop => !k.down && Busy(k)
    case Dispatch(_) => !k.down
    case Tick(now) => !k.down && !Busy(k) && k.t.now <= now
    case Fire(id) => !k.down && !Busy(k) && k.exit.None? && id in k.t.timers && k.t.timers[id].when <= k.t.now
    case BeginFold => !k.down && !Busy(k) && k.exit.None?
    case Subscribe => !k.down && !Busy(k) && k.dirty
    case Drain => !k.down && !Busy(k) && k.exit.None?
    case Stop(_) => !k.down && !Busy(k)
    case Shutdown => !k.down && !Busy(k)
  }

  /** What drain hands over: everything queued except messages of retired origins. */
  function Unretired<Msg>(box: Box<Msg>, queue: seq<Queued<Msg>>): seq<Queued<Msg>> {
    if queue == [] then []
    else
      (if queue[0].from != 0 && Retired(box, queue[0].from) then [] else [queue[0]]) + Unretired(box, queue[1..])
  }

  function Next<Model, Msg>(p: Program<Model, Msg>, k: State<Model, Msg>, a: Action<Msg>): State<Model, Msg>
    requires Enabled(k, a)
  {
    match a
    case Post(from, msg, evict) =>
      var q := if evict && k.t.box.queue != [] then k.t.box.queue[1..] else k.t.box.queue;
      k.(t := k.t.(box := k.t.box.(queue := q + [Queued(from, msg)])))
    case Loop => LoopStep(p, k)
    case Drain =>
      k.(pending := k.pending + Unretired(k.t.box, k.t.box.queue), t := k.t.(box := k.t.box.(queue := [])))
    case Tick(now) => k.(t := k.t.(now := now))
    case Fire(id) =>
      var t := k.t.timers[id];
      k.(pending := k.pending + [t.payload],
         t := k.t.(timers := if t.period > 0
                             then k.t.timers[id := t.(when := Clock.Rearm(t.when, t.period, k.t.now))]
                             else k.t.timers - {id}))
    case BeginFold => k.(folding := true, folded := 0)
    case Subscribe => Resubscribe(p, k)
    case Dispatch(msg) => k.(pending := k.pending + [Queued(0, msg)])
    case Stop(code) => if k.exit.Some? then k else k.(exit := Some(code), pending := [])
    case Shutdown =>
      k.(down := true,
         t := k.t.(timers := map[], runs := map[], live := {},
                   box := k.t.box.(queue := [], live := {}, closed := true)))
  }

  /** start(): the initial model, the initial command being interpreted, nothing subscribed yet. */
  ghost predicate Init<Model, Msg>(k: State<Model, Msg>) {
    && k.record == [] && k.dirty && k.exit.None? && k.pending == [] && k.folding && k.folded == 0
    && k.batch == [] && k.plan == [] && k.running == [] && k.t.live == {} && k.t.runs == map[] && k.t.timers == map[]
    && k.t.box == Box([], {}, 0, false) && !k.down
  }

  /** A run: states linked by actions, any of them in any order the guards allow. */
  ghost predicate IsRun<Model, Msg>(p: Program<Model, Msg>, ks: seq<State<Model, Msg>>, acts: seq<Action<Msg>>) {
    && |ks| == |acts| + 1
    && Init(ks[0])
    && forall i :: 0 <= i < |acts| ==> Enabled(ks[i], acts[i]) && ks[i + 1] == Next(p, ks[i], acts[i])
  }
}
