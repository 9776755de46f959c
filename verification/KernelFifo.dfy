/** The budgeted fold over two buffers is a plain first-in first-out queue.

  fold_pending() swaps `pending_` into a batch, lets effects append to a fresh `pending_`, and puts an
  unfolded tail back in front when the budget runs out. For messages with no origin none of that can be
  seen: any sequence of calls, each under any budget, folds a prefix of what one unlimited queue folds. */
module KernelFifo {
  import opened Wrappers
  import opened Messages
  import opened KernelModel
  import opened KernelInvariant

  // ── the reference: one queue, one message at a time ──

  /** What interpreting a command does to the queue: the messages it sends, in order, up to a quit. */
  datatype Outcome<+Msg> = Outcome(sends: seq<Msg>, asked: nat, exit: Option<int>)

  function ToldOne<Msg>(world: nat -> int, c: Cmd<Msg>, asked: nat): Outcome<Msg>
    decreases c, 1
  {
    match c
    case Batch(cmds) => ToldAll(world, cmds, asked)
    case Quit(code) => Outcome([], asked, Some(code))
    case Send(msg) => Outcome([msg], asked, None)
    case Ask(reply) =>
      var answer := reply(world(asked));
      Outcome(if answer.Some? then [answer.value] else [], asked + 1, None)
    case _ => Outcome([], asked, None)
  }

  function ToldAll<Msg>(world: nat -> int, cmds: seq<Cmd<Msg>>, asked: nat): Outcome<Msg>
    decreases cmds, 0
  {
    if cmds == [] then Outcome([], asked, None)
    else
      var o := ToldOne(world, cmds[0], asked);
      if o.exit.Some? then o
      else
        var rest := ToldAll(world, cmds[1..], o.asked);
        Outcome(o.sends + rest.sends, rest.asked, rest.exit)
  }

  datatype Plain<+Model, +Msg> =
    Plain(model: Model, queue: seq<Msg>, asked: nat, exit: Option<int>, record: seq<Msg>)

  function PlainStep<Model, Msg>(p: Program<Model, Msg>, s: Plain<Model, Msg>): Plain<Model, Msg>
    requires s.queue != []
  {
    var (m, c) := p.update(s.model, s.queue[0]);
    var o := ToldOne(p.world, c, s.asked);
    Plain(m, s.queue[1..] + o.sends, o.asked, o.exit, s.record + [s.queue[0]])
  }

  /** n folds of the unlimited queue; a quit or an empty queue ends it. */
  function PlainRun<Model, Msg>(p: Program<Model, Msg>, s: Plain<Model, Msg>, n: nat): Plain<Model, Msg> {
    if n == 0 then s
    else
      var t := PlainRun(p, s, n - 1);
      if t.queue == [] || t.exit.Some? then t else PlainStep(p, t)
  }

  // ── the kernel's state seen as that queue ──

  function Msgs<Msg>(qs: seq<Queued<Msg>>): seq<Msg> {
    seq(|qs|, i requires 0 <= i < |qs| => qs[i].msg)
  }

  ghost predicate OriginFree<Msg>(qs: seq<Queued<Msg>>) {
    forall i :: 0 <= i < |qs| ==> qs[i].from == 0
  }

  ghost predicate Unsourced<Model, Msg>(k: State<Model, Msg>) { OriginFree(k.batch) && OriginFree(k.pending) }

  ghost function View<Model, Msg>(p: Program<Model, Msg>, k: State<Model, Msg>): Plain<Model, Msg> {
    var o := ToldAll(p.world, k.effects, k.asked);
    Plain(k.model, Msgs(k.batch) + Msgs(k.pending) + o.sends, o.asked, o.exit, k.record)
  }

  lemma {:induction false} ToldAppend<Msg>(world: nat -> int, a: seq<Cmd<Msg>>, b: seq<Cmd<Msg>>, asked: nat)
    ensures var o := ToldAll(world, a, asked); var rest := ToldAll(world, b, o.asked);
            ToldAll(world, a + b, asked) ==
            if o.exit.Some? then o else Outcome(o.sends + rest.sends, rest.asked, rest.exit)
    decreases |a|
  {
    if a == [] {
      assert a + b == b;
    } else {
      assert (a + b)[0] == a[0] && (a + b)[1..] == a[1..] + b;
      ToldAppend(world, a[1..], b, ToldOne(world, a[0], asked).asked);
    }
  }

  lemma MsgsAppend<Msg>(a: seq<Queued<Msg>>, b: seq<Queued<Msg>>)
    ensures Msgs(a + b) == Msgs(a) + Msgs(b)
  {
  }

  lemma HeadTold<Msg>(world: nat -> int, cmds: seq<Cmd<Msg>>, asked: nat)
    requires cmds != []
    ensures var o := ToldOne(world, cmds[0], asked); var rest := ToldAll(world, cmds[1..], o.asked);
            ToldAll(world, cmds, asked) ==
            if o.exit.Some? then o
            else Outcome(if o.sends == [] then rest.sends else o.sends + rest.sends, rest.asked, rest.exit)
  {
    var o := ToldOne(world, cmds[0], asked);
    assert o.sends == []
           ==> o.sends + ToldAll(world, cmds[1..], o.asked).sends == ToldAll(world, cmds[1..], o.asked).sends;
  }

  /** Timers, tasks and cancels say nothing to the queue. */
  lemma QuietFrame<Model, Msg>(p: Program<Model, Msg>, k: State<Model, Msg>, c: Cmd<Msg>)
    requires k.plan == [] && (c.Nothing? || c.After? || c.Task? || c.Cancel?)
    ensures var n := RunEffect(p, k, c);
            && n.model == k.model && n.record == k.record && n.batch == k.batch && n.pending == k.pending
            && n.effects == k.effects && n.asked == k.asked && n.exit == k.exit
  {
  }

  /** Interpreting the head of the effect stack moves its sends from "still to say" to the queue. */
  lemma EffectView<Model, Msg>(p: Program<Model, Msg>, k: State<Model, Msg>)
    requires k.plan == [] && k.effects != [] && k.exit.None? && Unsourced(k)
    ensures var n := RunEffect(p, k.(effects := k.effects[1..]), k.effects[0]);
            if n.exit.None? then View(p, n) == View(p, k) && Unsourced(n)
            else View(p, k).exit == n.exit && n.record == k.record && n.model == k.model
  {
    var c, rest := k.effects[0], k.effects[1..];
    HeadTold(p.world, k.effects, k.asked);
    if c.Batch? {
      ToldAppend(p.world, c.cmds, rest, k.asked);
    } else if c.Send? {
      SendView(p, k, c.msg, k.asked);
    } else if c.Ask? {
      var answer := c.reply(p.world(k.asked));
      if answer.Some? { SendView(p, k, answer.value, k.asked + 1); }
    } else if !c.Quit? {
      QuietFrame(p, k.(effects := rest), c);
    }
  }

  lemma SendView<Model, Msg>(p: Program<Model, Msg>, k: State<Model, Msg>, msg: Msg, asked: nat)
    requires k.effects != [] && Unsourced(k)
    requires ToldAll(p.world, k.effects, k.asked) ==
             var rest := ToldAll(p.world, k.effects[1..], asked);
             Outcome([msg] + rest.sends, rest.asked, rest.exit)
    ensures var n := k.(effects := k.effects[1..], asked := asked, pending := k.pending + [Queued(0, msg)]);
            View(p, n) == View(p, k) && Unsourced(n)
  {
    MsgsAppend(k.pending, [Queued(0, msg)]);
    var later := ToldAll(p.world, k.effects[1..], asked).sends;
    assert Msgs([Queued(0, msg)]) == [msg];
    assert Msgs(k.batch) + (Msgs(k.pending) + [msg]) + later == Msgs(k.batch) + Msgs(k.pending) + ([msg] + later);
  }

  /** A fold is the reference's step. */
  lemma FoldView<Model, Msg>(p: Program<Model, Msg>, k: State<Model, Msg>)
    requires Folds(p, k) && Unsourced(k)
    ensures View(p, k).queue != [] && View(p, k).exit.None?
    ensures View(p, LoopStep(p, k)) == PlainStep(p, View(p, k)) && Unsourced(LoopStep(p, k))
  {
    var n := LoopStep(p, k);
    var c := p.update(k.model, k.batch[0].msg).1;
    var o := ToldOne(p.world, c, k.asked);
    assert ToldAll(p.world, [c], k.asked) == Outcome(o.sends, o.asked, o.exit) by {
      assert [c][1..] == [];
    }
    assert Msgs(k.batch) == [k.batch[0].msg] + Msgs(k.batch[1..]);
    assert View(p, k).queue == [k.batch[0].msg] + (Msgs(k.batch[1..]) + Msgs(k.pending));
    assert View(p, n).queue == Msgs(k.batch[1..]) + Msgs(k.pending) + o.sends;
  }

  /** Swapping buffers, putting a tail back and running planned operations cannot be seen. */
  lemma StepView<Model, Msg>(p: Program<Model, Msg>, k: State<Model, Msg>)
    requires Busy(k) && Unsourced(k) && k.exit.None? && !Folds(p, k)
    ensures var n := LoopStep(p, k);
            if n.exit.None? then View(p, n) == View(p, k) && Unsourced(n)
            else View(p, k).exit == n.exit && n.record == k.record && n.model == k.model
    ensures LoopStep(p, k).record == k.record
  {
    if k.plan != [] {
    } else if k.effects != [] {
      EffectView(p, k);
    } else if k.batch != [] {
      MsgsAppend(k.batch, k.pending);
    }
  }

  // ── successive calls under any budgets ──

  /** Loop steps, a call to fold_pending() beginning whenever the loop is idle; the budget in force may
      change from step to step. */
  ghost predicate FoldTrace<Model, Msg>(p: Program<Model, Msg>, ks: seq<State<Model, Msg>>, budgets: seq<nat>) {
    && |ks| == |budgets| + 1
    && forall i :: 0 <= i < |budgets| ==>
         ks[i + 1] == if Busy(ks[i]) then LoopStep(p.(budget := budgets[i]), ks[i])
                      else ks[i].(folding := true, folded := 0)
  }

  /** The folds made so far are the first ones of the unlimited queue, in its order, and the messages still
      waiting are the ones it would still have; a quit is the unlimited queue's quit. */
  lemma {:induction false} BudgetedFoldIsFifo<Model, Msg>(p: Program<Model, Msg>, ks: seq<State<Model, Msg>>,
                                                          budgets: seq<nat>, i: nat)
    requires FoldTrace(p, ks, budgets) && i < |ks| && Unsourced(ks[0]) && ks[0].exit.None?
    requires ks[i].exit.None?
    ensures |ks[0].record| <= |ks[i].record| && Unsourced(ks[i])
    ensures View(p, ks[i]) == PlainRun(p, View(p, ks[0]), |ks[i].record| - |ks[0].record|)
    decreases i
  {
    if i > 0 {
      var k, q := ks[i - 1], p.(budget := budgets[i - 1]);
      if k.exit.Some? { ExitStays(q, k); }
      BudgetedFoldIsFifo(p, ks, budgets, i - 1);
      if Busy(k) {
        if Folds(q, k) { FoldView(q, k); } else { StepView(q, k); }
      }
    }
  }

  lemma ExitStays<Model, Msg>(p: Program<Model, Msg>, k: State<Model, Msg>)
    requires Busy(k) && k.exit.Some?
    ensures LoopStep(p, k).exit == k.exit
  {
  }

  /** The step that quits: what was folded is again the unlimited queue's prefix, and it quits there too. */
  lemma QuitIsTheQueuesQuit<Model, Msg>(p: Program<Model, Msg>, ks: seq<State<Model, Msg>>, budgets: seq<nat>, i: nat)
    requires FoldTrace(p, ks, budgets) && i + 1 < |ks| && Unsourced(ks[0]) && ks[0].exit.None?
    requires ks[i].exit.None? && ks[i + 1].exit.Some?
    ensures |ks[0].record| <= |ks[i + 1].record|
    ensures var s := PlainRun(p, View(p, ks[0]), |ks[i + 1].record| - |ks[0].record|);
            s.exit == ks[i + 1].exit && s.record == ks[i + 1].record && s.model == ks[i + 1].model
  {
    BudgetedFoldIsFifo(p, ks, budgets, i);
    var q := p.(budget := budgets[i]);
    assert View(q, ks[i]) == View(p, ks[i]);
    if Folds(q, ks[i]) { FoldView(q, ks[i]); } else { StepView(q, ks[i]); }
  }
}
