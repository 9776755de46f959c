/** Child programs under one parent (`child.hpp`, `children.hpp`): their stream and task keys get a prefix each, so
  that what one child runs can neither replace nor cancel what another runs. */
module Children {
  import opened Wrappers
  import opened Sources
  import opened KernelModel
  import opened Messages
  import opened KernelInvariant
  import opened KernelTheorems
  import Clock

  // ── ids as prefixes ──

  function Digit(d: nat): char
    requires d < 10
  { "0123456789"[d] }

  /** A number in decimal. */
  function Decimal(n: nat): (s: string)
    ensures s != "" && forall i :: 0 <= i < |s| ==> '0' <= s[i] <= '9'
  {
    (if n < 10 then "" else Decimal(n / 10)) + [Digit(n % 10)]
  }

  /** key_of() for integers and enums. */
  function KeyOf(id: int): (s: string)
    ensures Slashless(s)
  {
    if id < 0 then ['-'] + Decimal(-id) else Decimal(id)
  }

  predicate Slashless(s: string) { forall i :: 0 <= i < |s| ==> s[i] != '/' }

  lemma DigitIs(d: nat)
    requires d < 10
    ensures Digit(d) as int - '0' as int == d
  {
  }

  /** What the digits stand for. */
  function Value(s: string): int {
    if s == "" then 0 else 10 * Value(s[..|s| - 1]) + (s[|s| - 1] as int - '0' as int)
  }

  lemma {:induction false} ValueOf(n: nat)
    ensures Value(Decimal(n)) == n
  {
    var s := Decimal(n);
    DigitIs(n % 10);
    if n >= 10 {
      ValueOf(n / 10);
      assert s[..|s| - 1] == Decimal(n / 10);
    } else {
      assert s[..|s| - 1] == "";
    }
  }

  /** Different ids have different keys. */
  lemma KeyOfInjective(a: int, b: int)
    ensures KeyOf(a) == KeyOf(b) <==> a == b
  {
    if KeyOf(a) == KeyOf(b) {
      ValueOf(if a < 0 then -a else a);
      ValueOf(if b < 0 then -b else b);
      assert a < 0 <==> KeyOf(a)[0] == '-';
      assert b < 0 <==> KeyOf(b)[0] == '-';
      if a < 0 { assert KeyOf(a)[1..] == Decimal(-a) && KeyOf(b)[1..] == Decimal(-b); }
    }
  }

  /** The prefix of a child. */
  function Prefix(id: string): string { id + ['/'] }

  predicate StartsWith(s: string, p: string) { |p| <= |s| && s[..|p|] == p }

  /** Two children can collide, with some names of their own, if and only if the prefix of one begins with that of the
      other. */
  lemma CollideIff(a: string, b: string)
    ensures (exists x: string, y: string :: Prefix(a) + x == Prefix(b) + y) <==>
            StartsWith(Prefix(a), Prefix(b)) || StartsWith(Prefix(b), Prefix(a))
  {
    if exists x: string, y: string :: Prefix(a) + x == Prefix(b) + y {
      var x: string, y: string :| Prefix(a) + x == Prefix(b) + y;
      var s := Prefix(a) + x;
      assert s[..|Prefix(a)|] == Prefix(a) && s[..|Prefix(b)|] == Prefix(b);
      if |a| <= |b| { assert Prefix(b)[..|Prefix(a)|] == s[..|Prefix(a)|]; }
      else { assert Prefix(a)[..|Prefix(b)|] == s[..|Prefix(b)|]; }
    }
    if StartsWith(Prefix(a), Prefix(b)) { assert Prefix(a) + "" == Prefix(b) + Prefix(a)[|Prefix(b)|..]; }
    if StartsWith(Prefix(b), Prefix(a)) { assert Prefix(b) + "" == Prefix(a) + Prefix(b)[|Prefix(a)|..]; }
  }

  /** The first slash of a prefixed name is its prefix's. */
  lemma FirstSlash(a: string, x: string)
    requires Slashless(a)
    ensures var s := Prefix(a) + x;
            |s| > |a| && s[|a|] == '/' && s[..|a|] == a && s[|a| + 1..] == x && forall i :: 0 <= i < |a| ==> s[i] != '/'
  {
  }

  /** Without a slash in either id they never do, and a name comes back whole. */
  lemma Apart(a: string, b: string, x: string, y: string)
    requires Slashless(a) && Slashless(b)
    ensures Prefix(a) + x == Prefix(b) + y <==> a == b && x == y
  {
    FirstSlash(a, x);
    FirstSlash(b, y);
  }

  /** Ids with a slash can: "a" running "b/c" and "a/b" running "c". */
  lemma SlashCollides()
    ensures Prefix("a") + "b/c" == Prefix("a/b") + "c"
  {
  }

  // ── prefixing a command ──

  /** prefix_task_keys() at a leaf: keyed work gets the prefix, unkeyed work stays unkeyed, a cancel always gets it. */
  function PrefixLeaf<Msg>(c: Cmd<Msg>, prefix: string): Cmd<Msg> {
    match c
    case Task(key) => if key == "" then c else Task(prefix + key)
    case After(key, delay, msg) => if key == "" then c else After(prefix + key, delay, msg)
    case Cancel(key) => Cancel(prefix + key)
    case _ => c
  }

  function PrefixKeys<Msg>(c: Cmd<Msg>, prefix: string): Cmd<Msg> {
    match c
    case Batch(cmds) => Batch(PrefixAll(cmds, prefix))
    case _ => PrefixLeaf(c, prefix)
  }

  function PrefixAll<Msg>(cmds: seq<Cmd<Msg>>, prefix: string): seq<Cmd<Msg>> {
    if cmds == [] then [] else [PrefixKeys(cmds[0], prefix)] + PrefixAll(cmds[1..], prefix)
  }

  /** The effects of a command, in the order they are interpreted. */
  function Effects<Msg>(c: Cmd<Msg>): seq<Cmd<Msg>>
    decreases c, 1
  {
    match c
    case Batch(cmds) => EffectsAll(cmds)
    case _ => [c]
  }

  function EffectsAll<Msg>(cmds: seq<Cmd<Msg>>): seq<Cmd<Msg>>
    decreases cmds, 0
  {
    if cmds == [] then [] else Effects(cmds[0]) + EffectsAll(cmds[1..])
  }

  function PrefixEach<Msg>(es: seq<Cmd<Msg>>, prefix: string): (r: seq<Cmd<Msg>>)
    ensures |r| == |es|
  {
    seq(|es|, i requires 0 <= i < |es| => PrefixLeaf(es[i], prefix))
  }

  /** Rewriting the tree rewrites each effect, and neither drops, adds nor reorders any. */
  lemma {:induction false} PrefixKeepsEffects<Msg>(c: Cmd<Msg>, prefix: string)
    ensures Effects(PrefixKeys(c, prefix)) == PrefixEach(Effects(c), prefix)
    decreases c, 1
  {
    match c
    case Batch(cmds) => PrefixAllKeeps(cmds, prefix);
    case _ =>
  }

  lemma {:induction false} PrefixAllKeeps<Msg>(cmds: seq<Cmd<Msg>>, prefix: string)
    ensures EffectsAll(PrefixAll(cmds, prefix)) == PrefixEach(EffectsAll(cmds), prefix)
    decreases cmds, 0
  {
    if cmds != [] {
      PrefixKeepsEffects(cmds[0], prefix);
      PrefixAllKeeps(cmds[1..], prefix);
      var all := PrefixAll(cmds, prefix);
      assert all[0] == PrefixKeys(cmds[0], prefix) && all[1..] == PrefixAll(cmds[1..], prefix);
      var a, b := Effects(cmds[0]), EffectsAll(cmds[1..]);
      assert PrefixEach(a + b, prefix) == PrefixEach(a, prefix) + PrefixEach(b, prefix);
    }
  }

  // ── the key table ──

  /** What runs under each key: the effect that started it, without its key. */
  type Table<Msg> = map<string, Cmd<Msg>>

  function Apply<Msg>(t: Table<Msg>, c: Cmd<Msg>): Table<Msg> {
    match c
    case Task(key) => if key == "" then t else t[key := Task("")]
    case After(key, delay, msg) => if key == "" then t else t[key := After("", delay, msg)]
    case Cancel(key) => t - {key}
    case _ => t
  }

  /** An effect and the child it comes from. */
  datatype Turn<+Msg> = Turn(id: string, effect: Cmd<Msg>)

  /** The parent's table after the effects of all children, interleaved. */
  function Together<Msg>(turns: seq<Turn<Msg>>): Table<Msg> {
    if turns == [] then map[]
    else
      var last := turns[|turns| - 1];
      Apply(Together(turns[..|turns| - 1]), PrefixLeaf(last.effect, Prefix(last.id)))
  }

  /** The table one child would have by itself. */
  function Alone<Msg>(turns: seq<Turn<Msg>>, id: string): Table<Msg> {
    if turns == [] then map[]
    else
      var before, last := Alone(turns[..|turns| - 1], id), turns[|turns| - 1];
      if last.id == id then Apply(before, last.effect) else before
  }

  /** The two tables agree on one name of one child. */
  ghost predicate Agree<Msg>(all: Table<Msg>, own: Table<Msg>, id: string, name: string) {
    (Prefix(id) + name in all <==> name in own) && (name in own ==> all[Prefix(id) + name] == own[name])
  }

  /** One effect of one child, seen from a name of any child. */
  lemma ApplyAgrees<Msg>(all: Table<Msg>, own: Table<Msg>, id: string, name: string, who: string, e: Cmd<Msg>)
    requires Slashless(id) && Slashless(who) && Agree(all, own, id, name)
    ensures Agree(Apply(all, PrefixLeaf(e, Prefix(who))), if who == id then Apply(own, e) else own, id, name)
  {
    if (e.Task? || e.After? || e.Cancel?) {
      Apart(who, id, e.key, name);
      assert e.key != "" ==> Prefix(who) + e.key != "";
    }
  }

  ghost predicate AllSlashless<Msg>(turns: seq<Turn<Msg>>) {
    forall i :: 0 <= i < |turns| ==> Slashless(turns[i].id)
  }

  /** Whatever the children do and however their effects are interleaved, each child's part of the key table is the
      table it would have alone: nothing of another child replaces, cancels or adds anything in it. */
  lemma {:induction false} SliceIsAlone<Msg>(turns: seq<Turn<Msg>>, id: string, name: string)
    requires Slashless(id) && AllSlashless(turns)
    ensures Agree(Together(turns), Alone(turns, id), id, name)
  {
    if turns != [] {
      var before, last := turns[..|turns| - 1], turns[|turns| - 1];
      SliceIsAlone(before, id, name);
      assert Slashless(last.id);
      ApplyAgrees(Together(before), Alone(before, id), id, name, last.id, last.effect);
    }
  }

  /** And every key in the table is some child's: unkeyed work never gets one. */
  lemma {:induction false} EveryKeyIsSomebodys<Msg>(turns: seq<Turn<Msg>>, key: string)
    requires key in Together(turns)
    ensures exists i :: 0 <= i < |turns| && StartsWith(key, Prefix(turns[i].id)) && key != Prefix(turns[i].id)
  {
    var before, last := turns[..|turns| - 1], turns[|turns| - 1];
    if key in Together(before) {
      EveryKeyIsSomebodys(before, key);
      var i :| 0 <= i < |before| && StartsWith(key, Prefix(before[i].id)) && key != Prefix(before[i].id);
      assert turns[i] == before[i];
    } else {
      assert key == Prefix(last.id) + last.effect.key && last.effect.key != "";
      assert key[..|Prefix(last.id)|] == Prefix(last.id);
      assert turns[|turns| - 1] == last;
    }
  }

  // ── the kernel's own table does this ──

  /** The kernel's keyed runs are the table's: an `after` by its timer, a task without one. */
  ghost predicate Mirrors<Msg>(runs: map<Slot, Run>, t: Table<Msg>) {
    forall name :: (TaskSlot(name) in runs <==> name in t)
                   && (name in t ==> (runs[TaskSlot(name)].timer.Some? <==> t[name].After?))
  }

  /** Interpreting one effect, its start included. */
  function Interpreted<Model, Msg>(p: Program<Model, Msg>, k: State<Model, Msg>, c: Cmd<Msg>): Tables<Msg>
    requires k.plan == []
  {
    var r := RunEffect(p, k, c);
    if r.plan == [] then r.t else DoOp(r.t, r.plan[0])
  }

  lemma MirrorsSet<Msg>(runs: map<Slot, Run>, t: Table<Msg>, key: string, run: Run, work: Cmd<Msg>)
    requires Mirrors(runs, t) && (run.timer.Some? <==> work.After?)
    ensures Mirrors((runs - {TaskSlot(key)})[TaskSlot(key) := run], t[key := work])
  {
  }

  lemma MirrorsLess<Msg>(runs: map<Slot, Run>, t: Table<Msg>, key: string)
    requires Mirrors(runs, t)
    ensures Mirrors(runs - {TaskSlot(key)}, t - {key})
  {
  }

  lemma StopRunRuns<Msg>(t: Tables<Msg>, slot: Slot)
    ensures StopRun(t, slot).runs == t.runs - {slot}
  {
  }

  lemma KernelFollows<Model, Msg>(p: Program<Model, Msg>, k: State<Model, Msg>, c: Cmd<Msg>, t: Table<Msg>)
    requires k.plan == [] && !c.Batch? && Mirrors(k.t.runs, t)
    ensures Mirrors(Interpreted(p, k, c).runs, Apply(t, c))
  {
    if c.Task? || c.After? || c.Cancel? {
      var slot := TaskSlot(c.key);
      StopRunRuns(k.t, slot);
      var u := StopRun(k.t, slot);
      var o := Run(u.box.last + 1, if c.After? then Some(u.nextTimer) else None);
      if c.Cancel? {
        MirrorsLess(k.t.runs, t, c.key);
      } else if c.key != "" {
        MirrorsSet(k.t.runs, t, c.key, o, if c.Task? then Task("") else After("", c.delay, c.msg));
        assert Interpreted(p, k, c).runs == u.runs[slot := o];
      }
    }
  }

  // ── over whole runs of the kernel ──

  /** The table after some effects. */
  function TableOf<Msg>(es: seq<Cmd<Msg>>): Table<Msg> {
    if es == [] then map[] else Apply(TableOf(es[..|es| - 1]), es[|es| - 1])
  }

  /** The effect that a step interprets. */
  function Ran<Model, Msg>(k: State<Model, Msg>, a: Action<Msg>): seq<Cmd<Msg>> {
    if a.Loop? && k.plan == [] && k.effects != [] && k.exit.None? && !k.effects[0].Batch? then [k.effects[0]] else []
  }

  /** All effects interpreted in the first n steps, in order. */
  function Executed<Model, Msg>(ks: seq<State<Model, Msg>>, acts: seq<Action<Msg>>, n: nat): seq<Cmd<Msg>>
    requires n <= |acts| && n <= |ks|
  {
    if n == 0 then [] else Executed(ks, acts, n - 1) + Ran(ks[n - 1], acts[n - 1])
  }

  predicate KeyedOp<Msg>(op: Op<Msg>) { op.StartTask? || op.Arm? }

  /** The runs, with a keyed start that is planned taken as done. */
  function SettledRuns<Model, Msg>(k: State<Model, Msg>): map<Slot, Run> {
    if k.plan != [] && KeyedOp(k.plan[0]) then DoOp(k.t, k.plan[0]).runs else k.t.runs
  }

  /** A plan is a resubscription's, or one keyed start. */
  ghost predicate PlanIs<Msg>(plan: seq<Op<Msg>>) {
    (|plan| == 1 && KeyedOp(plan[0])) || forall i :: 0 <= i < |plan| ==> !KeyedOp(plan[i])
  }

  lemma MirrorsTasks<Msg>(runs: map<Slot, Run>, runs': map<Slot, Run>, t: Table<Msg>)
    requires Mirrors(runs, t) && TaskRuns(runs) == TaskRuns(runs')
    ensures Mirrors(runs', t)
  {
    forall name
      ensures (TaskSlot(name) in runs' <==> name in t)
              && (name in t ==> (runs'[TaskSlot(name)].timer.Some? <==> t[name].After?))
    {
      assert TaskSlot(name) in runs <==> TaskSlot(name) in TaskRuns(runs);
      assert TaskSlot(name) in runs' <==> TaskSlot(name) in TaskRuns(runs');
    }
  }

  /** A planned operation: a keyed start was already counted, a source's leaves the tasks alone. */
  lemma PlanStepMirrors<Model, Msg>(p: Program<Model, Msg>, k: State<Model, Msg>, t: Table<Msg>)
    requires k.plan != [] && PlanIs(k.plan) && Mirrors(SettledRuns(k), t)
    ensures PlanIs(LoopStep(p, k).plan) && Mirrors(SettledRuns(LoopStep(p, k)), t)
  {
    if !KeyedOp(k.plan[0]) {
      SourceOpKeepsTasks(k.t, k.plan[0]);
      MirrorsTasks(k.t.runs, DoOp(k.t, k.plan[0]).runs, t);
    }
  }

  lemma EffectStepMirrors<Model, Msg>(p: Program<Model, Msg>, k: State<Model, Msg>, t: Table<Msg>)
    requires k.plan == [] && k.effects != [] && k.exit.None? && Mirrors(k.t.runs, t)
    ensures var c, n := k.effects[0], RunEffect(p, k.(effects := k.effects[1..]), k.effects[0]);
            PlanIs(n.plan) && Mirrors(SettledRuns(n), if c.Batch? then t else Apply(t, c))
  {
    var c, k' := k.effects[0], k.(effects := k.effects[1..]);
    if !c.Batch? { KernelFollows(p, k', c, t); }
  }

  lemma PlanOfSources<Msg>(stops: seq<Key>, keeps: seq<Entry<Msg>>, starts: seq<Entry<Msg>>)
    ensures var plan: seq<Op<Msg>> := StopOps(stops) + KeepOps(keeps) + StartOps(starts);
            forall i :: 0 <= i < |plan| ==> !KeyedOp(plan[i])
  {
  }

  /** A step of the loop that neither carries out a plan nor interprets an effect. */
  lemma OtherLoopStep<Model, Msg>(p: Program<Model, Msg>, k: State<Model, Msg>)
    requires Busy(k) && k.plan == [] && (k.effects == [] || k.exit.Some?)
    ensures LoopStep(p, k).t.runs == k.t.runs
            && forall i :: 0 <= i < |LoopStep(p, k).plan| ==> !KeyedOp(LoopStep(p, k).plan[i])
  {
    if k.exit.None? && k.batch != [] && k.folded < p.budget && k.batch[0].from != 0 && k.dirty {
      ResubscribePlans(p, k);
    }
  }

  lemma ResubscribePlans<Model, Msg>(p: Program<Model, Msg>, k: State<Model, Msg>)
    ensures var n := Resubscribe(p, k); n.t == k.t && forall i :: 0 <= i < |n.plan| ==> !KeyedOp(n.plan[i])
  {
    var d := Diff(k.running, p.subscribe(k.model));
    PlanOfSources(d.stop, d.keep, d.start);
  }

  lemma LoopMirrors<Model, Msg>(p: Program<Model, Msg>, k: State<Model, Msg>, t: Table<Msg>)
    requires Busy(k) && PlanIs(k.plan) && Mirrors(SettledRuns(k), t)
    ensures var n := LoopStep(p, k);
            PlanIs(n.plan) && Mirrors(SettledRuns(n), if Ran(k, Loop) == [] then t else Apply(t, k.effects[0]))
  {
    if k.plan != [] {
      PlanStepMirrors(p, k, t);
    } else if k.effects != [] && k.exit.None? {
      EffectStepMirrors(p, k, t);
    } else {
      OtherLoopStep(p, k);
    }
  }

  lemma StepMirrors<Model, Msg>(p: Program<Model, Msg>, k: State<Model, Msg>, a: Action<Msg>, t: Table<Msg>)
    requires Enabled(k, a) && !a.Shutdown? && PlanIs(k.plan) && Mirrors(SettledRuns(k), t)
    ensures var n := Next(p, k, a);
            PlanIs(n.plan) && Mirrors(SettledRuns(n), if Ran(k, a) == [] then t else Apply(t, k.effects[0]))
  {
    if a.Loop? {
      LoopMirrors(p, k, t);
    } else if a.Subscribe? {
      ResubscribePlans(p, k);
    } else {
      QuietStep(p, k, a);
    }
  }

  /** No other step starts or stops a run. */
  lemma QuietStep<Model, Msg>(p: Program<Model, Msg>, k: State<Model, Msg>, a: Action<Msg>)
    requires Enabled(k, a) && !a.Shutdown? && !a.Loop? && !a.Subscribe?
    ensures Next(p, k, a).plan == k.plan && SettledRuns(Next(p, k, a)) == SettledRuns(k)
  {
  }

  /** In every run of the kernel, up to shutdown, the keyed runs are the table of the effects interpreted so far. */
  lemma {:induction false} RunMirrors<Model, Msg>(p: Program<Model, Msg>, ks: seq<State<Model, Msg>>,
                                                  acts: seq<Action<Msg>>, n: nat)
    requires IsRun(p, ks, acts) && n < |ks| && forall i :: 0 <= i < n ==> !acts[i].Shutdown?
    ensures PlanIs(ks[n].plan) && Mirrors(SettledRuns(ks[n]), TableOf(Executed(ks, acts, n)))
  {
    if n > 0 {
      RunMirrors(p, ks, acts, n - 1);
      MirrorsAt(p, ks, acts, n - 1);
    }
  }

  lemma MirrorsAt<Model, Msg>(p: Program<Model, Msg>, ks: seq<State<Model, Msg>>, acts: seq<Action<Msg>>, i: nat)
    requires IsRun(p, ks, acts) && i < |acts| && !acts[i].Shutdown?
    requires PlanIs(ks[i].plan) && Mirrors(SettledRuns(ks[i]), TableOf(Executed(ks, acts, i)))
    ensures PlanIs(ks[i + 1].plan) && Mirrors(SettledRuns(ks[i + 1]), TableOf(Executed(ks, acts, i + 1)))
  {
    var es, more := Executed(ks, acts, i), Ran(ks[i], acts[i]);
    StepMirrors(p, ks[i], acts[i], TableOf(es));
    if more == [] { assert es + more == es; }
    else { assert (es + more)[..|es|] == es; }
  }

  /** The effects of all turns as the parent's kernel sees them, and one child's own. */
  function Lifted<Msg>(turns: seq<Turn<Msg>>): (es: seq<Cmd<Msg>>)
    ensures |es| == |turns|
  {
    seq(|turns|, i requires 0 <= i < |turns| => PrefixLeaf(turns[i].effect, Prefix(turns[i].id)))
  }

  function Own<Msg>(turns: seq<Turn<Msg>>, id: string): seq<Cmd<Msg>> {
    if turns == [] then []
    else
      var last := turns[|turns| - 1];
      Own(turns[..|turns| - 1], id) + if last.id == id then [last.effect] else []
  }

  lemma {:induction false} TablesOfTurns<Msg>(turns: seq<Turn<Msg>>, id: string)
    ensures TableOf(Lifted(turns)) == Together(turns) && TableOf(Own(turns, id)) == Alone(turns, id)
  {
    if turns != [] {
      var front, last := turns[..|turns| - 1], turns[|turns| - 1];
      TablesOfTurns(front, id);
      assert Lifted(turns)[..|turns| - 1] == Lifted(front);
      if last.id == id { assert (Own(front, id) + [last.effect])[..|Own(front, id)|] == Own(front, id); }
      else { assert Own(front, id) + [] == Own(front, id); }
    }
  }

  /** A kernel that runs many children, and a kernel that runs one of them alone and has interpreted the same effects of
      it: under the child's prefix the first runs exactly what the second runs, timers as timers and tasks as tasks. */
  lemma ChildIsAlone<Model, Msg, Model2>(p: Program<Model, Msg>, ks: seq<State<Model, Msg>>,
        acts: seq<Action<Msg>>, n: nat,
      q: Program<Model2, Msg>, js: seq<State<Model2, Msg>>, bcts: seq<Action<Msg>>, m: nat,
      turns: seq<Turn<Msg>>, id: string, name: string)
    requires IsRun(p, ks, acts) && n < |ks| && ks[n].plan == [] && forall i :: 0 <= i < n ==> !acts[i].Shutdown?
    requires IsRun(q, js, bcts) && m < |js| && js[m].plan == [] && forall i :: 0 <= i < m ==> !bcts[i].Shutdown?
    requires AllSlashless(turns) && Slashless(id)
    requires Executed(ks, acts, n) == Lifted(turns) && Executed(js, bcts, m) == Own(turns, id)
    ensures var mine, alone := TaskSlot(Prefix(id) + name), TaskSlot(name);
            && (mine in ks[n].t.runs <==> alone in js[m].t.runs)
            && (alone in js[m].t.runs ==> (ks[n].t.runs[mine].timer.Some? <==> js[m].t.runs[alone].timer.Some?))
  {
    RunMirrors(p, ks, acts, n);
    RunMirrors(q, js, bcts, m);
    TablesOfTurns(turns, id);
    SliceIsAlone(turns, id, name);
    MirrorsAgree(ks[n].t.runs, js[m].t.runs, Together(turns), Alone(turns, id), id, name);
  }

  lemma MirrorsAgree<Msg>(runs: map<Slot, Run>, own: map<Slot, Run>, all: Table<Msg>, one: Table<Msg>, id: string,
        name: string)
    requires Mirrors(runs, all) && Mirrors(own, one) && Agree(all, one, id, name)
    ensures var mine, alone := TaskSlot(Prefix(id) + name), TaskSlot(name);
            && (mine in runs <==> alone in own)
            && (alone in own ==> (runs[mine].timer.Some? <==> own[alone].timer.Some?))
  {
    assert TaskSlot(Prefix(id) + name) in runs <==> Prefix(id) + name in all;
    assert TaskSlot(name) in own <==> name in one;
  }

  // ── streams ──

  /** prefix_streams() at a leaf: only stream keys change. */
  function PrefixStream<Msg>(leaf: Leaf<Msg>, prefix: string): Leaf<Msg> {
    if leaf.Stream? then Stream(prefix + leaf.name) else leaf
  }

  function PrefixStreams<Msg>(leaves: seq<Leaf<Msg>>, prefix: string): seq<Leaf<Msg>> {
    seq(|leaves|, i requires 0 <= i < |leaves| => PrefixStream(leaves[i], prefix))
  }

  /** A child and what it subscribes to. */
  datatype Child<+Msg> = Child(id: string, leaves: seq<Leaf<Msg>>)

  function AllLeaves<Msg>(kids: seq<Child<Msg>>): seq<Leaf<Msg>> {
    if kids == [] then [] else PrefixStreams(kids[0].leaves, Prefix(kids[0].id)) + AllLeaves(kids[1..])
  }

  /** children::subscribe(): every child's subscriptions, batched, a child without any left out. */
  method Subscribe<Msg>(kids: seq<Child<Msg>>) returns (leaves: seq<Leaf<Msg>>)
    ensures leaves == AllLeaves(kids)
  {
    leaves := [];
    var i := 0;
    assert kids[0..] == kids;
    while i < |kids|
      invariant 0 <= i <= |kids| && leaves + AllLeaves(kids[i..]) == AllLeaves(kids)
    {
      var s := kids[i].leaves;
      assert kids[i..][0] == kids[i] && kids[i..][1..] == kids[i + 1..];
      if s != [] {
        leaves := leaves + PrefixStreams(s, Prefix(kids[i].id));
      } else {
        assert PrefixStreams(s, Prefix(kids[i].id)) == [];
      }
      i := i + 1;
    }
  }

  /** A stream is wanted exactly when some leaf asks for it. */
  lemma {:induction false} WantedStream<Msg>(leaves: seq<Leaf<Msg>>, name: string)
    ensures StreamKey(name) in KeySet(Wanted(leaves)) <==> Stream(name) in leaves
  {
    if leaves != [] {
      var before, last := leaves[..|leaves| - 1], leaves[|leaves| - 1];
      WantedStream(before, name);
      KeySetAppend(Wanted(before), Entry(KeyAfter(before, last), last));
      assert leaves == before + [last];
    }
  }

  lemma {:induction false} StreamOf<Msg>(kids: seq<Child<Msg>>, i: nat, name: string)
    requires i < |kids| && (forall j :: 0 <= j < |kids| ==> Slashless(kids[j].id))
    requires forall j, k :: 0 <= j < k < |kids| ==> kids[j].id != kids[k].id
    ensures Stream(Prefix(kids[i].id) + name) in AllLeaves(kids) <==> Stream(name) in kids[i].leaves
    decreases |kids|
  {
    var first, rest := PrefixStreams(kids[0].leaves, Prefix(kids[0].id)), AllLeaves(kids[1..]);
    PrefixedStream(kids[0].leaves, kids[0].id, kids[i].id, name);
    if i > 0 { StreamOf(kids[1..], i - 1, name); }
    else { NotInOthers(kids[1..], kids[0].id, name); }
  }

  lemma PrefixedStream<Msg>(leaves: seq<Leaf<Msg>>, who: string, id: string, name: string)
    requires Slashless(who) && Slashless(id)
    ensures Stream(Prefix(id) + name) in PrefixStreams(leaves, Prefix(who)) <==> who == id && Stream(name) in leaves
  {
    var ls := PrefixStreams(leaves, Prefix(who));
    if Stream(Prefix(id) + name) in ls {
      var j :| 0 <= j < |ls| && ls[j] == Stream(Prefix(id) + name);
      Apart(who, id, leaves[j].name, name);
    }
    if who == id && Stream(name) in leaves {
      var j :| 0 <= j < |leaves| && leaves[j] == Stream(name);
      assert ls[j] == Stream(Prefix(id) + name);
    }
  }

  lemma {:induction false} NotInOthers<Msg>(kids: seq<Child<Msg>>, id: string, name: string)
    requires Slashless(id) && (forall j :: 0 <= j < |kids| ==> Slashless(kids[j].id) && kids[j].id != id)
    ensures Stream(Prefix(id) + name) !in AllLeaves(kids)
  {
    if kids != [] {
      PrefixedStream(kids[0].leaves, kids[0].id, id, name);
      NotInOthers(kids[1..], id, name);
    }
  }

  /** The streams that run for a child are the ones its own subscriptions ask for, whatever its siblings ask for. */
  lemma StreamsAreOwn<Msg>(kids: seq<Child<Msg>>, i: nat, name: string)
    requires i < |kids| && (forall j :: 0 <= j < |kids| ==> Slashless(kids[j].id))
    requires forall j, k :: 0 <= j < k < |kids| ==> kids[j].id != kids[k].id
    ensures StreamKey(Prefix(kids[i].id) + name) in KeySet(Wanted(AllLeaves(kids))) <==>
            StreamKey(name) in KeySet(Wanted(kids[i].leaves))
  {
    StreamOf(kids, i, name);
    WantedStream(AllLeaves(kids), Prefix(kids[i].id) + name);
    WantedStream(kids[i].leaves, name);
  }
}
