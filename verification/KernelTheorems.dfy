/** What the kernel promises over whole runs, in every interleaving of senders and the loop. */
module KernelTheorems {
  import opened Wrappers
  import opened Messages
  import opened Sources
  import opened KernelModel
  import opened KernelInvariant

  // ── stale messages never reach update() ──

  /** The source with this origin is running, and if it is a subscription the current model asks for it. */
  ghost predicate RunsFor<Model, Msg>(p: Program<Model, Msg>, k: State<Model, Msg>, o: Origin) {
    exists s :: s in k.t.runs && k.t.runs[s].origin == o
      && (s.SourceSlot? ==> s.key in KeySet(Wanted(p.subscribe(k.model))))
  }

  /** fold_pending() has the subscriptions up to date and is looking at a message of some source. */
  ghost predicate Decides<Model, Msg>(p: Program<Model, Msg>, k: State<Model, Msg>) {
    && k.folding && k.plan == [] && k.effects == [] && k.exit.None? && k.batch != [] && k.folded < p.budget
    && k.batch[0].from != 0 && !k.dirty
  }

  /** A message of a source is folded exactly when that source is running for the very model the message
      is about to change; otherwise it is dropped and the model is untouched. */
  lemma FoldIffRunning<Model, Msg>(p: Program<Model, Msg>, ks: seq<State<Model, Msg>>, acts: seq<Action<Msg>>, i: nat)
    requires IsRun(p, ks, acts) && i < |acts| && acts[i].Loop? && Decides(p, ks[i])
    ensures Folds(p, ks[i]) <==> RunsFor(p, ks[i], ks[i].batch[0].from)
    ensures Folds(p, ks[i]) ==> ks[i + 1].record == ks[i].record + [ks[i].batch[0].msg]
    ensures !Folds(p, ks[i]) ==> ks[i + 1].record == ks[i].record && ks[i + 1].model == ks[i].model
  {
    var k := ks[i];
    RunInv(p, ks, acts, i);
    assert AfterPlan(k.t.runs.Keys, k.plan) == k.t.runs.Keys;
    if k.batch[0].from in k.t.live {
      var s :| s in k.t.runs && k.t.runs[s].origin == k.batch[0].from;
      if s.SourceSlot? {
        assert s in OnlySources(k.t.runs.Keys);
        assert s in SourceSlots(KeySet(k.running));
      }
    }
  }

  /** Nothing with an origin is ever folded except by such a decision: no other step calls update(). */
  lemma OnlyFoldsRecord<Model, Msg>(p: Program<Model, Msg>, k: State<Model, Msg>, a: Action<Msg>)
    requires Enabled(k, a) && !(a.Loop? && Folds(p, k))
    ensures var n := Next(p, k, a); n.record == k.record && n.model == k.model
  {
  }

  /** Handed out once and no longer running. */
  predicate Dead<Model, Msg>(k: State<Model, Msg>, o: Origin) { DeadIn(k.t, o) }

  /** The same, of the tables alone. */
  predicate DeadIn<Msg>(t: Tables<Msg>, o: Origin) { 0 < o <= t.box.last && o !in t.live }

  lemma DeadOp<Msg>(t: Tables<Msg>, op: Op<Msg>, o: Origin)
    requires DeadIn(t, o)
    ensures DeadIn(DoOp(t, op), o)
  {
  }

  lemma DeadEffect<Model, Msg>(p: Program<Model, Msg>, k: State<Model, Msg>, c: Cmd<Msg>, o: Origin)
    requires k.plan == [] && DeadIn(k.t, o)
    ensures DeadIn(RunEffect(p, k, c).t, o)
  {
  }

  lemma DeadLoop<Model, Msg>(p: Program<Model, Msg>, k: State<Model, Msg>, o: Origin)
    requires Busy(k) && DeadIn(k.t, o)
    ensures DeadIn(LoopStep(p, k).t, o)
  {
    if k.plan != [] { DeadOp(k.t, k.plan[0], o); }
    else if k.effects != [] && k.exit.None? { DeadEffect(p, k.(effects := k.effects[1..]), k.effects[0], o); }
  }

  lemma DeadStays<Model, Msg>(p: Program<Model, Msg>, k: State<Model, Msg>, a: Action<Msg>, o: Origin)
    requires Enabled(k, a) && Dead(k, o)
    ensures Dead(Next(p, k, a), o)
  {
    if a.Loop? { DeadLoop(p, k, o); }
  }

  /** One step of a run. */
  lemma DeadAt<Model, Msg>(p: Program<Model, Msg>, ks: seq<State<Model, Msg>>, acts: seq<Action<Msg>>, i: nat,
        o: Origin)
    requires IsRun(p, ks, acts) && i < |acts| && Dead(ks[i], o)
    ensures Dead(ks[i + 1], o)
  {
    DeadStays(p, ks[i], acts[i], o);
  }

  lemma {:induction false} DeadForever<Model, Msg>(p: Program<Model, Msg>, ks: seq<State<Model, Msg>>,
                                                   acts: seq<Action<Msg>>, i: nat, j: nat, o: Origin)
    requires IsRun(p, ks, acts) && i <= j < |ks| && Dead(ks[i], o)
    ensures Dead(ks[j], o)
    decreases j - i
  {
    if i < j {
      DeadAt(p, ks, acts, i, o);
      DeadForever(p, ks, acts, i + 1, j, o);
    }
  }

  /** Once an origin is retired, no later step of any run folds a message of it: not one that was already
      posted, drained, fired or batched, and not one posted afterwards. */
  lemma RetiredStaysOut<Model, Msg>(p: Program<Model, Msg>, ks: seq<State<Model, Msg>>, acts: seq<Action<Msg>>,
                                    i: nat, j: nat, o: Origin)
    requires IsRun(p, ks, acts) && i <= j < |acts| && Dead(ks[i], o)
    ensures acts[j].Loop? && Folds(p, ks[j]) ==> ks[j].batch[0].from != o
    ensures acts[j].Post? && !ks[j].down ==> acts[j].from != o
    ensures acts[j].Fire? ==> ks[j].t.timers[acts[j].id].payload.from != o
  {
    DeadForever(p, ks, acts, i, j, o);
    RunInv(p, ks, acts, j);
  }

  /** drain() hands over every message of a live origin as often as it was queued, and none of a retired one. */
  lemma {:induction false} DrainDropsRetired<Msg>(box: Box<Msg>, queue: seq<Queued<Msg>>, q: Queued<Msg>)
    ensures multiset(Unretired(box, queue))[q] ==
            if q.from != 0 && Retired(box, q.from) then 0 else multiset(queue)[q]
  {
    if queue != [] {
      DrainDropsRetired(box, queue[1..], q);
      assert queue == [queue[0]] + queue[1..];
    }
  }

  /** And in the order they were queued: a queue in two parts is handed over in those parts. */
  lemma {:induction false} DrainKeepsOrder<Msg>(box: Box<Msg>, a: seq<Queued<Msg>>, b: seq<Queued<Msg>>)
    ensures Unretired(box, a + b) == Unretired(box, a) + Unretired(box, b)
    decreases |a|
  {
    if a == [] {
      assert a + b == b;
    } else {
      assert (a + b)[0] == a[0] && (a + b)[1..] == a[1..] + b;
      DrainKeepsOrder(box, a[1..], b);
    }
  }

  // ── the record is the run ──

  /** Folding a record with no effects run. */
  function Replay<Model, Msg>(p: Program<Model, Msg>, m: Model, record: seq<Msg>): Model {
    if record == [] then m
    else p.update(Replay(p, m, record[..|record| - 1]), record[|record| - 1]).0
  }

  /** In every run the model is the replay of what was recorded, from the starting model. */
  lemma {:induction false} RecordReplays<Model, Msg>(p: Program<Model, Msg>, ks: seq<State<Model, Msg>>,
                                                     acts: seq<Action<Msg>>, i: nat)
    requires IsRun(p, ks, acts) && i < |ks|
    ensures ks[i].model == Replay(p, ks[0].model, ks[i].record)
  {
    if i > 0 {
      RecordReplays(p, ks, acts, i - 1);
      var k, a := ks[i - 1], acts[i - 1];
      if a.Loop? && Folds(p, k) {
        assert ks[i].record[..|ks[i].record| - 1] == k.record;
      } else {
        OnlyFoldsRecord(p, k, a);
      }
    }
  }

  /** A record splits at any snapshot. */
  lemma {:induction false} ReplaySplits<Model, Msg>(p: Program<Model, Msg>, m: Model, before: seq<Msg>, since: seq<Msg>)
    ensures Replay(p, m, before + since) == Replay(p, Replay(p, m, before), since)
    decreases |since|
  {
    if since == [] {
      assert before + since == before;
    } else {
      var front := since[..|since| - 1];
      assert (before + since)[..|before + since| - 1] == before + front;
      ReplaySplits(p, m, before, front);
    }
  }

  // ── quitting ──

  ghost predicate SourceOps<Msg>(plan: seq<Op<Msg>>) {
    forall i :: 0 <= i < |plan| ==> plan[i].StopSource? || plan[i].KeepSource? || plan[i].StartSource?
  }

  ghost function TaskRuns(runs: map<Slot, Run>): map<Slot, Run> {
    map s | s in runs && s.TaskSlot? :: runs[s]
  }

  ghost predicate Quitting<Model, Msg>(k: State<Model, Msg>) { k.exit.Some? && SourceOps(k.plan) }

  lemma {:induction false} ExitPlans<Model, Msg>(p: Program<Model, Msg>, ks: seq<State<Model, Msg>>,
                                                 acts: seq<Action<Msg>>, i: nat)
    requires IsRun(p, ks, acts) && i < |ks| && ks[i].exit.Some?
    ensures Quitting(ks[i])
  {
    if i > 0 {
      var k := ks[i - 1];
      if k.exit.Some? { ExitPlans(p, ks, acts, i - 1); QuitStep(p, k, acts[i - 1]); }
      else { QuitArises(p, k, acts[i - 1]); }
    }
  }

  lemma QuitArises<Model, Msg>(p: Program<Model, Msg>, k: State<Model, Msg>, a: Action<Msg>)
    requires Enabled(k, a) && k.exit.None? && Next(p, k, a).exit.Some?
    ensures Next(p, k, a).plan == []
  {
  }

  lemma SourceOpKeepsTasks<Msg>(t: Tables<Msg>, op: Op<Msg>)
    requires op.StopSource? || op.KeepSource? || op.StartSource?
    ensures TaskRuns(DoOp(t, op).runs) == TaskRuns(t.runs)
  {
  }

  /** After a quit no step folds, interprets an effect, or changes the exit code. */
  lemma QuitStep<Model, Msg>(p: Program<Model, Msg>, k: State<Model, Msg>, a: Action<Msg>)
    requires Enabled(k, a) && Quitting(k)
    ensures var n := Next(p, k, a);
            Quitting(n) && n.exit == k.exit && n.record == k.record && n.model == k.model && n.asked == k.asked
    ensures !Next(p, k, a).down ==> TaskRuns(Next(p, k, a).t.runs) == TaskRuns(k.t.runs)
  {
    if a.Loop? && k.plan != [] {
      SourceOpKeepsTasks(k.t, k.plan[0]);
    }
  }

  /** The first exit code stays, and nothing later is folded or interpreted. */
  lemma {:induction false} QuitIsFinal<Model, Msg>(p: Program<Model, Msg>, ks: seq<State<Model, Msg>>,
                                                   acts: seq<Action<Msg>>, i: nat, j: nat)
    requires IsRun(p, ks, acts) && i <= j < |ks| && ks[i].exit.Some?
    ensures ks[j].exit == ks[i].exit && ks[j].record == ks[i].record && ks[j].model == ks[i].model
    ensures ks[j].asked == ks[i].asked
  {
    if i < j {
      QuitIsFinal(p, ks, acts, i, j - 1);
      ExitPlans(p, ks, acts, j - 1);
      QuitStep(p, ks[j - 1], acts[j - 1]);
    }
  }
}
