/** The parts fit the kernel's model: collecting what is due from the timer heap is a run of the kernel's own `Fire`
  steps, and draining the mailbox hands over what the kernel's `Drain` step says. */
module Composition {
  import opened Wrappers
  import opened Messages
  import opened KernelModel
  import opened KernelTheorems
  import Clock
  import H = TimerHeap
  import M = Mailbox

  // ── the heap under the kernel ──

  /** The kernel's numbers for the heap's ids: the same timers under other names. */
  ghost predicate Named<Msg>(h: map<H.Id, H.Timer<Queued<Msg>>>, t: map<nat, Timer<Msg>>, name: map<H.Id, nat>) {
    && (forall a, b :: a in name && b in name && name[a] == name[b] ==> a == b)
    && (forall id :: id in h ==>
          id in name && name[id] in t && t[name[id]] == Timer(h[id].when, h[id].period, h[id].payload))
    && (forall n :: n in t ==> Has(h, name, n))
  }

  ghost predicate Has<P>(h: map<H.Id, H.Timer<P>>, name: map<H.Id, nat>, n: nat) {
    exists id :: id in h && id in name && name[id] == n
  }

  /** What the kernel's Fire step does to its timers. */
  function FiredAt<Msg>(t: map<nat, Timer<Msg>>, n: nat, now: int): map<nat, Timer<Msg>>
    requires n in t
  {
    if t[n].period > 0 then t[n := t[n].(when := Clock.Rearm(t[n].when, t[n].period, now))] else t - {n}
  }

  lemma FireNamed<Msg>(h: map<H.Id, H.Timer<Queued<Msg>>>, t: map<nat, Timer<Msg>>, name: map<H.Id, nat>, id: H.Id,
        now: int)
    requires Named(h, t, name) && id in h
    ensures Named(H.Fired(h, id, now), FiredAt(t, name[id], now), name)
  {
    var h', t' := H.Fired(h, id, now), FiredAt(t, name[id], now);
    forall n | n in t' ensures Has(h', name, n) {
      assert Has(h, name, n);
      var o :| o in h && o in name && name[o] == n;
      assert o in h';
    }
  }

  /** The loop may fire timers: it runs, and is between phases. */
  predicate Quiet<Model, Msg>(k: State<Model, Msg>) { !k.down && !Busy(k) && k.exit.None? }

  /** A kernel run of Fire steps, one per id. */
  ghost predicate Fires<Model, Msg>(p: Program<Model, Msg>, ks: seq<State<Model, Msg>>, ids: seq<nat>) {
    && |ks| == |ids| + 1
    && forall i :: 0 <= i < |ids| ==> Enabled(ks[i], Fire(ids[i])) && ks[i + 1] == Next(p, ks[i], Fire(ids[i]))
  }

  function Ids(fired: seq<H.Id>, n: nat): set<H.Id>
    requires n <= |fired|
  {
    set i | 0 <= i < n :: fired[i]
  }

  lemma FireStep<Model, Msg>(p: Program<Model, Msg>, k: State<Model, Msg>, n: nat)
    requires Quiet(k) && n in k.t.timers && k.t.timers[n].when <= k.t.now
    ensures Enabled(k, Fire(n))
    ensures Next(p, k, Fire(n)) ==
            k.(pending := k.pending + [k.t.timers[n].payload], t := k.t.(timers := FiredAt(k.t.timers, n, k.t.now)))
  {
  }

  /** The next due timer has not fired yet. */
  lemma NextDue<P>(h: map<H.Id, H.Timer<P>>, h': map<H.Id, H.Timer<P>>, fired: seq<H.Id>, n: nat, now: int)
    requires H.DueInOrder(h, now, fired) && n < |fired| && now < Clock.MAX && H.Effect(h, h', Ids(fired, n), now)
    ensures fired[n] in h && fired[n] in h' && h'[fired[n]] == h[fired[n]] && h[fired[n]].when <= now
    ensures H.Effect(h, H.Fired(h', fired[n], now), Ids(fired, n + 1), now)
  {
    var id := fired[n];
    assert id in H.DueSet(h, now) && id !in Ids(fired, n);
    H.FireEffect(h, h', Ids(fired, n), now, id);
    assert Ids(fired, n + 1) == Ids(fired, n) + {id};
  }

  /** One more fire, seen from the two maps. */
  lemma MapStep<Msg>(h: map<H.Id, H.Timer<Queued<Msg>>>, h': map<H.Id, H.Timer<Queued<Msg>>>, t: map<nat, Timer<Msg>>,
      name: map<H.Id, nat>, fired: seq<H.Id>, out: seq<Queued<Msg>>, n: nat, now: int)
    requires now < Clock.MAX && n < |fired| && H.DueInOrder(h, now, fired) && H.Paid(h, fired, out)
    requires Named(h', t, name) && H.Effect(h, h', Ids(fired, n), now)
    ensures fired[n] in name && fired[n] in h' && name[fired[n]] in t
    ensures var m := name[fired[n]];
            && t[m].when <= now && t[m].payload == out[n]
            && Named(H.Fired(h', fired[n], now), FiredAt(t, m, now), name)
            && H.Effect(h, H.Fired(h', fired[n], now), Ids(fired, n + 1), now)
  {
    NextDue(h, h', fired, n, now);
    FireNamed(h', t, name, fired[n], now);
  }

  /** One more fire, seen from the kernel's state. */
  lemma StateStep<Model, Msg>(p: Program<Model, Msg>, k: State<Model, Msg>, out: seq<Queued<Msg>>, n: nat,
      t: map<nat, Timer<Msg>>, m: nat)
    requires Quiet(k) && n < |out| && m in t && t[m].when <= k.t.now && t[m].payload == out[n]
    ensures var last := k.(pending := k.pending + out[..n], t := k.t.(timers := t));
            && Enabled(last, Fire(m))
            && Next(p, last, Fire(m))
                == k.(pending := k.pending + out[..n + 1], t := k.t.(timers := FiredAt(t, m, k.t.now)))
  {
    FireStep(p, k.(pending := k.pending + out[..n], t := k.t.(timers := t)), m);
    assert k.pending + out[..n + 1] == (k.pending + out[..n]) + [out[n]];
  }

  /** The kernel's timers through a run of fires: each timer is there, due, and holds the message it sends. */
  ghost predicate FireChain<Msg>(ts: seq<map<nat, Timer<Msg>>>, ids: seq<nat>, out: seq<Queued<Msg>>, now: int) {
    && |ts| == |ids| + 1 && |out| == |ids|
    && forall i :: 0 <= i < |ids| ==>
         && ids[i] in ts[i] && ts[i][ids[i]].when <= now && ts[i][ids[i]].payload == out[i]
         && ts[i + 1] == FiredAt(ts[i], ids[i], now)
  }

  /** The names of what fired. */
  ghost predicate NamesOf(fired: seq<H.Id>, name: map<H.Id, nat>, ids: seq<nat>) {
    |ids| == |fired| && forall i :: 0 <= i < |ids| ==> fired[i] in name && ids[i] == name[fired[i]]
  }

  /** One more of the timers that fired. */
  lemma ChainMore<Msg>(ts: seq<map<nat, Timer<Msg>>>, ids: seq<nat>, name: map<H.Id, nat>, fired: seq<H.Id>,
      out: seq<Queued<Msg>>, now: int, n: nat)
    returns (ts': seq<map<nat, Timer<Msg>>>, ids': seq<nat>)
    requires n < |fired| == |out| && NamesOf(fired[..n], name, ids) && FireChain(ts, ids, out[..n], now)
             && fired[n] in name
    requires var m := name[fired[n]]; m in ts[n] && ts[n][m].when <= now && ts[n][m].payload == out[n]
    ensures NamesOf(fired[..n + 1], name, ids') && FireChain(ts', ids', out[..n + 1], now)
    ensures ts'[0] == ts[0] && ts'[n + 1] == FiredAt(ts[n], name[fired[n]], now)
  {
    var m := name[fired[n]];
    ts', ids' := ts + [FiredAt(ts[n], m, now)], ids + [m];
    assert out[..n + 1] == out[..n] + [out[n]] && fired[..n + 1] == fired[..n] + [fired[n]];
  }

  /** The first n fires of a collection, in the kernel's names. */
  ghost predicate Chained<Msg>(h: map<H.Id, H.Timer<Queued<Msg>>>, t: map<nat, Timer<Msg>>, name: map<H.Id, nat>,
      fired: seq<H.Id>, out: seq<Queued<Msg>>, now: int, n: nat, ts: seq<map<nat, Timer<Msg>>>, ids: seq<nat>,
      h': map<H.Id, H.Timer<Queued<Msg>>>)
    requires n <= |fired| == |out|
  {
    && NamesOf(fired[..n], name, ids) && FireChain(ts, ids, out[..n], now) && ts[0] == t
    && Named(h', ts[n], name) && H.Effect(h, h', Ids(fired, n), now)
  }

  lemma ChainStart<Msg>(h: map<H.Id, H.Timer<Queued<Msg>>>, t: map<nat, Timer<Msg>>, name: map<H.Id, nat>,
        fired: seq<H.Id>,
      out: seq<Queued<Msg>>, now: int)
    requires |fired| == |out| && Named(h, t, name)
    ensures Chained(h, t, name, fired, out, now, 0, [t], [], h)
  {
    H.Started(h, now);
    assert Ids(fired, 0) == {};
  }

  lemma ChainStep<Msg>(h: map<H.Id, H.Timer<Queued<Msg>>>, t: map<nat, Timer<Msg>>, name: map<H.Id, nat>,
        fired: seq<H.Id>,
      out: seq<Queued<Msg>>, now: int, n: nat, ts: seq<map<nat, Timer<Msg>>>, ids: seq<nat>,
      h': map<H.Id, H.Timer<Queued<Msg>>>)
    returns (ts': seq<map<nat, Timer<Msg>>>, ids': seq<nat>)
    requires now < Clock.MAX && H.DueInOrder(h, now, fired) && H.Paid(h, fired, out) && n < |fired|
    requires Chained(h, t, name, fired, out, now, n, ts, ids, h')
    ensures fired[n] in h' && Chained(h, t, name, fired, out, now, n + 1, ts', ids', H.Fired(h', fired[n], now))
  {
    MapStep(h, h', ts[n], name, fired, out, n, now);
    ts', ids' := ChainMore(ts, ids, name, fired, out, now, n);
  }

  lemma {:induction false} ChainOf<Msg>(h: map<H.Id, H.Timer<Queued<Msg>>>, t: map<nat, Timer<Msg>>,
        name: map<H.Id, nat>,
      fired: seq<H.Id>, out: seq<Queued<Msg>>, now: int, n: nat)
    returns (ts: seq<map<nat, Timer<Msg>>>, ids: seq<nat>, h': map<H.Id, H.Timer<Queued<Msg>>>)
    requires now < Clock.MAX && H.DueInOrder(h, now, fired) && H.Paid(h, fired, out) && Named(h, t, name)
             && n <= |fired|
    ensures Chained(h, t, name, fired, out, now, n, ts, ids, h')
    decreases n
  {
    if n == 0 {
      ts, ids, h' := [t], [], h;
      ChainStart(h, t, name, fired, out, now);
    } else {
      ts, ids, h' := ChainOf(h, t, name, fired, out, now, n - 1);
      ts, ids := ChainStep(h, t, name, fired, out, now, n - 1, ts, ids, h');
      h' := H.Fired(h', fired[n - 1], now);
    }
  }

  /** The kernel's state after i of the fires. */
  function StateAt<Model, Msg>(k: State<Model, Msg>, ts: seq<map<nat, Timer<Msg>>>, out: seq<Queued<Msg>>,
        i: nat): State<Model, Msg>
    requires i < |ts| && i <= |out|
  {
    k.(pending := k.pending + out[..i], t := k.t.(timers := ts[i]))
  }

  lemma ChainFires<Model, Msg>(p: Program<Model, Msg>, k: State<Model, Msg>, ts: seq<map<nat, Timer<Msg>>>,
        ids: seq<nat>,
      out: seq<Queued<Msg>>)
    returns (ks: seq<State<Model, Msg>>)
    requires Quiet(k) && FireChain(ts, ids, out, k.t.now) && ts[0] == k.t.timers
    ensures Fires(p, ks, ids) && ks[0] == k && ks[|ids|] == StateAt(k, ts, out, |ids|)
  {
    ks := seq(|ts|, i requires 0 <= i < |ts| => StateAt(k, ts, out, i));
    assert k.pending + out[..0] == k.pending;
    forall i | 0 <= i < |ids| ensures Enabled(ks[i], Fire(ids[i])) && ks[i + 1] == Next(p, ks[i], Fire(ids[i])) {
      StateStep(p, k, out, i, ts[i], ids[i]);
    }
  }

  lemma AllFired<P>(h: map<H.Id, H.Timer<P>>, h': map<H.Id, H.Timer<P>>, fired: seq<H.Id>, now: int)
    requires H.DueInOrder(h, now, fired) && H.Effect(h, h', Ids(fired, |fired|), now)
    ensures h' == H.Collected(h, now)
  {
    forall id | id in h ensures h[id].when <= now <==> id in Ids(fired, |fired|) {
      if h[id].when <= now {
        assert id in H.DueSet(h, now);
        var i :| 0 <= i < |fired| && fired[i] == id;
      }
    }
  }

  /** What collect_due() does to the heap is a run of the kernel's Fire steps, one per due timer, earliest first: the
      same messages join the queue in the same order, the same timers are left, and nothing else changes. */
  lemma CollectIsFires<Model, Msg>(p: Program<Model, Msg>, k: State<Model, Msg>, h: map<H.Id, H.Timer<Queued<Msg>>>,
      name: map<H.Id, nat>, fired: seq<H.Id>, out: seq<Queued<Msg>>)
    returns (ks: seq<State<Model, Msg>>, ids: seq<nat>)
    requires Quiet(k) && Named(h, k.t.timers, name) && k.t.now < Clock.MAX
    requires H.DueInOrder(h, k.t.now, fired) && H.Paid(h, fired, out)
    ensures NamesOf(fired, name, ids) && Fires(p, ks, ids) && ks[0] == k
    ensures var last := ks[|fired|];
            last == k.(pending := k.pending + out, t := k.t.(timers := last.t.timers))
            && Named(H.Collected(h, k.t.now), last.t.timers, name)
  {
    var n := |fired|;
    var ts, h';
    ts, ids, h' := ChainOf(h, k.t.timers, name, fired, out, k.t.now, n);
    assert fired[..n] == fired && out[..n] == out;
    ks := ChainFires(p, k, ts, ids, out);
    AllFired(h, h', fired, k.t.now);
  }

  // ── the mailbox under the kernel ──

  /** What drain_tagged() delivers is what the kernel's Drain step appends. */
  lemma {:induction false} DrainIsUnretired<Msg>(box: Box<Msg>, es: seq<Queued<Msg>>)
    ensures M.With(M.Judged(es, box.live, box.last), M.Delivered) == Unretired(box, es)
  {
    if es != [] {
      var front, e := es[..|es| - 1], es[|es| - 1];
      DrainIsUnretired(box, front);
      assert M.Judged(es, box.live, box.last)[..|es| - 1] == M.Judged(front, box.live, box.last);
      DrainKeepsOrder(box, front, [e]);
      assert es == front + [e];
    } else {
      assert M.Judged(es, box.live, box.last) == [];
    }
  }
}
