/** The mailbox under its lock (`mailbox.hpp`): a flat buffer whose evicted prefix is skipped by `head`, a capacity
  with three overflow policies, and origins that can be retired. Each method is one lock-protected region. What
  happened to every accepted message is kept in a ghost history, so that nothing can be lost, doubled or reordered. */
module Mailbox {
  import opened Messages

  datatype Fate = Delivered | Evicted | Retired | Discarded

  /** An accepted message that has left the queue, and how. */
  datatype Past<+Msg> = Past(entry: Queued<Msg>, fate: Fate)

  function Entries<Msg>(past: seq<Past<Msg>>): (es: seq<Queued<Msg>>)
    ensures |es| == |past|
  {
    seq(|past|, i requires 0 <= i < |past| => past[i].entry)
  }

  /** The entries that met this fate, in order. */
  function With<Msg>(past: seq<Past<Msg>>, fate: Fate): seq<Queued<Msg>> {
    if past == [] then []
    else
      var last := past[|past| - 1];
      With(past[..|past| - 1], fate) + if last.fate == fate then [last.entry] else []
  }

  function All<Msg>(es: seq<Queued<Msg>>, fate: Fate): seq<Past<Msg>> {
    seq(|es|, i requires 0 <= i < |es| => Past(es[i], fate))
  }

  predicate Stays(from: nat, live: set<nat>, last: nat) { from == 0 || !IsRetired(from, live, last) }

  /** What a drain decides for each queued entry. */
  function Judged<Msg>(es: seq<Queued<Msg>>, live: set<nat>, last: nat): seq<Past<Msg>> {
    seq(|es|, i requires 0 <= i < |es| => Past(es[i], if Stays(es[i].from, live, last) then Delivered else Retired))
  }

  // ── the history ──

  lemma EntriesAppend<Msg>(a: seq<Past<Msg>>, b: seq<Past<Msg>>)
    ensures Entries(a + b) == Entries(a) + Entries(b)
  {
  }

  lemma EntriesAll<Msg>(es: seq<Queued<Msg>>, fate: Fate)
    ensures Entries(All(es, fate)) == es
  {
  }

  lemma EntriesJudged<Msg>(es: seq<Queued<Msg>>, live: set<nat>, last: nat)
    ensures Entries(Judged(es, live, last)) == es
  {
  }

  lemma WithMore<Msg>(past: seq<Past<Msg>>, p: Past<Msg>, fate: Fate)
    ensures With(past + [p], fate) == With(past, fate) + if p.fate == fate then [p.entry] else []
  {
    assert (past + [p])[..|past|] == past;
  }

  lemma {:induction false} WithAppend<Msg>(a: seq<Past<Msg>>, b: seq<Past<Msg>>, fate: Fate)
    ensures With(a + b, fate) == With(a, fate) + With(b, fate)
    decreases |b|
  {
    if b == [] {
      assert a + b == a;
    } else {
      var front, last := b[..|b| - 1], b[|b| - 1];
      assert a + b == (a + front) + [last];
      WithMore(a + front, last, fate);
      WithAppend(a, front, fate);
    }
  }

  lemma {:induction false} WithAll<Msg>(es: seq<Queued<Msg>>, fate: Fate, asked: Fate)
    ensures With(All(es, fate), asked) == if fate == asked then es else []
  {
    if es != [] {
      var front := es[..|es| - 1];
      assert All(es, fate) == All(front, fate) + [Past(es[|es| - 1], fate)];
      WithMore(All(front, fate), Past(es[|es| - 1], fate), asked);
      WithAll(front, fate, asked);
    }
  }

  /** Every message that left is accounted for once. */
  lemma {:induction false} FatesPartition<Msg>(past: seq<Past<Msg>>)
    ensures |past| == |With(past, Delivered)| + |With(past, Evicted)| + |With(past, Retired)| + |With(past, Discarded)|
  {
    if past != [] { FatesPartition(past[..|past| - 1]); }
  }

  lemma {:induction false} NoneJudged<Msg>(es: seq<Queued<Msg>>, live: set<nat>, last: nat)
    ensures var p := Judged(es, live, last);
            With(p, Evicted) == [] && With(p, Discarded) == [] && |With(p, Delivered)| + |With(p, Retired)| == |es|
  {
    if es != [] {
      var front := es[..|es| - 1];
      assert Judged(es, live, last)[..|es| - 1] == Judged(front, live, last);
      NoneJudged(front, live, last);
    }
  }

  /** Nothing from a retired origin leaves a drain, and everything else does, as often as it was queued. */
  lemma {:induction false} DrainedAreLive<Msg>(es: seq<Queued<Msg>>, live: set<nat>, last: nat, e: Queued<Msg>)
    ensures multiset(With(Judged(es, live, last), Delivered))[e]
            == if Stays(e.from, live, last) then multiset(es)[e] else 0
  {
    if es != [] {
      var front := es[..|es| - 1];
      assert Judged(es, live, last)[..|es| - 1] == Judged(front, live, last);
      DrainedAreLive(front, live, last, e);
      assert es == front + [es[|es| - 1]];
    }
  }

  /** One more entry of the buffer through the drain's filter. */
  lemma JudgedMore<Msg>(es: seq<Queued<Msg>>, i: nat, live: set<nat>, last: nat)
    requires i < |es|
    ensures With(Judged(es[..i + 1], live, last), Delivered) ==
            With(Judged(es[..i], live, last), Delivered) + if Stays(es[i].from, live, last) then [es[i]] else []
  {
    assert Judged(es[..i + 1], live, last)[..i] == Judged(es[..i], live, last);
  }

  /** std::erase_if over the drained buffer. */
  method EraseRetired<Msg>(es: seq<Queued<Msg>>, live: set<nat>, last: nat) returns (out: seq<Queued<Msg>>)
    ensures out == With(Judged(es, live, last), Delivered)
  {
    out := [];
    var i := 0;
    assert Judged(es[..0], live, last) == [];
    while i < |es|
      invariant 0 <= i <= |es|
      invariant out == With(Judged(es[..i], live, last), Delivered)
    {
      JudgedMore(es, i, live, last);
      if Stays(es[i].from, live, last) { out := out + [es[i]]; }
      i := i + 1;
    }
    assert es[..i] == es;
  }

  // ── the invariants, each over its own components ──

  /** accepted = what left, in order, and then what is still queued, in order. */
  ghost predicate Conserved<Msg>(accepted: seq<Queued<Msg>>, past: seq<Past<Msg>>, queued: seq<Queued<Msg>>) {
    accepted == Entries(past) + queued
  }

  /** The buffer: its evicted prefix stays below the capacity, and so does what is live. */
  ghost predicate Buffer<Msg>(accepted: seq<Queued<Msg>>, past: seq<Past<Msg>>, q: seq<Queued<Msg>>, head: nat,
                              capacity: nat, policy: Policy)
  {
    && head <= |q| && (capacity != 0 ==> |q| - head <= capacity)
    && (head > 0 ==> policy == DropOldest && head < capacity)
    && Conserved(accepted, past, q[head..])
  }

  /** The counters, and the cost of compaction: every move in post_from() is paid by an eviction that is no longer in
      the buffer, every move in drain by an entry it takes out. */
  ghost predicate Ledger<Msg>(past: seq<Past<Msg>>, head: nat, compacted: nat, shifted: nat, dropped: nat,
        retired: nat) {
    && compacted + head <= |With(past, Evicted)| <= dropped
    && shifted <= |With(past, Delivered)| + |With(past, Retired)|
    && |With(past, Retired)| <= retired
  }

  lemma PushKeeps<Msg>(accepted: seq<Queued<Msg>>, past: seq<Past<Msg>>, q: seq<Queued<Msg>>, head: nat,
                       capacity: nat, policy: Policy, e: Queued<Msg>)
    requires Buffer(accepted, past, q, head, capacity, policy) && (capacity != 0 ==> |q| - head < capacity)
    ensures Buffer(accepted + [e], past, q + [e], head, capacity, policy)
    ensures (q + [e])[head..] == q[head..] + [e]
  {
    assert (q + [e])[head..] == q[head..] + [e];
  }

  /** Skipping the oldest entry, before any compaction. */
  lemma SkipKeeps<Msg>(accepted: seq<Queued<Msg>>, past: seq<Past<Msg>>, q: seq<Queued<Msg>>, head: nat,
                       compacted: nat, shifted: nat, dropped: nat, retired: nat)
    requires head < |q| && Conserved(accepted, past, q[head..])
             && Ledger(past, head, compacted, shifted, dropped, retired)
    ensures var more := past + [Past(q[head], Evicted)];
            Conserved(accepted, more, q[head + 1..]) && Ledger(more, head + 1, compacted, shifted, dropped + 1, retired)
  {
    var gone := Past(q[head], Evicted);
    EntriesAppend(past, [gone]);
    WithMore(past, gone, Evicted);
    WithMore(past, gone, Delivered);
    WithMore(past, gone, Retired);
    assert q[head..] == [q[head]] + q[head + 1..];
  }

  /** Emptying the queue by a drain. */
  lemma DrainKeeps<Msg>(accepted: seq<Queued<Msg>>, past: seq<Past<Msg>>, q: seq<Queued<Msg>>, head: nat,
                        compacted: nat, shifted: nat, dropped: nat, retired: nat, live: set<nat>, last: nat)
    requires head <= |q| && Conserved(accepted, past, q[head..])
             && Ledger(past, head, compacted, shifted, dropped, retired)
    ensures var more := Judged(q[head..], live, last);
            var lost := |q| - head - |With(more, Delivered)|;
            && lost >= 0 && Conserved(accepted, past + more, [])
            && Ledger(past + more, 0, compacted, shifted, dropped, retired + lost)
            && Ledger(past + more, 0, compacted, shifted + |q| - head, dropped, retired + lost)
            && With(past + more, Delivered) == With(past, Delivered) + With(more, Delivered)
  {
    NoneJudged(q[head..], live, last);
    Leave(past, Judged(q[head..], live, last));
    EntriesJudged(q[head..], live, last);
    EntriesAppend(past, Judged(q[head..], live, last));
  }

  /** Emptying the queue by close(). */
  lemma CloseKeeps<Msg>(accepted: seq<Queued<Msg>>, past: seq<Past<Msg>>, q: seq<Queued<Msg>>, head: nat,
                        compacted: nat, shifted: nat, dropped: nat, retired: nat)
    requires head <= |q| && Conserved(accepted, past, q[head..])
             && Ledger(past, head, compacted, shifted, dropped, retired)
    ensures var more := All(q[head..], Discarded);
            Conserved(accepted, past + more, []) && Ledger(past + more, 0, compacted, shifted, dropped, retired)
  {
    var gone := All(q[head..], Discarded);
    EntriesAll(q[head..], Discarded);
    EntriesAppend(past, gone);
    Leave(past, gone);
    WithAll(q[head..], Discarded, Evicted);
    WithAll(q[head..], Discarded, Delivered);
    WithAll(q[head..], Discarded, Retired);
  }

  ghost predicate Issued(live: set<nat>, last: nat) { forall id :: id in live ==> 1 <= id <= last }

  /** What post_from() tells its caller. */
  datatype Outcome = Accepted(first: bool) | Refused | Blocks

  class Mailbox<Msg> {
    const capacity: nat
    const policy: Policy
    var q: seq<Queued<Msg>>
    var head: nat
    var nonempty: bool
    var live: set<nat>
    var last: nat
    var closed: bool
    var dropped: nat
    var blocked: nat
    var loopFull: nat
    var retired: nat
    var highWater: nat
    ghost var accepted: seq<Queued<Msg>>
    ghost var past: seq<Past<Msg>>
    ghost var compacted: nat   // moves by compaction in post_from()
    ghost var shifted: nat     // moves by the erase in drain_tagged()

    /** Everything but the hint, which the push that follows an eviction sets. */
    ghost predicate Kept()
      reads this
    {
      && Buffer(accepted, past, q, head, capacity, policy) && Ledger(past, head, compacted, shifted, dropped, retired)
      && highWater >= |q| - head && (capacity != 0 ==> highWater <= capacity)
      && (closed ==> q == []) && Issued(live, last)
    }

    ghost predicate Valid()
      reads this
    {
      Kept() && (nonempty <==> |q| > head)
    }

    constructor (capacity: nat, policy: Policy)
      ensures Valid() && accepted == [] && past == [] && !closed && live == {} && last == 0 && q == []
      ensures this.capacity == capacity && this.policy == policy
    {
      this.capacity, this.policy := capacity, policy;
      q, head, nonempty, live, last, closed := [], 0, false, {}, 0, false;
      dropped, blocked, loopFull, retired, highWater := 0, 0, 0, 0, 0;
      accepted, past, compacted, shifted := [], [], 0, 0;
    }

    function LiveCount(): nat
      requires head <= |q|
      reads this
    { |q| - head }

    predicate Full()
      requires head <= |q|
      reads this
    { capacity != 0 && LiveCount() >= capacity }

    /** drop_oldest: skip the oldest; compact once the skipped prefix reaches the capacity. */
    method Evict()
      requires Valid() && Full() && policy == DropOldest
      modifies `q, `head, `dropped, `past, `compacted
      ensures Kept() && !Full() && q[head..] == old(q[head + 1..]) && dropped == old(dropped) + 1
      ensures past == old(past) + [Past(old(q[head]), Evicted)]
    {
      SkipKeeps(accepted, past, q, head, compacted, shifted, dropped, retired);
      past := past + [Past(q[head], Evicted)];
      head := head + 1;
      if head >= capacity {
        compacted := compacted + (|q| - head);
        q := q[head..];
        head := 0;
      }
      dropped := dropped + 1;
    }

    method Push(e: Queued<Msg>) returns (first: bool)
      requires Kept() && !Full() && !closed
      modifies `q, `nonempty, `highWater, `accepted
      ensures Valid() && accepted == old(accepted) + [e]
      ensures q[head..] == old(q[head..]) + [e] && (first <==> LiveCount() == 1)
      ensures highWater == if LiveCount() > old(highWater) then LiveCount() else old(highWater)
    {
      first := LiveCount() == 0;
      PushKeeps(accepted, past, q, head, capacity, policy, e);
      accepted := accepted + [e];
      q := q + [e];
      nonempty := true;
      if LiveCount() > highWater { highWater := LiveCount(); }
    }

    /** What a full mailbox does with a post, by its policy: make room, refuse, or have the sender wait. Each refusal,
        eviction and wait is counted. */
    method Overflow(mayBlock: bool) returns (room: bool, r: Outcome)
      requires Valid() && Full() && !closed
      modifies `q, `head, `dropped, `blocked, `loopFull, `past, `compacted
      ensures room <==> policy == DropOldest
      ensures room ==> Kept() && !Full() && past == old(past) + [Past(old(q[head]), Evicted)]
                       && q[head..] == old(q[head + 1..])
      ensures !room ==> Valid() && Same(old(q), old(head), old(past))
      ensures !room ==> r == if policy == Block && mayBlock then Blocks else Refused
      ensures dropped == old(dropped) + if policy == Block then 0 else 1
      ensures blocked == old(blocked) + if policy == Block && mayBlock then 1 else 0
      ensures loopFull == old(loopFull) + if policy == Block && !mayBlock then 1 else 0
    {
      room, r := false, Refused;
      match policy
      case DropNewest =>
        dropped := dropped + 1;
      case DropOldest =>
        Evict();
        room := true;
      case Block =>
        if mayBlock {
          blocked := blocked + 1;
          r := Blocks;
        } else {
          loopFull := loopFull + 1;
        }
    }

    ghost predicate Same(q: seq<Queued<Msg>>, head: nat, past: seq<Past<Msg>>)
      reads this
    {
      this.q == q && this.head == head && this.past == past
    }

    /** The mailbox is open and the message's source is not retired. */
    predicate Open(from: nat)
      reads this
    { !closed && Stays(from, live, last) }

    /** post_from() once the mailbox is open to the message. */
    method PostOpen(e: Queued<Msg>, mayBlock: bool) returns (r: Outcome)
      requires Valid() && Open(e.from)
      modifies `q, `head, `nonempty, `dropped, `blocked, `loopFull, `highWater, `accepted, `past, `compacted
      ensures Valid()
      ensures r.Accepted? <==> !old(Full()) || policy == DropOldest
      ensures r.Blocks? <==> old(Full()) && policy == Block && mayBlock
      ensures accepted == if r.Accepted? then old(accepted) + [e] else old(accepted)
      ensures past == if r.Accepted? && old(Full()) then old(past) + [Past(old(q[head]), Evicted)] else old(past)
      ensures r.Accepted? ==> (r.first <==> LiveCount() == 1)
      ensures r.Accepted? ==> q[head..] == (if old(Full()) then old(q[head + 1..]) else old(q[head..])) + [e]
      ensures !r.Accepted? ==> Same(old(q), old(head), old(past))
      ensures dropped == old(dropped) + if old(Full()) && policy != Block then 1 else 0
      ensures blocked == old(blocked) + if r.Blocks? then 1 else 0
      ensures loopFull == old(loopFull) + if old(Full()) && policy == Block && !mayBlock then 1 else 0
    {
      if Full() {
        var room;
        room, r := Overflow(mayBlock);
        if !room { return; }
      }
      var first := Push(e);
      return Accepted(first);
    }

    /** post_from(). `mayBlock` is false on the loop's own thread, on a thread the loop waits for and under a held
        lock. */
    method PostFrom(e: Queued<Msg>, mayBlock: bool) returns (r: Outcome)
      requires Valid()
      modifies `q, `head, `nonempty, `dropped, `blocked, `loopFull, `highWater, `accepted, `past, `compacted
      ensures Valid()
      ensures r.Accepted? <==> Open(e.from) && (!old(Full()) || policy == DropOldest)
      ensures r.Blocks? <==> Open(e.from) && old(Full()) && policy == Block && mayBlock
      ensures accepted == if r.Accepted? then old(accepted) + [e] else old(accepted)
      ensures past == if r.Accepted? && old(Full()) then old(past) + [Past(old(q[head]), Evicted)] else old(past)
      ensures r.Accepted? ==> (r.first <==> LiveCount() == 1)
      ensures r.Accepted? ==> q[head..] == (if old(Full()) then old(q[head + 1..]) else old(q[head..])) + [e]
      ensures !r.Accepted? ==> Same(old(q), old(head), old(past))
      ensures dropped == old(dropped) + if Open(e.from) && old(Full()) && policy != Block then 1 else 0
      ensures blocked == old(blocked) + if r.Blocks? then 1 else 0
      ensures loopFull == old(loopFull) + if Open(e.from) && old(Full()) && policy == Block && !mayBlock then 1 else 0
    {
      if closed { return Refused; }
      if e.from != 0 && IsRetired(e.from, live, last) { return Refused; }
      r := PostOpen(e, mayBlock);
    }

    /** A sender inside room_.wait() that has the lock again: still full, it goes on waiting; released by close() or
        retired meanwhile, it is refused and never enqueues. */
    method Resume(e: Queued<Msg>) returns (r: Outcome)
      requires Valid() && policy == Block
      modifies `q, `nonempty, `highWater, `accepted
      ensures Valid()
      ensures r.Blocks? <==> !old(closed) && old(Full())
      ensures r.Accepted? <==> !old(closed) && !old(Full()) && Stays(e.from, live, last)
      ensures accepted == if r.Accepted? then old(accepted) + [e] else old(accepted)
      ensures r.Accepted? ==> (r.first <==> LiveCount() == 1)
      ensures !r.Accepted? ==> q == old(q)
    {
      if !closed && Full() { return Blocks; }
      if closed { return Refused; }
      if e.from != 0 && IsRetired(e.from, live, last) { return Refused; }
      var first := Push(e);
      return Accepted(first);
    }

    /** The buffer changes hands; the evicted prefix is erased from it. */
    method SwapOut(ghost more: seq<Past<Msg>>) returns (out: seq<Queued<Msg>>)
      requires Valid()
      modifies `q, `head, `nonempty, `past, `shifted
      ensures q == [] && head == 0 && !nonempty && out == old(q[head..]) && past == old(past) + more
      ensures shifted == old(shifted) || shifted == old(shifted) + |out|
    {
      nonempty := false;
      out := q[head..];
      if head != 0 { shifted := shifted + |out|; }
      q, head, past := [], 0, past + more;
    }

    /** Drop what a retired origin queued. */
    method Filter(es: seq<Queued<Msg>>) returns (out: seq<Queued<Msg>>)
      modifies `retired
      ensures out == With(Judged(es, live, last), Delivered) && retired == old(retired) + |es| - |out|
    {
      out := es;
      if last == 0 {
        NothingRetired(es, live);
      } else {
        NoneJudged(es, live, last);
        out := EraseRetired(es, live, last);
        retired := retired + (|es| - |out|);
      }
    }

    /** drain_tagged(): everything queued leaves at once, retired origins dropped on the way out. */
    method DrainTagged() returns (out: seq<Queued<Msg>>)
      requires Valid()
      modifies `q, `head, `nonempty, `retired, `past, `shifted
      ensures Valid() && LiveCount() == 0
      ensures out == With(Judged(old(q[head..]), live, last), Delivered)
      ensures past == old(past) + Judged(old(q[head..]), live, last)
      ensures With(past, Delivered) == With(old(past), Delivered) + out
    {
      ghost var more := Judged(q[head..], live, last);
      DrainKeeps(accepted, past, q, head, compacted, shifted, dropped, retired, live, last);
      if !nonempty {
        assert more == [] && past + more == past;
        return [];
      }
      out := SwapOut(more);
      out := Filter(out);
    }

    method OpenOrigin() returns (id: nat)
      requires Valid()
      modifies `last, `live
      ensures Valid() && id == last == old(last) + 1 && live == old(live) + {id}
      ensures forall o :: o != 0 && IsRetired(o, old(live), old(last)) ==> IsRetired(o, live, last)
    {
      last := last + 1;
      id := last;
      live := live + {id};
    }

    method Retire(id: nat)
      requires Valid()
      modifies `live
      ensures Valid() && live == old(live) - {id}
      ensures forall o :: o != 0 && IsRetired(o, old(live), last) ==> IsRetired(o, live, last)
    {
      live := live - {id};
    }

    method Close()
      requires Valid()
      modifies `closed, `q, `head, `nonempty, `live, `past
      ensures Valid() && closed && LiveCount() == 0 && live == {}
      ensures past == old(past) + All(old(q[head..]), Discarded)
    {
      CloseKeeps(accepted, past, q, head, compacted, shifted, dropped, retired);
      past := past + All(q[head..], Discarded);
      closed, q, head, live, nonempty := true, [], 0, {}, false;
    }

    /** At any time: accepted posts are delivered, evicted, dropped as retired, discarded by close() or still queued;
        the queue holds at most the capacity and the buffer less than twice that. */
    lemma Accounted()
      requires Valid()
      ensures |accepted| == |With(past, Delivered)| + |With(past, Evicted)| + |With(past, Retired)|
                          + |With(past, Discarded)| + LiveCount()
      ensures capacity != 0 ==> LiveCount() <= capacity && |q| < 2 * capacity
      ensures compacted <= |With(past, Evicted)| <= dropped
    {
      FatesPartition(past);
    }
  }

  lemma Leave<Msg>(past: seq<Past<Msg>>, more: seq<Past<Msg>>)
    ensures With(past + more, Delivered) == With(past, Delivered) + With(more, Delivered)
    ensures With(past + more, Evicted) == With(past, Evicted) + With(more, Evicted)
    ensures With(past + more, Retired) == With(past, Retired) + With(more, Retired)
  {
    WithAppend(past, more, Delivered);
    WithAppend(past, more, Evicted);
    WithAppend(past, more, Retired);
  }

  /** Before the first origin is opened the filter keeps everything. */
  lemma {:induction false} NothingRetired<Msg>(es: seq<Queued<Msg>>, live: set<nat>)
    ensures With(Judged(es, live, 0), Delivered) == es && With(Judged(es, live, 0), Retired) == []
  {
    if es != [] {
      var front := es[..|es| - 1];
      assert Judged(es, live, 0)[..|es| - 1] == Judged(front, live, 0);
      NothingRetired(front, live);
    }
  }
}
