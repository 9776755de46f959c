/** Replaying a record (`replay.hpp`) and stepping through it with snapshots (`timeline.hpp`). */
module Timeline {
  import opened Wrappers
  import opened KernelModel
  import opened KernelTheorems
  import opened Powers

  // ── replay ──

  lemma ReplayMore<Model, Msg>(p: Program<Model, Msg>, m: Model, msgs: seq<Msg>, i: nat)
    requires i < |msgs|
    ensures Replay(p, m, msgs[..i + 1]) == p.update(Replay(p, m, msgs[..i]), msgs[i]).0
  {
    assert msgs[..i + 1][..i] == msgs[..i];
  }

  /** replay_from(); with the initial model it is replay(). */
  method ReplayFrom<Model, Msg>(p: Program<Model, Msg>, start: Model, msgs: seq<Msg>) returns (model: Model)
    ensures model == Replay(p, start, msgs)
  {
    model := start;
    var i := 0;
    while i < |msgs|
      invariant 0 <= i <= |msgs| && model == Replay(p, start, msgs[..i])
    {
      ReplayMore(p, start, msgs, i);
      model := p.update(model, msgs[i]).0;
      i := i + 1;
    }
    assert msgs[..i] == msgs;
  }

  /** replay_each(): every intermediate model, in order. */
  method ReplayEach<Model, Msg>(p: Program<Model, Msg>, start: Model, msgs: seq<Msg>) returns (seen: seq<Model>)
    ensures |seen| == |msgs| + 1 && forall i :: 0 <= i <= |msgs| ==> seen[i] == Replay(p, start, msgs[..i])
  {
    var model := start;
    seen := [model];
    var i := 0;
    while i < |msgs|
      invariant 0 <= i <= |msgs| && |seen| == i + 1 && model == seen[i]
      invariant forall k :: 0 <= k <= i ==> seen[k] == Replay(p, start, msgs[..k])
    {
      ReplayMore(p, start, msgs, i);
      model := p.update(model, msgs[i]).0;
      seen := seen + [model];
      i := i + 1;
    }
  }

  // ── snapshots ──

  /** Where the i-th snapshot is taken: i strides in. */
  function Mark(i: nat, stride: nat): nat { if i == 0 then 0 else Mark(i - 1, stride) + stride }

  lemma {:induction false} MarkIs(i: nat, stride: nat)
    ensures Mark(i, stride) == i * stride
  {
    if i > 0 {
      MarkIs(i - 1, stride);
      assert i * stride == (i - 1) * stride + stride;
    }
  }

  lemma {:induction false} MarkGrows(i: nat, j: nat, stride: nat)
    requires i <= j
    ensures Mark(i, stride) <= Mark(j, stride)
    decreases j
  {
    if i < j { MarkGrows(i, j - 1, stride); }
  }

  /** The snapshots taken of the first n messages: one at every mark up to n. */
  ghost predicate Snapped<Model, Msg>(p: Program<Model, Msg>, m: Model, msgs: seq<Msg>, stride: nat,
        snaps: seq<Model>, n: nat) {
    && snaps != [] && Mark(|snaps| - 1, stride) <= n < Mark(|snaps|, stride) && n <= |msgs|
    && forall i {:trigger snaps[i]} :: 0 <= i < |snaps| ==> SnapOk(p, m, msgs, Mark(i, stride), snaps[i])
  }

  ghost predicate SnapOk<Model, Msg>(p: Program<Model, Msg>, m: Model, msgs: seq<Msg>, at: nat, snap: Model) {
    at <= |msgs| && snap == Replay(p, m, msgs[..at])
  }

  lemma SnappedMore<Model, Msg>(p: Program<Model, Msg>, m: Model, msgs: seq<Msg>, stride: nat, snaps: seq<Model>,
        n: nat)
    requires stride > 0 && Snapped(p, m, msgs, stride, snaps, n) && n < |msgs|
    ensures n + 1 != Mark(|snaps|, stride) ==> Snapped(p, m, msgs, stride, snaps, n + 1)
    ensures n + 1 == Mark(|snaps|, stride) ==> Snapped(p, m, msgs, stride, snaps + [Replay(p, m, msgs[..n + 1])], n + 1)
  {
    var more := snaps + [Replay(p, m, msgs[..n + 1])];
    if n + 1 == Mark(|snaps|, stride) {
      forall i | 0 <= i < |more| ensures SnapOk(p, m, msgs, Mark(i, stride), more[i]) {
        if i < |snaps| { assert SnapOk(p, m, msgs, Mark(i, stride), snaps[i]); }
      }
    }
  }

  /** The step reaches the next mark exactly when the stride divides it. */
  lemma NextStride(i: nat, stride: nat, count: nat)
    requires stride > 0 && count > 0 && Mark(count - 1, stride) <= i < Mark(count, stride)
    ensures (i + 1) % stride == 0 <==> i + 1 == Mark(count, stride)
  {
    var r := i + 1 - Mark(count - 1, stride);
    MarkIs(count - 1, stride);
    MarkIs(count, stride);
    if r < stride { Division(i + 1, stride, count - 1, r); }
    else { Division(i + 1, stride, count, 0); }
  }

  /** The snapshot before a step is there and less than a stride away. */
  lemma SnapBefore(to: nat, n: nat, stride: nat, count: nat)
    requires stride > 0 && to <= n < Mark(count, stride)
    ensures var snap := to / stride;
            snap < count && snap * stride == Mark(snap, stride)
                && Mark(snap, stride) <= to < Mark(snap, stride) + stride
  {
    var snap := to / stride;
    MarkIs(snap, stride);
    if snap >= count { MarkGrows(count, snap, stride); }
  }

  lemma Division(a: nat, n: nat, q: nat, r: nat)
    requires n > 0 && a == q * n + r && r < n
    ensures a / n == q && a % n == r
  {
    var d, e := a / n, a % n;
    assert (q - d) * n == e - r by { assert (q - d) * n == q * n - d * n; }
    NoMultiple(q - d, n);
  }

  lemma NoMultiple(x: int, n: nat)
    requires n > 0
    ensures x > 0 ==> x * n >= n
    ensures x < 0 ==> x * n <= 0 - n
  {
  }

  /** The least number of halvings that bring n down to one. */
  function Log(n: nat): nat { if n <= 1 then 0 else 1 + Log((n + 1) / 2) }

  lemma {:induction false} LogMonotone(a: nat, b: nat)
    requires a <= b
    ensures Log(a) <= Log(b)
    decreases b
  {
    if a > 1 { LogMonotone((a + 1) / 2, (b + 1) / 2); }
  }

  lemma {:induction false} LogBound(n: nat, k: nat)
    requires n <= Pow2(k)
    ensures Log(n) <= k
    decreases k
  {
    if n > 1 { LogBound((n + 1) / 2, k - 1); }
  }

  /** The sizes of a range that every check halves, down to one. */
  ghost predicate Halving(sizes: seq<nat>) {
    sizes != [] && forall i :: 0 <= i < |sizes| - 1 ==> sizes[i] > 1 && 2 * sizes[i + 1] <= sizes[i] + 1
  }

  lemma HalvingMore(sizes: seq<nat>, half: nat)
    requires Halving(sizes) && sizes[|sizes| - 1] > 1 && 2 * half <= sizes[|sizes| - 1] + 1
    ensures Halving(sizes + [half])
  {
  }

  lemma {:induction false} HalvingIsShort(sizes: seq<nat>)
    requires Halving(sizes)
    ensures |sizes| - 1 <= Log(sizes[0])
    decreases |sizes|
  {
    if |sizes| > 1 {
      HalvingIsShort(sizes[1..]);
      LogMonotone(sizes[1], (sizes[0] + 1) / 2);
    }
  }

  class Timeline<Model, Msg> {
    const p: Program<Model, Msg>
    const start: Model
    const msgs: seq<Msg>
    const stride: nat
    var snaps: seq<Model>
    var step: nat      // the cached cursor
    var model: Model

    /** The model after k messages. */
    ghost function Then(k: nat): Model
      requires k <= |msgs|
    { Replay(p, start, msgs[..k]) }

    ghost predicate Valid()
      reads this
    {
      && stride > 0 && Snapped(p, start, msgs, stride, snaps, |msgs|)
      && step <= |msgs| && model == Then(step)
    }

    constructor (p: Program<Model, Msg>, start: Model, msgs: seq<Msg>, stride: nat)
      ensures Valid() && this.p == p && this.start == start && this.msgs == msgs
      ensures this.stride == if stride == 0 then 1 else stride
    {
      this.p, this.start, this.msgs := p, start, msgs;
      this.stride := if stride == 0 then 1 else stride;
      snaps, step, model := [start], 0, start;
      new;
      Build();
    }

    /** One pass over the run. */
    method Build()
      requires stride > 0 && snaps == [start] && step == 0 && model == start
      modifies `snaps
      ensures Valid()
    {
      var m := start;
      var i := 0;
      assert SnapOk(p, start, msgs, Mark(0, stride), start);
      while i < |msgs|
        invariant 0 <= i <= |msgs| && m == Then(i) && Snapped(p, start, msgs, stride, snaps, i)
      {
        ReplayMore(p, start, msgs, i);
        NextStride(i, stride, |snaps|);
        SnappedMore(p, start, msgs, stride, snaps, i);
        m := p.update(m, msgs[i]).0;
        if (i + 1) % stride == 0 { snaps := snaps + [m]; }
        i := i + 1;
      }
    }

    function Size(): nat { |msgs| + 1 }

    /** Back to the snapshot at or before the step, unless the cursor is already between the two. */
    method Seek(to: nat)
      requires Valid() && to <= |msgs|
      modifies `step, `model
      ensures Valid() && step <= to < step + stride
    {
      var snap := to / stride;
      SnapBefore(to, |msgs|, stride, |snaps|);
      var from := snap * stride;
      assert SnapOk(p, start, msgs, Mark(snap, stride), snaps[snap]);
      if step > to || step < from {
        step, model := from, snaps[snap];
      }
    }

    /** at(): the model after `to` messages, whatever was asked before, folding at most stride - 1 of them. */
    method At(to: nat) returns (r: Option<Model>, ghost folds: nat)
      requires Valid()
      modifies `step, `model
      ensures Valid() && folds <= stride - 1
      ensures r == if to < Size() then Some(Then(to)) else None
    {
      folds := 0;
      if to >= Size() { return None, 0; }
      Seek(to);
      while step < to
        invariant Valid() && step <= to <= |msgs|
        invariant folds + (to - step) < stride
      {
        ReplayMore(p, start, msgs, step);
        model := p.update(model, msgs[step]).0;
        step := step + 1;
        folds := folds + 1;
      }
      return Some(model), folds;
    }

    ghost predicate Good(good: Model -> bool, k: nat)
      requires k <= |msgs|
    { good(Then(k)) }

    /** Once bad, stays bad. */
    ghost predicate Monotone(good: Model -> bool) {
      forall i, j :: 0 <= i <= j <= |msgs| && Good(good, j) ==> Good(good, i)
    }

    method Check(good: Model -> bool, k: nat) returns (r: bool)
      requires Valid() && k <= |msgs|
      modifies `step, `model
      ensures Valid() && r == Good(good, k)
    {
      var m, folds := At(k);
      r := good(m.value);
    }

    ghost predicate AllGood(good: Model -> bool, n: nat)
      requires n <= |msgs| + 1
    { forall k :: 0 <= k < n ==> Good(good, k) }

    lemma AllGoodMore(good: Model -> bool, n: nat)
      requires n <= |msgs| && AllGood(good, n) && Good(good, n)
      ensures AllGood(good, n + 1)
    {
    }

    /** first_bad(): the first failing step, for any predicate. */
    method FirstBad(good: Model -> bool) returns (r: Option<nat>)
      requires Valid()
      modifies `step, `model
      ensures Valid()
      ensures r.None? ==> AllGood(good, Size())
      ensures r.Some? ==> r.value <= |msgs| && !Good(good, r.value) && AllGood(good, r.value)
    {
      var s := 0;
      while s < Size()
        invariant 0 <= s <= Size() && Valid() && AllGood(good, s)
      {
        var ok := Check(good, s);
        if !ok { return Some(s); }
        AllGoodMore(good, s);
        s := s + 1;
      }
      return None;
    }

    /** Good before it and bad at it. */
    ghost predicate Turns(good: Model -> bool, k: nat) {
      k <= |msgs| && !Good(good, k) && (k > 0 ==> Good(good, k - 1))
    }

    /** For a monotone predicate there is only one such step, the least bad one. */
    lemma TurnIsLeast(good: Model -> bool, h: nat)
      requires Turns(good, h) && Monotone(good)
      ensures forall k :: 0 <= k <= |msgs| ==> (Good(good, k) <==> k < h)
    {
    }

    ghost predicate Between(good: Model -> bool, lo: nat, hi: nat) {
      lo < hi <= |msgs| && Good(good, lo) && !Good(good, hi)
    }

    lemma TurnsAt(good: Model -> bool, lo: nat, hi: nat)
      requires Between(good, lo, hi) && hi == lo + 1
      ensures Turns(good, hi)
    {
    }

    /** One check halves the range. */
    method NarrowOnce(good: Model -> bool, from: nat, to: nat) returns (lo: nat, hi: nat)
      requires Valid() && from + 1 < to && Between(good, from, to)
      modifies `step, `model
      ensures Valid() && Between(good, lo, hi) && 2 * (hi - lo) <= to - from + 1
    {
      lo, hi := from, to;
      var mid := lo + (hi - lo) / 2;
      var ok := Check(good, mid);
      if ok { lo := mid; } else { hi := mid; }
    }

    /** The loop of bisect(). */
    method Narrow(good: Model -> bool) returns (hi: nat, ghost sizes: seq<nat>)
      requires Valid() && Between(good, 0, |msgs|)
      modifies `step, `model
      ensures Valid() && Halving(sizes) && sizes[0] == |msgs| && Turns(good, hi)
    {
      var lo := 0;
      hi := Size() - 1;
      sizes := [hi];
      while hi - lo > 1
        invariant Valid() && Between(good, lo, hi)
        invariant Halving(sizes) && sizes[0] == |msgs| && sizes[|sizes| - 1] == hi - lo
        decreases hi - lo
      {
        lo, hi := NarrowOnce(good, lo, hi);
        HalvingMore(sizes, hi - lo);
        sizes := sizes + [hi - lo];
      }
      TurnsAt(good, lo, hi);
    }

    /** bisect(): always a step where good turns bad, or none if the end is good; in at most 2 + log2 of the run's
        length checks. `TurnIsLeast` says what that step is for a monotone predicate. */
    method Bisect(good: Model -> bool) returns (r: Option<nat>, ghost checks: nat)
      requires Valid()
      modifies `step, `model
      ensures Valid() && checks <= 2 + Log(|msgs|)
      ensures r.None? <==> Good(good, |msgs|)
      ensures r.Some? ==> Turns(good, r.value)
    {
      checks := 1;
      var end := Check(good, Size() - 1);
      if end { return None, checks; }
      checks := 2;
      var begin := Check(good, 0);
      if !begin { return Some(0), checks; }
      var hi;
      ghost var sizes;
      hi, sizes := Narrow(good);
      HalvingIsShort(sizes);
      return Some(hi), checks + |sizes| - 1;
    }
  }
}
