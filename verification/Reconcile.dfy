/** The subscription diff as `reconcile.hpp` computes it: flat vectors, scanned while small, with open-addressed
  tables beside them once they grow. Everything is specified by the plain definitions in `Sources`. */
module Reconcile {
  import opened Sources
  import opened OpenTable
  import opened StaleTable
  import opened Wrappers

  /** Sources per side above which the scans get a table. */
  const THRESHOLD: nat := 16

  /** A base key and how many timers of it were seen. */
  datatype Ordinal = Ordinal(base: Key, n: nat)

  function Bases(os: seq<Ordinal>): seq<Key> {
    seq(|os|, i requires 0 <= i < |os| => os[i].base)
  }

  /** The counters after `leaves`: one per interval seen, holding how often. */
  ghost predicate Counts<Msg>(os: seq<Ordinal>, leaves: seq<Leaf<Msg>>) {
    && (forall j :: 0 <= j < |os| ==> CountOk(os[j], leaves))
    && (forall i, j :: 0 <= i < j < |os| ==> os[i].base != os[j].base)
    && (forall interval :: Count(leaves, interval) > 0 ==> EveryKey(interval, 0) in Bases(os))
  }

  ghost predicate CountOk<Msg>(o: Ordinal, leaves: seq<Leaf<Msg>>) {
    o.base.EveryKey? && o.base.ordinal == 0 && o.n == Count(leaves, o.base.interval)
  }

  lemma KeysOfIsKeySet<Msg>(es: seq<Entry<Msg>>, k: Key)
    ensures k in KeysOf(es) <==> k in KeySet(es)
  {
    if k in KeysOf(es) {
      var i :| 0 <= i < |es| && KeysOf(es)[i] == k;
      assert es[i].key == k;
    }
    if k in KeySet(es) {
      var i :| 0 <= i < |es| && es[i].key == k;
      assert KeysOf(es)[i] == k;
    }
  }

  lemma CountMore<Msg>(leaves: seq<Leaf<Msg>>, leaf: Leaf<Msg>, interval: int)
    ensures Count(leaves + [leaf], interval) ==
            Count(leaves, interval) + if leaf.Every? && leaf.interval == interval then 1 else 0
  {
    assert (leaves + [leaf])[..|leaves|] == leaves;
  }

  /** One more timer of a base that has a counter. */
  lemma Bumped<Msg>(os: seq<Ordinal>, leaves: seq<Leaf<Msg>>, leaf: Leaf<Msg>, j: nat)
    requires Counts(os, leaves) && leaf.Every? && j < |os| && os[j].base == EveryKey(leaf.interval, 0)
    ensures Counts(os[j := os[j].(n := os[j].n + 1)], leaves + [leaf])
    ensures Bases(os[j := os[j].(n := os[j].n + 1)]) == Bases(os)
  {
    var o := os[j := os[j].(n := os[j].n + 1)];
    assert Bases(o) == Bases(os);
    forall i | 0 <= i < |o| ensures CountOk(o[i], leaves + [leaf]) {
      assert CountOk(os[i], leaves) && CountOk(os[j], leaves);
      CountMore(leaves, leaf, os[i].base.interval);
      assert i != j ==> os[i].base != os[j].base;
    }
    assert Bases(os)[j] == EveryKey(leaf.interval, 0);
    StillListed(Bases(os), leaves, leaf);
  }

  /** Every interval that was counted, or is the leaf's, is listed. */
  lemma StillListed<Msg>(bases: seq<Key>, leaves: seq<Leaf<Msg>>, leaf: Leaf<Msg>)
    requires leaf.Every? && EveryKey(leaf.interval, 0) in bases
    requires forall interval ::
               Count(leaves, interval) > 0 ==> EveryKey(interval, 0) in bases || interval == leaf.interval
    ensures forall interval :: Count(leaves + [leaf], interval) > 0 ==> EveryKey(interval, 0) in bases
  {
    forall interval | Count(leaves + [leaf], interval) > 0 ensures EveryKey(interval, 0) in bases {
      CountMore(leaves, leaf, interval);
    }
  }

  /** The first timer of a base. */
  lemma Added<Msg>(os: seq<Ordinal>, leaves: seq<Leaf<Msg>>, leaf: Leaf<Msg>)
    requires Counts(os, leaves) && leaf.Every? && EveryKey(leaf.interval, 0) !in Bases(os)
    ensures Count(leaves, leaf.interval) == 0
    ensures Counts(os + [Ordinal(EveryKey(leaf.interval, 0), 1)], leaves + [leaf])
    ensures Bases(os + [Ordinal(EveryKey(leaf.interval, 0), 1)]) == Bases(os) + [EveryKey(leaf.interval, 0)]
  {
    var base := EveryKey(leaf.interval, 0);
    var o := os + [Ordinal(base, 1)];
    assert Bases(o) == Bases(os) + [base];
    forall i | 0 <= i < |o| ensures CountOk(o[i], leaves + [leaf]) && (i < |os| ==> o[i].base != base) {
      CountMore(leaves, leaf, o[i].base.interval);
      if i < |os| { assert Bases(os)[i] == os[i].base && CountOk(os[i], leaves); }
    }
    assert Bases(o)[|os|] == base;
    forall interval | Count(leaves, interval) > 0 ensures EveryKey(interval, 0) in Bases(o) {
      assert EveryKey(interval, 0) in Bases(os);
    }
    StillListed(Bases(o), leaves, leaf);
  }

  /** A leaf that is not a timer leaves the counters alone. */
  lemma Uncounted<Msg>(os: seq<Ordinal>, leaves: seq<Leaf<Msg>>, leaf: Leaf<Msg>)
    requires Counts(os, leaves) && !leaf.Every?
    ensures Counts(os, leaves + [leaf])
  {
    forall interval ensures Count(leaves + [leaf], interval) == Count(leaves, interval) {
      CountMore(leaves, leaf, interval);
    }
  }

  /** find(): the linear scan. */
  method Find<Msg>(es: seq<Entry<Msg>>, k: Key) returns (r: bool)
    ensures r <==> k in KeySet(es)
  {
    for i := 0 to |es|
      invariant forall j :: 0 <= j < i ==> es[j].key != k
    {
      if es[i].key == k { return true; }
    }
    return false;
  }

  method FindBase(os: seq<Ordinal>, base: Key) returns (i: nat)
    ensures i <= |os| && (i < |os| ==> os[i].base == base)
    ensures i == |os| ==> base !in Bases(os)
  {
    i := 0;
    while i < |os|
      invariant 0 <= i <= |os|
      invariant forall j :: 0 <= j < i ==> os[j].base != base
    {
      if os[i].base == base { return; }
      i := i + 1;
    }
  }

  /** A lookup in a table built for this vector, which is what the scan would say. */
  method Lookup(ix: seq<int>, keys: seq<Key>, hash: Key -> nat, k: Key) returns (r: Found)
    requires TableFor(ix, keys, hash)
    ensures !r.Fault? && (r.Hit? <==> k in keys) && (r.Hit? ==> r.i < |keys| && keys[r.i] == k)
  {
    ProbeIsScan(ix, keys, hash, k);
    r := Probe(ix, keys, k, hash(k));
  }

  /** want_has() has built want_'s table by the end of these leaves: one of them arrived with more than the
      threshold already wanted. The last one decides, since the wanted list never shrinks. */
  predicate Crossed<Msg>(leaves: seq<Leaf<Msg>>) {
    leaves != [] && |Wanted(leaves[..|leaves| - 1])| > THRESHOLD
  }

  lemma CrossedStays<Msg>(leaves: seq<Leaf<Msg>>, leaf: Leaf<Msg>)
    ensures Crossed(leaves + [leaf]) <==> Crossed(leaves) || |Wanted(leaves)| > THRESHOLD
  {
    assert (leaves + [leaf])[..|leaves|] == leaves;
  }

  lemma WantedMore<Msg>(leaves: seq<Leaf<Msg>>, leaf: Leaf<Msg>)
    ensures var k := KeyAfter(leaves, leaf);
            && Wanted(leaves + [leaf])
                == (if k in KeySet(Wanted(leaves)) then Wanted(leaves) else Wanted(leaves) + [Entry(k, leaf)])
            && Duplicates(leaves + [leaf]) == Duplicates(leaves) + (if k in KeySet(Wanted(leaves)) then [k] else [])
  {
    assert (leaves + [leaf])[..|leaves|] == leaves;
  }

  lemma SelectMore<Msg>(es: seq<Entry<Msg>>, i: nat, keys: set<Key>, inside: bool)
    requires i < |es|
    ensures Select(es[..i + 1], keys, inside) ==
            Select(es[..i], keys, inside) + if es[i].key in keys <==> inside then [es[i]] else []
  {
    assert es[..i + 1][..i] == es[..i];
  }

  lemma KeysOfMore<Msg>(es: seq<Entry<Msg>>, e: Entry<Msg>)
    ensures KeysOf(es + [e]) == KeysOf(es) + [e.key]
  {
  }

  /** Probing `ix` for every running key reads nothing out of bounds. */
  ghost predicate Sound<Msg>(ix: seq<int>, want: seq<Entry<Msg>>, running: seq<Entry<Msg>>, hash: Key -> nat) {
    forall j :: 0 <= j < |running| ==> Walk(ix, KeysOf(want), running[j].key, hash(running[j].key), 0) != Fault
  }

  /** The running keys that probing `ix` misses, in order. */
  function Missed<Msg>(ix: seq<int>, want: seq<Entry<Msg>>, running: seq<Entry<Msg>>, hash: Key -> nat): seq<Key> {
    if running == [] then []
    else
      var k := running[|running| - 1].key;
      Missed(ix, want, running[..|running| - 1], hash) + if Walk(ix, KeysOf(want), k, hash(k), 0)
          == Miss then [k] else []
  }

  lemma MissedMore<Msg>(ix: seq<int>, want: seq<Entry<Msg>>, running: seq<Entry<Msg>>, hash: Key -> nat, i: nat)
    requires i < |running|
    ensures var k := running[i].key;
            Missed(ix, want, running[..i + 1], hash) ==
            Missed(ix, want, running[..i], hash) + if Walk(ix, KeysOf(want), k, hash(k), 0) == Miss then [k] else []
  {
    assert running[..i + 1][..i] == running[..i];
  }

  /** When the last loop of reconcile() is exact: nothing runs, or both sides are scanned, or want_'s table was
      built for this very call. */
  ghost predicate Safe<Msg>(running: seq<Entry<Msg>>, leaves: seq<Leaf<Msg>>) {
    running == [] || Crossed(leaves) || (|Wanted(leaves)| <= THRESHOLD && |running| <= THRESHOLD)
  }

  class RunningSources<Msg> {
    const hash: Key -> nat
    var running: seq<Entry<Msg>>
    var want: seq<Entry<Msg>>
    var ordinals: seq<Ordinal>
    var wantIx: seq<int>
    var runningIx: seq<int>
    var ordIx: seq<int>
    var indexed: bool
    var ordIndexed: bool

    constructor (hash: Key -> nat)
      ensures this.hash == hash && running == [] && wantIx == []
    {
      this.hash := hash;
      running, want, ordinals := [], [], [];
      wantIx, runningIx, ordIx := [], [], [];
      indexed, ordIndexed := false, false;
    }

    ghost predicate WantOk()
      reads this
    {
      indexed ==> TableFor(wantIx, KeysOf(want), hash)
    }

    ghost predicate OrdOk()
      reads this
    {
      ordIndexed ==> TableFor(ordIx, Bases(ordinals), hash)
    }

    /** The scratch state after some leaves of the Sub being reconciled. */
    ghost predicate Gathered(before: seq<Leaf<Msg>>)
      reads this
    {
      && want == Wanted(before) && Counts(ordinals, before)
      && WantOk() && OrdOk() && indexed == Crossed(before)
    }

    /** Is `k` already wanted? The table is built at the crossing, once. */
    method WantHas(k: Key) returns (r: bool)
      requires WantOk()
      modifies `wantIx, `indexed
      ensures WantOk() && (r <==> k in KeySet(want))
      ensures indexed == (old(indexed) || |want| > THRESHOLD)
      ensures !indexed ==> wantIx == old(wantIx)
    {
      KeysOfIsKeySet(want, k);
      if !indexed && |want| > THRESHOLD {
        wantIx := Index(KeysOf(want), hash);
        indexed := true;
      }
      if indexed {
        var f := Lookup(wantIx, KeysOf(want), hash, k);
        return f.Hit?;
      }
      r := Find(want, k);
    }

    /** Append; the table follows, growing when its load would pass one half. */
    method WantAdd(e: Entry<Msg>)
      requires WantOk()
      modifies `want, `wantIx
      ensures WantOk() && want == old(want) + [e]
      ensures !indexed ==> wantIx == old(wantIx)
    {
      want := want + [e];
      assert KeysOf(want) == KeysOf(old(want)) + [e.key];
      if indexed {
        if |want| * 2 > |wantIx| {
          wantIx := Index(KeysOf(want), hash);
        } else {
          wantIx := Insert(wantIx, KeysOf(old(want)), hash, e.key, |want| - 1);
        }
      }
    }

    /** The counter of a base, looked up in the list or in its table. */
    method FindOrdinal(base: Key) returns (i: nat)
      requires OrdOk()
      modifies `ordIx, `ordIndexed
      ensures OrdOk() && i <= |ordinals| && (i < |ordinals| ==> ordinals[i].base == base)
      ensures i == |ordinals| ==> base !in Bases(ordinals)
    {
      if !ordIndexed && |ordinals| > THRESHOLD {
        ordIx := Index(Bases(ordinals), hash);
        ordIndexed := true;
      }
      if !ordIndexed {
        i := FindBase(ordinals, base);
      } else {
        var f := Lookup(ordIx, Bases(ordinals), hash, base);
        i := if f.Hit? then f.i else |ordinals|;
      }
    }

    /** The n-th timer of a base key gets ordinal n, across the list, the crossing and every regrow. */
    method NextOrdinal(leaf: Leaf<Msg>, ghost before: seq<Leaf<Msg>>) returns (n: nat)
      requires leaf.Every? && Counts(ordinals, before) && OrdOk()
      modifies `ordinals, `ordIx, `ordIndexed
      ensures n == Count(before, leaf.interval)
      ensures Counts(ordinals, before + [leaf]) && OrdOk()
    {
      var base := EveryKey(leaf.interval, 0);
      var i := FindOrdinal(base);
      if i < |ordinals| {
        n := ordinals[i].n;
        Bumped(ordinals, before, leaf, i);
        ordinals := ordinals[i := ordinals[i].(n := n + 1)];
        return;
      }
      n := 0;
      Added(ordinals, before, leaf);
      OrdAdd(base);
    }

    /** Append a counter; its table follows, growing when its load would pass one half. */
    method OrdAdd(base: Key)
      requires OrdOk() && Bases(ordinals + [Ordinal(base, 1)]) == Bases(ordinals) + [base]
      modifies `ordinals, `ordIx
      ensures OrdOk() && ordinals == old(ordinals) + [Ordinal(base, 1)]
    {
      ordinals := ordinals + [Ordinal(base, 1)];
      if ordIndexed {
        if |ordinals| * 2 > |ordIx| {
          ordIx := Index(Bases(ordinals), hash);
        } else {
          ordIx := Insert(ordIx, Bases(old(ordinals)), hash, base, |ordinals| - 1);
        }
      }
    }

    /** The leaf's key, numbered if it is a timer. */
    method NumberLeaf(leaf: Leaf<Msg>, ghost before: seq<Leaf<Msg>>) returns (k: Key)
      requires Counts(ordinals, before) && OrdOk()
      modifies `ordinals, `ordIx, `ordIndexed
      ensures k == KeyAfter(before, leaf) && Counts(ordinals, before + [leaf]) && OrdOk()
    {
      k := BaseKey(leaf);
      if leaf.Every? {
        var n := NextOrdinal(leaf, before);
        k := EveryKey(leaf.interval, n);
      } else {
        Uncounted(ordinals, before, leaf);
      }
    }

    /** Add the entry unless its key is already wanted. */
    method Want(k: Key, leaf: Leaf<Msg>) returns (dup: bool)
      requires WantOk()
      modifies `want, `wantIx, `indexed
      ensures WantOk() && (dup <==> k in KeySet(old(want)))
      ensures want == if dup then old(want) else old(want) + [Entry(k, leaf)]
      ensures indexed == (old(indexed) || |old(want)| > THRESHOLD)
      ensures !indexed ==> wantIx == old(wantIx)
    {
      dup := WantHas(k);
      if !dup { WantAdd(Entry(k, leaf)); }
    }

    /** The numbered leaf joins the wanted list, or the duplicates. */
    method TakeKey(k: Key, leaf: Leaf<Msg>, dups: seq<Key>, ghost before: seq<Leaf<Msg>>) returns (more: seq<Key>)
      requires WantOk() && want == Wanted(before) && indexed == Crossed(before)
      requires k == KeyAfter(before, leaf) && dups == Duplicates(before)
      modifies `want, `wantIx, `indexed
      ensures WantOk() && want == Wanted(before + [leaf]) && indexed == Crossed(before + [leaf])
      ensures more == Duplicates(before + [leaf]) && (!indexed ==> wantIx == old(wantIx))
    {
      WantedMore(before, leaf);
      CrossedStays(before, leaf);
      var dup := Want(k, leaf);
      more := dups + if dup then [k] else [];
    }

    /** One leaf of the Sub; `dups` are the duplicates so far. */
    method TakeLeaf(leaf: Leaf<Msg>, dups: seq<Key>, ghost before: seq<Leaf<Msg>>) returns (more: seq<Key>)
      requires Gathered(before) && dups == Duplicates(before)
      modifies `want, `wantIx, `indexed, `ordinals, `ordIx, `ordIndexed
      ensures Gathered(before + [leaf]) && more == Duplicates(before + [leaf])
      ensures !indexed ==> wantIx == old(wantIx)
    {
      var k := NumberLeaf(leaf, before);
      more := TakeKey(k, leaf, dups, before);
    }

    // ── the diff ──

    method Reset()
      modifies `want, `indexed, `ordinals, `ordIndexed
      ensures Gathered([]) && !indexed
    {
      want, ordinals := [], [];
      indexed, ordIndexed := false, false;
    }

    /** The leaves of the Sub, in order. */
    method Gather(leaves: seq<Leaf<Msg>>) returns (duplicates: seq<Key>)
      modifies `want, `wantIx, `indexed, `ordinals, `ordIx, `ordIndexed
      ensures Gathered(leaves) && duplicates == Duplicates(leaves)
      ensures !indexed ==> wantIx == old(wantIx)
    {
      Reset();
      duplicates := [];
      var i := 0;
      assert leaves[..0] == [];
      while i < |leaves|
        invariant 0 <= i <= |leaves|
        invariant Gathered(leaves[..i]) && duplicates == Duplicates(leaves[..i])
        invariant !indexed ==> wantIx == old(wantIx)
      {
        duplicates := TakeLeaf(leaves[i], duplicates, leaves[..i]);
        assert leaves[..i] + [leaves[i]] == leaves[..i + 1];
        i := i + 1;
      }
      assert leaves[..i] == leaves;
    }

    /** What is wanted splits into what runs already and what does not. */
    method Split(big: bool) returns (keep: seq<Entry<Msg>>, start: seq<Entry<Msg>>)
      requires big ==> TableFor(runningIx, KeysOf(running), hash)
      ensures keep == Select(want, KeySet(running), true) && start == Select(want, KeySet(running), false)
    {
      keep, start := [], [];
      var i := 0;
      assert want[..0] == [];
      while i < |want|
        invariant 0 <= i <= |want|
        invariant keep == Select(want[..i], KeySet(running), true)
        invariant start == Select(want[..i], KeySet(running), false)
      {
        var yes := IsRunning(want[i].key, big);
        SelectMore(want, i, KeySet(running), true);
        SelectMore(want, i, KeySet(running), false);
        if yes { keep := keep + [want[i]]; } else { start := start + [want[i]]; }
        i := i + 1;
      }
      assert want[..i] == want;
    }

    method IsRunning(k: Key, big: bool) returns (r: bool)
      requires big ==> TableFor(runningIx, KeysOf(running), hash)
      ensures r <==> k in KeySet(running)
    {
      KeysOfIsKeySet(running, k);
      if big {
        var f := Lookup(runningIx, KeysOf(running), hash, k);
        return f.Hit?;
      }
      r := Find(running, k);
    }

    /** The running keys that are not wanted, by scanning. */
    method ScanStops() returns (stop: seq<Key>)
      ensures stop == KeysOf(Select(running, KeySet(want), false))
    {
      stop := [];
      var i := 0;
      assert running[..0] == [];
      while i < |running|
        invariant 0 <= i <= |running|
        invariant stop == KeysOf(Select(running[..i], KeySet(want), false))
      {
        var yes := Find(want, running[i].key);
        SelectMore(running, i, KeySet(want), false);
        KeysOfMore(Select(running[..i], KeySet(want), false), running[i]);
        if !yes { stop := stop + [running[i].key]; }
        i := i + 1;
      }
      assert running[..i] == running;
    }

    /** The same by probing want_'s table, whatever that table holds by now. */
    method ProbeStops() returns (stop: seq<Key>, ok: bool)
      ensures ok <==> Sound(wantIx, want, running, hash)
      ensures stop == Missed(wantIx, want, running, hash)
    {
      stop, ok := [], true;
      var i := 0;
      assert running[..0] == [];
      while i < |running|
        invariant 0 <= i <= |running|
        invariant ok <==> Sound(wantIx, want, running[..i], hash)
        invariant stop == Missed(wantIx, want, running[..i], hash)
      {
        var k := running[i].key;
        var f := Probe(wantIx, KeysOf(want), k, hash(k));
        SoundMore(wantIx, want, running, hash, i);
        MissedMore(wantIx, want, running, hash, i);
        if f.Miss? { stop := stop + [k]; }
        if f.Fault? { ok := false; }
        i := i + 1;
      }
      assert running[..i] == running;
    }

    /** The running keys that are not wanted: by scanning while both sides are small, else by probing. */
    method Stops(big: bool, ghost leaves: seq<Leaf<Msg>>, ghost was: seq<int>) returns (stop: seq<Key>, ok: bool)
      requires want == Wanted(leaves) && (big <==> |want| > THRESHOLD || |running| > THRESHOLD)
      requires if Crossed(leaves) then TableFor(wantIx, KeysOf(want), hash) else wantIx == was
      ensures Safe(running, leaves) ==> ok && stop == KeysOf(Select(running, KeySet(want), false))
      ensures !Safe(running, leaves) ==>
                ok == Sound(was, want, running, hash) && stop == Missed(was, want, running, hash)
    {
      CrossedIsBig(leaves);
      if big {
        if Crossed(leaves) { OwnTable(wantIx, want, running, hash); }
        stop, ok := ProbeStops();
      } else {
        stop := ScanStops();
        ok := true;
      }
    }

    /** Everything before the last loop. */
    method Compare(leaves: seq<Leaf<Msg>>, big: bool) returns (keep: seq<Entry<Msg>>, start: seq<Entry<Msg>>)
      requires want == Wanted(leaves)
      modifies `runningIx
      ensures keep == Diff(running, leaves).keep && start == Diff(running, leaves).start
    {
      if big { runningIx := Index(KeysOf(running), hash); }
      keep, start := Split(big);
    }

    /** reconcile(). `ok` says that no read went out of bounds. */
    method Reconcile(leaves: seq<Leaf<Msg>>) returns (plan: Plan<Msg>, ok: bool)
      modifies this
      ensures running == Wanted(leaves)
      ensures plan == Diff(old(running), leaves).(stop := plan.stop)
      ensures Safe(old(running), leaves) ==> ok && plan == Diff(old(running), leaves)
      ensures !Safe(old(running), leaves) ==> ok == Sound(old(wantIx), Wanted(leaves), old(running), hash)
                                              && plan.stop == Missed(old(wantIx), Wanted(leaves), old(running), hash)
      ensures if Crossed(leaves) then TableFor(wantIx, KeysOf(running), hash) else wantIx == old(wantIx)
    {
      var duplicates := Gather(leaves);
      var big := |want| > THRESHOLD || |running| > THRESHOLD;
      var keep, start := Compare(leaves, big);
      var stop;
      stop, ok := Stops(big, leaves, old(wantIx));
      plan := Plan(start, keep, stop, duplicates);
      running, want := want, running;
    }
  }

  // ── when the tables are what the last loop takes them for ──

  lemma CrossedIsBig<Msg>(leaves: seq<Leaf<Msg>>)
    ensures Crossed(leaves) ==> |Wanted(leaves)| > THRESHOLD
  {
  }

  lemma SoundMore<Msg>(ix: seq<int>, want: seq<Entry<Msg>>, running: seq<Entry<Msg>>, hash: Key -> nat, i: nat)
    requires i < |running|
    ensures Sound(ix, want, running[..i + 1], hash) <==>
            Sound(ix, want, running[..i], hash)
            && Walk(ix, KeysOf(want), running[i].key, hash(running[i].key), 0) != Fault
  {
    assert forall j | 0 <= j < i :: running[..i + 1][j] == running[..i][j];
    assert running[..i + 1][i] == running[i];
  }

  /** For a Sub without duplicates the exactness condition is a matter of sizes: 17 leaves, or at most 17
      against a big running set, are the inputs for which want_'s table was not built. */
  lemma SafeIff<Msg>(running: seq<Entry<Msg>>, leaves: seq<Leaf<Msg>>)
    requires Duplicates(leaves) == []
    ensures Safe(running, leaves) <==>
            running == [] || |leaves| > THRESHOLD + 1 || (|leaves| <= THRESHOLD && |running| <= THRESHOLD)
  {
    SizeOfWanted(leaves);
    if leaves != [] { SizeOfWanted(leaves[..|leaves| - 1]); }
  }

  lemma {:induction false} SizeOfWanted<Msg>(leaves: seq<Leaf<Msg>>)
    ensures |Wanted(leaves)| + |Duplicates(leaves)| == |leaves|
  {
    if leaves != [] { SizeOfWanted(leaves[..|leaves| - 1]); }
  }

  /** With a table that was never built every probe is out of bounds. */
  lemma NeverBuilt<Msg>(want: seq<Entry<Msg>>, running: seq<Entry<Msg>>, hash: Key -> nat)
    ensures Sound([], want, running, hash) <==> running == []
  {
    if running != [] {
      assert Walk([], KeysOf(want), running[0].key, hash(running[0].key), 0) == Fault;
    }
  }

  /** With the previous call's table, dropping a source that sat at or past the new wanted size is out of bounds. */
  lemma StaleUnsound<Msg>(ix: seq<int>, want: seq<Entry<Msg>>, running: seq<Entry<Msg>>, hash: Key -> nat, j: nat)
    requires TableFor(ix, KeysOf(running), hash) && |want| <= j < |running| && running[j].key !in KeySet(want)
    ensures !Sound(ix, want, running, hash)
  {
    KeysOfIsKeySet(want, running[j].key);
    StaleFaults(ix, KeysOf(running), KeysOf(want), hash, j);
  }

  /** The table is right about this key. */
  ghost predicate RightKey<Msg>(ix: seq<int>, want: seq<Entry<Msg>>, hash: Key -> nat, k: Key) {
    Walk(ix, KeysOf(want), k, hash(k), 0) == Miss <==> k !in KeySet(want)
  }

  /** A table that is right about every running key misses exactly those that are not wanted. */
  lemma {:induction false} RightMisses<Msg>(ix: seq<int>, want: seq<Entry<Msg>>, running: seq<Entry<Msg>>,
                                            hash: Key -> nat)
    requires forall i :: 0 <= i < |running| ==> RightKey(ix, want, hash, running[i].key)
    ensures Missed(ix, want, running, hash) == KeysOf(Select(running, KeySet(want), false))
  {
    if running != [] {
      var front, e := running[..|running| - 1], running[|running| - 1];
      RightMisses(ix, want, front, hash);
      KeysOfMore(Select(front, KeySet(want), false), e);
      assert RightKey(ix, want, hash, e.key);
    }
  }

  /** A table built for want_ is right about every key. */
  lemma OwnTable<Msg>(ix: seq<int>, want: seq<Entry<Msg>>, running: seq<Entry<Msg>>, hash: Key -> nat)
    requires TableFor(ix, KeysOf(want), hash)
    ensures Sound(ix, want, running, hash)
    ensures Missed(ix, want, running, hash) == KeysOf(Select(running, KeySet(want), false))
  {
    forall i | 0 <= i < |running|
      ensures RightKey(ix, want, hash, running[i].key)
              && Walk(ix, KeysOf(want), running[i].key, hash(running[i].key), 0) != Fault
    {
      ProbeIsScan(ix, KeysOf(want), hash, running[i].key);
      KeysOfIsKeySet(want, running[i].key);
    }
    RightMisses(ix, want, running, hash);
  }

  // ── any history, exactly ──

  /** What runs after some calls. */
  function After<Msg>(subs: seq<seq<Leaf<Msg>>>): (running: seq<Entry<Msg>>)
    ensures Distinct(running)
  {
    if subs == [] then [] else Wanted(subs[|subs| - 1])
  }

  /** The keys that want_'s table was last built for: those of the last Sub that crossed. */
  function LastTable<Msg>(subs: seq<seq<Leaf<Msg>>>): Option<seq<Key>> {
    if subs == [] then None
    else if Crossed(subs[|subs| - 1]) then Some(KeysOf(Wanted(subs[|subs| - 1])))
    else LastTable(subs[..|subs| - 1])
  }

  /** The table is what that says. */
  ghost predicate Built(ix: seq<int>, table: Option<seq<Key>>, hash: Key -> nat) {
    if table.None? then ix == [] else TableFor(ix, table.value, hash)
  }

  /** A call after such a history is in bounds for every hash function. */
  ghost predicate BoundsFor<Msg>(table: Option<seq<Key>>, running: seq<Entry<Msg>>, next: seq<Leaf<Msg>>) {
    Safe(running, next) || (table.Some? && BoundsOk(table.value, KeysOf(running), KeysOf(Wanted(next))))
  }

  /** ... and plans the exact difference for every hash function. */
  ghost predicate ExactFor<Msg>(table: Option<seq<Key>>, running: seq<Entry<Msg>>, next: seq<Leaf<Msg>>) {
    Safe(running, next) || (table.Some? && ExactOk(table.value, KeysOf(running), KeysOf(Wanted(next))))
  }

  lemma HistoryMore<Msg>(subs: seq<seq<Leaf<Msg>>>, i: nat)
    requires i < |subs|
    ensures After(subs[..i + 1]) == Wanted(subs[i])
    ensures LastTable(subs[..i + 1]) ==
            if Crossed(subs[i]) then Some(KeysOf(Wanted(subs[i]))) else LastTable(subs[..i])
  {
    assert subs[..i + 1][..i] == subs[..i];
  }

  /** One call of a history. */
  method PastCall<Msg>(r: RunningSources<Msg>, subs: seq<seq<Leaf<Msg>>>, i: nat)
    requires i < |subs| && Built(r.wantIx, LastTable(subs[..i]), r.hash)
    modifies r
    ensures Built(r.wantIx, LastTable(subs[..i + 1]), r.hash) && r.running == After(subs[..i + 1])
  {
    var p, fine := r.Reconcile(subs[i]);
    HistoryMore(subs, i);
  }

  method Replay<Msg>(hash: Key -> nat, subs: seq<seq<Leaf<Msg>>>) returns (r: RunningSources<Msg>)
    ensures fresh(r) && r.hash == hash && r.running == After(subs) && Built(r.wantIx, LastTable(subs), hash)
  {
    r := new RunningSources<Msg>(hash);
    var i := 0;
    assert subs[..0] == [];
    while i < |subs|
      invariant 0 <= i <= |subs| && r.hash == hash && fresh(r)
      invariant r.running == After(subs[..i]) && Built(r.wantIx, LastTable(subs[..i]), hash)
    {
      PastCall(r, subs, i);
      i := i + 1;
    }
    assert subs[..i] == subs;
  }

  /** After any history of calls, whatever the hash function: the next call is in bounds if `BoundsFor`, and plans the
      exact difference if `ExactFor`. If no call of the history crossed, it is in bounds exactly if it is safe. */
  method AnyHistory<Msg>(hash: Key -> nat, history: seq<seq<Leaf<Msg>>>, next: seq<Leaf<Msg>>)
    returns (plan: Plan<Msg>, ok: bool)
    ensures BoundsFor(LastTable(history), After(history), next) ==> ok
    ensures ExactFor(LastTable(history), After(history), next) ==> ok && plan == Diff(After(history), next)
    ensures LastTable(history).None? ==> (ok <==> Safe(After(history), next))
  {
    var r := Replay(hash, history);
    NextIs(r.wantIx, hash, LastTable(history), r.running, next);
    plan, ok := r.Reconcile(next);
  }

  lemma NextIs<Msg>(ix: seq<int>, hash: Key -> nat, table: Option<seq<Key>>, running: seq<Entry<Msg>>,
                    next: seq<Leaf<Msg>>)
    requires Built(ix, table, hash) && Distinct(running)
    ensures table.None? ==> (Sound(ix, Wanted(next), running, hash) <==> running == [])
    ensures table.Some? && BoundsOk(table.value, KeysOf(running), KeysOf(Wanted(next))) ==>
              Sound(ix, Wanted(next), running, hash)
    ensures table.Some? && ExactOk(table.value, KeysOf(running), KeysOf(Wanted(next))) ==>
              Sound(ix, Wanted(next), running, hash)
              && Missed(ix, Wanted(next), running, hash) == Diff(running, next).stop
  {
    var want := Wanted(next);
    KeysDiffer(next);
    SoundIsInBounds(ix, want, running, hash);
    if table.None? {
      NeverBuilt(want, running, hash);
    } else {
      var was, asked, keys := table.value, KeysOf(running), KeysOf(want);
      if BoundsOk(was, asked, keys) { StaleInBounds(ix, was, asked, keys, hash); }
      if ExactOk(was, asked, keys) {
        StaleRight(ix, was, asked, keys, hash);
        ExactInBounds(ix, asked, keys, hash);
        ExactMisses(ix, want, running, hash);
      }
    }
  }

  lemma ExactInBounds(ix: seq<int>, asked: seq<Key>, keys: seq<Key>, hash: Key -> nat)
    requires Exact(ix, asked, keys, hash)
    ensures InBounds(ix, asked, keys, hash)
  {
    forall i | 0 <= i < |asked| ensures Walk(ix, keys, asked[i], hash(asked[i]), 0) != Fault {
      assert RightAt(ix, keys, hash, asked[i]);
    }
  }

  /** And only then. Where `ExactFor` fails there is a running source and a hash function for which the call reads out
      of bounds, or stops a source that it keeps; where `BoundsFor` fails, one for which it reads out of bounds. */
  method MisledByHash<Msg>(history: seq<seq<Leaf<Msg>>>, next: seq<Leaf<Msg>>, k: Key)
    returns (plan: Plan<Msg>, ok: bool)
    requires !Safe(After(history), next)
    requires LastTable(history).Some? ==>
               BadKey(LastTable(history).value, KeysOf(After(history)), KeysOf(Wanted(next)), k)
    ensures ok ==> k in plan.stop && k in KeySet(plan.keep)
    ensures LastTable(history).None? || |LastTable(history).value| > |Wanted(next)| ==> !ok
  {
    var table := LastTable(history);
    var was := if table.Some? then table.value else [];
    var keys := KeysOf(Wanted(next));
    var hash := x => BadHash(was, keys, k, x);
    var r := Replay(hash, history);
    TableKeysDiffer(history);
    MisledIs(r.wantIx, hash, table, r.running, next, k);
    plan, ok := r.Reconcile(next);
  }

  lemma {:induction false} TableKeysDiffer<Msg>(subs: seq<seq<Leaf<Msg>>>)
    ensures LastTable(subs).Some? ==> Different(LastTable(subs).value)
  {
    if subs != [] {
      KeysDiffer(subs[|subs| - 1]);
      TableKeysDiffer(subs[..|subs| - 1]);
    }
  }

  lemma MisledIs<Msg>(ix: seq<int>, hash: Key -> nat, table: Option<seq<Key>>, running: seq<Entry<Msg>>,
                      next: seq<Leaf<Msg>>, k: Key)
    requires Built(ix, table, hash) && (table.Some? ==> Different(table.value)) && !Safe(running, next)
    requires table.Some? ==> BadKey(table.value, KeysOf(running), KeysOf(Wanted(next)), k)
                             && forall x :: hash(x) == BadHash(table.value, KeysOf(Wanted(next)), k, x)
    ensures var want := Wanted(next);
            && (table.None? || |table.value| > |want| ==> !Sound(ix, want, running, hash))
            && (Sound(ix, want, running, hash) ==>
                  k in Missed(ix, want, running, hash) && k in KeySet(Diff(running, next).keep))
  {
    var want := Wanted(next);
    KeysDiffer(next);
    SoundIsInBounds(ix, want, running, hash);
    if table.None? {
      NeverBuilt(want, running, hash);
    } else {
      Misled(ix, table.value, KeysOf(want), hash, k);
      var i :| 0 <= i < |running| && KeysOf(running)[i] == k;
      assert running[i].key == k;
      if |table.value| <= |want| {
        MissedHas(ix, want, running, hash, i);
        KeysOfIsKeySet(want, k);
        KeysOfIsKeySet(running, k);
      }
    }
  }

  /** There is such a source whenever the condition fails. */
  lemma SomeSourceMisleads<Msg>(history: seq<seq<Leaf<Msg>>>, next: seq<Leaf<Msg>>) returns (k: Key)
    requires !ExactFor(LastTable(history), After(history), next)
    ensures LastTable(history).Some? ==>
              BadKey(LastTable(history).value, KeysOf(After(history)), KeysOf(Wanted(next)), k)
  {
    k := HostKey("");
    if LastTable(history).Some? {
      k := SomeBadKey(LastTable(history).value, KeysOf(After(history)), KeysOf(Wanted(next)));
    }
  }

  /** The same after a call that crossed, in sizes and places: in bounds if and only if both Subs want 17 sources, and
      exact if and only if moreover no common source changed its place. */
  lemma LargeThenSmall<Msg>(history: seq<seq<Leaf<Msg>>>, first: seq<Leaf<Msg>>, second: seq<Leaf<Msg>>)
    requires Crossed(first) && !Crossed(second)
    ensures var table := LastTable(history + [first]);
            && (BoundsFor(table, After(history + [first]), second) <==> |Wanted(first)| == |Wanted(second)|)
            && (ExactFor(table, After(history + [first]), second) <==>
                  |Wanted(first)| == |Wanted(second)| && SameIndices(KeysOf(Wanted(first)), KeysOf(Wanted(second))))
  {
    SizesMeet(first, second);
    KeysDiffer(first);
    KeysDiffer(second);
    OwnKeys(KeysOf(Wanted(first)), KeysOf(Wanted(second)));
  }

  /** A large Sub and then one that does not cross and drops a late source: out of bounds for every hash. */
  method LargeThenShrunk<Msg>(hash: Key -> nat, first: seq<Leaf<Msg>>, second: seq<Leaf<Msg>>, ghost j: nat)
    returns (ok: bool)
    requires Crossed(first) && !Crossed(second)
    requires |Wanted(second)| <= j < |Wanted(first)| && Wanted(first)[j].key !in KeySet(Wanted(second))
    ensures !ok
  {
    var r := new RunningSources<Msg>(hash);
    var p, fine := r.Reconcile(first);
    CrossedIsBig(first);
    StaleUnsound(r.wantIx, Wanted(second), r.running, hash, j);
    p, ok := r.Reconcile(second);
  }

  /** The wanted sizes: 17 or more, then 17 or less. */
  lemma SizesMeet<Msg>(first: seq<Leaf<Msg>>, second: seq<Leaf<Msg>>)
    requires Crossed(first) && !Crossed(second)
    ensures |Wanted(second)| <= THRESHOLD + 1 <= |Wanted(first)| && !Safe(Wanted(first), second)
  {
    CrossedIsBig(first);
    if second != [] { OneMoreWanted(second); }
  }

  lemma OneMoreWanted<Msg>(leaves: seq<Leaf<Msg>>)
    requires leaves != []
    ensures |Wanted(leaves)| <= |Wanted(leaves[..|leaves| - 1])| + 1
  {
  }

  lemma KeysDiffer<Msg>(leaves: seq<Leaf<Msg>>)
    ensures Different(KeysOf(Wanted(leaves)))
  {
  }

  /** What the table's answers come to: in bounds, and the missed keys. */
  lemma SoundIsInBounds<Msg>(ix: seq<int>, want: seq<Entry<Msg>>, running: seq<Entry<Msg>>, hash: Key -> nat)
    ensures Sound(ix, want, running, hash) <==> InBounds(ix, KeysOf(running), KeysOf(want), hash)
  {
    if Sound(ix, want, running, hash) {
      forall i | 0 <= i < |running|
        ensures Walk(ix, KeysOf(want), KeysOf(running)[i], hash(KeysOf(running)[i]), 0) != Fault
      {
        assert KeysOf(running)[i] == running[i].key;
      }
    }
    if InBounds(ix, KeysOf(running), KeysOf(want), hash) {
      forall j | 0 <= j < |running| ensures Walk(ix, KeysOf(want), running[j].key, hash(running[j].key), 0) != Fault {
        assert KeysOf(running)[j] == running[j].key;
      }
    }
  }

  lemma ExactMisses<Msg>(ix: seq<int>, want: seq<Entry<Msg>>, running: seq<Entry<Msg>>, hash: Key -> nat)
    requires Exact(ix, KeysOf(running), KeysOf(want), hash)
    ensures Missed(ix, want, running, hash) == KeysOf(Select(running, KeySet(want), false))
  {
    forall i | 0 <= i < |running| ensures RightKey(ix, want, hash, running[i].key) {
      assert KeysOf(running)[i] == running[i].key;
      assert RightAt(ix, KeysOf(want), hash, KeysOf(running)[i]);
      KeysOfIsKeySet(want, running[i].key);
    }
    RightMisses(ix, want, running, hash);
  }

  lemma {:induction false} MissedHas<Msg>(ix: seq<int>, want: seq<Entry<Msg>>, running: seq<Entry<Msg>>,
        hash: Key -> nat, i: nat)
    requires i < |running| && Walk(ix, KeysOf(want), running[i].key, hash(running[i].key), 0) == Miss
    ensures running[i].key in Missed(ix, want, running, hash)
  {
    if i < |running| - 1 {
      var front := running[..|running| - 1];
      MissedHas(ix, want, front, hash, i);
    }
  }

  // ── inputs for which it goes wrong ──

  /** Streams with different names are wanted as they come. */
  lemma {:induction false} StreamsAreNew(leaves: seq<Leaf<int>>, n: nat)
    requires n <= |leaves| && (forall i :: 0 <= i < |leaves| ==> leaves[i].Stream?)
    requires forall i, j :: 0 <= i < j < |leaves| ==> leaves[i].name != leaves[j].name
    ensures |Wanted(leaves[..n])| == n
    ensures forall i :: 0 <= i < n ==> Wanted(leaves[..n])[i] == Entry(StreamKey(leaves[i].name), leaves[i])
  {
    if n > 0 {
      StreamsAreNew(leaves, n - 1);
      assert leaves[..n] == leaves[..n - 1] + [leaves[n - 1]];
      WantedMore(leaves[..n - 1], leaves[n - 1]);
    }
  }

  function Name(length: nat): (s: string)
    ensures |s| == length
  { seq(length, _ => 'x') }

  /** n streams told apart by the length of their name, shortest first or longest first. */
  function Streams(n: nat, up: bool): (s: seq<Leaf<int>>)
    ensures |s| == n && forall i :: 0 <= i < n ==> s[i] == Stream(Name(if up then i else n - 1 - i))
  {
    seq(n, i requires 0 <= i < n => Leaf<int>.Stream(Name(if up then i else n - 1 - i)))
  }

  /** They are wanted as they come. */
  lemma WantedStreams(n: nat, up: bool, m: nat)
    requires m <= n
    ensures |Wanted(Streams(n, up)[..m])| == m
    ensures m == n ==> Streams(n, up)[..m] == Streams(n, up)
  {
    StreamsAreNew(Streams(n, up), m);
  }

  lemma KeysOfStreams(n: nat, up: bool)
    ensures |Wanted(Streams(n, up))| == n
    ensures forall i :: 0 <= i < n ==> KeysOf(Wanted(Streams(n, up)))[i] == StreamKey(Name(if up then i else n - 1 - i))
  {
    StreamsAreNew(Streams(n, up), n);
    assert Streams(n, up)[..n] == Streams(n, up);
  }

  /** Seventeen streams while anything runs, on a new diff. */
  lemma SeventeenIsUnsafe(running: seq<Entry<int>>, n: nat)
    requires running != [] && n == THRESHOLD + 1
    ensures !Safe(running, Streams(n, true))
  {
    WantedStreams(n, true, n - 1);
    WantedStreams(n, true, n);
    var s := Streams(n, true);
    assert s[..n] == s;
    UnsafeSizes(running, s);
  }

  lemma UnsafeSizes<Msg>(running: seq<Entry<Msg>>, leaves: seq<Leaf<Msg>>)
    requires running != [] && leaves != [] && |Wanted(leaves[..|leaves| - 1])| <= THRESHOLD < |Wanted(leaves)|
    ensures !Safe(running, leaves)
  {
  }

  /** The streams, and the first of them again. */
  function WithDuplicate(n: nat): seq<Leaf<int>>
    requires n > 0
  { Streams(n, true) + [Streams(n, true)[0]] }

  function NameLength(k: Key): nat { if k.StreamKey? then |k.name| else 0 }

  /** The i-th name has i characters. */
  ghost predicate ByLength(keys: seq<Key>) {
    forall i :: 0 <= i < |keys| ==> keys[i].StreamKey? && |keys[i].name| == i
  }

  ghost predicate Reversed(was: seq<Key>, keys: seq<Key>) {
    |was| == |keys| && forall i :: 0 <= i < |was| ==> was[i] == keys[|was| - 1 - i]
  }

  /** The duplicate makes the first Sub cross; the second, without one, does not. */
  lemma ReversedSubs(n: nat)
    requires n == THRESHOLD + 1
    ensures var first, second := WithDuplicate(n), Streams(n, false);
            && Crossed(first) && !Crossed(second) && |Wanted(first)| == n
            && ByLength(KeysOf(Wanted(first))) && Reversed(KeysOf(Wanted(first)), KeysOf(Wanted(second)))
  {
    DuplicateCrosses(n);
    WantedStreams(n, false, n - 1);
    KeysOfStreams(n, true);
    KeysOfStreams(n, false);
  }

  lemma DuplicateCrosses(n: nat)
    requires n == THRESHOLD + 1
    ensures Crossed(WithDuplicate(n)) && Wanted(WithDuplicate(n)) == Wanted(Streams(n, true))
  {
    var up := Streams(n, true);
    KeysOfStreams(n, true);
    assert WithDuplicate(n)[..n] == up;
    WantedMore(up, up[0]);
    KeysOfIsKeySet(Wanted(up), KeyAfter(up, up[0]));
    assert KeysOf(Wanted(up))[0] == KeyAfter(up, up[0]);
  }

  lemma LengthsAreOrder(was: seq<Key>)
    requires ByLength(was)
    ensures Different(was) && forall k :: k in was ==> NameLength(k) == HashBy(was, InOrder(|was|), 0, k)
  {
    forall k | k in was ensures NameLength(k) == HashBy(was, InOrder(|was|), 0, k) {
      var i := Place(was, k);
      assert was[i] == k;
    }
  }

  /** The i-th of n streams is missed exactly if it was further back than it is. */
  lemma ReversedMisses(ix: seq<int>, was: seq<Key>, keys: seq<Key>, i: nat)
    requires TableFor(ix, was, NameLength) && ByLength(was) && Reversed(was, keys) && Different(keys) && i < |was|
    ensures Walk(ix, keys, was[i], NameLength(was[i]), 0) == Miss <==> |was| - 1 - i < i
  {
    LengthsAreOrder(was);
    MissedIffForward(ix, was, keys, NameLength, i, |was| - 1 - i);
  }

  lemma {:induction false} ReversedStops(ix: seq<int>, running: seq<Entry<int>>, want: seq<Entry<int>>, m: nat)
    requires var was, keys := KeysOf(running), KeysOf(want);
             TableFor(ix, was, NameLength) && ByLength(was) && Reversed(was, keys) && Different(keys)
    requires m <= |running|
    ensures 2 * m <= |running| + 1 ==> |Missed(ix, want, running[..m], NameLength)| == 0
    ensures 2 * m > |running| + 1 ==> |Missed(ix, want, running[..m], NameLength)| == m - (|running| + 1) / 2
  {
    if m == 0 {
      assert running[..0] == [];
    } else {
      ReversedStops(ix, running, want, m - 1);
      ReversedMisses(ix, KeysOf(running), KeysOf(want), m - 1);
      assert KeysOf(running)[m - 1] == running[m - 1].key;
      MissedMore(ix, want, running, NameLength, m - 1);
    }
  }

  /** Seventeen streams and a duplicate, and then the seventeen in reverse: in bounds, nothing starts, everything is
      kept, and eight of the kept sources are stopped. */
  method KeptAndStopped() returns (plan: Plan<int>, ok: bool)
    ensures ok && plan.start == [] && |plan.keep| == 17 && |plan.stop| == 8
    ensures forall k :: k in plan.stop ==> k in KeySet(plan.keep)
  {
    var n := THRESHOLD + 1;
    ReversedSubs(n);
    var first, second := WithDuplicate(n), Streams(n, false);
    var r := new RunningSources<int>(NameLength);
    var p, fine := r.Reconcile(first);
    SizesMeet(first, second);
    ReversedPlan(r.wantIx, first, second);
    plan, ok := r.Reconcile(second);
  }

  lemma ReversedPlan(ix: seq<int>, first: seq<Leaf<int>>, second: seq<Leaf<int>>)
    requires TableFor(ix, KeysOf(Wanted(first)), NameLength) && |Wanted(first)| == THRESHOLD + 1
    requires ByLength(KeysOf(Wanted(first))) && Reversed(KeysOf(Wanted(first)), KeysOf(Wanted(second)))
    ensures var running, want := Wanted(first), Wanted(second);
            && Sound(ix, want, running, NameLength)
            && Diff(running, second).start == [] && Diff(running, second).keep == want
            && |Missed(ix, want, running, NameLength)| == 8
            && forall k :: k in Missed(ix, want, running, NameLength) ==> k in KeySet(want)
  {
    var running, want := Wanted(first), Wanted(second);
    KeysDiffer(second);
    StaleInBounds(ix, KeysOf(running), KeysOf(running), KeysOf(want), NameLength);
    SoundIsInBounds(ix, want, running, NameLength);
    ReversedKeeps(first, second);
    ReversedMissed(ix, running, want, second);
  }

  lemma ReversedKeeps(first: seq<Leaf<int>>, second: seq<Leaf<int>>)
    requires Reversed(KeysOf(Wanted(first)), KeysOf(Wanted(second)))
    ensures Diff(Wanted(first), second).start == [] && Diff(Wanted(first), second).keep == Wanted(second)
  {
    SameKeys(Wanted(first), Wanted(second));
    AllKept(Wanted(second), KeySet(Wanted(first)));
  }

  lemma ReversedMissed(ix: seq<int>, running: seq<Entry<int>>, want: seq<Entry<int>>, second: seq<Leaf<int>>)
    requires TableFor(ix, KeysOf(running), NameLength) && |running| == THRESHOLD + 1 && want == Wanted(second)
    requires ByLength(KeysOf(running)) && Reversed(KeysOf(running), KeysOf(want))
    ensures |Missed(ix, want, running, NameLength)| == 8
    ensures forall k :: k in Missed(ix, want, running, NameLength) ==> k in KeySet(want)
  {
    KeysDiffer(second);
    ReversedStops(ix, running, want, |running|);
    assert running[..|running|] == running;
    SameKeys(running, want);
    forall k | k in Missed(ix, want, running, NameLength) ensures k in KeySet(running) {
      MissedAreRunning(ix, want, running, NameLength, k);
    }
  }

  lemma SameKeys(running: seq<Entry<int>>, want: seq<Entry<int>>)
    requires Reversed(KeysOf(running), KeysOf(want))
    ensures KeySet(running) == KeySet(want)
  {
    var n := |running|;
    forall j | 0 <= j < n ensures running[j].key == want[n - 1 - j].key {
      assert KeysOf(running)[j] == KeysOf(want)[n - 1 - j];
    }
    forall j | 0 <= j < n ensures want[j].key in KeySet(running) { assert running[n - 1 - j].key == want[j].key; }
  }

  lemma {:induction false} AllKept<Msg>(es: seq<Entry<Msg>>, keys: set<Key>)
    requires KeySet(es) <= keys
    ensures Select(es, keys, true) == es && Select(es, keys, false) == []
  {
    if es != [] {
      var front, last := es[..|es| - 1], es[|es| - 1];
      assert es == front + [last];
      KeySetAppend(front, last);
      AllKept(front, keys);
    }
  }

  lemma {:induction false} MissedAreRunning<Msg>(ix: seq<int>, want: seq<Entry<Msg>>, running: seq<Entry<Msg>>,
                                                 hash: Key -> nat, k: Key)
    requires k in Missed(ix, want, running, hash)
    ensures k in KeySet(running)
  {
    var front, last := running[..|running| - 1], running[|running| - 1];
    assert running == front + [last];
    KeySetAppend(front, last);
    if k in Missed(ix, want, front, hash) { MissedAreRunning(ix, want, front, hash, k); }
  }
}
