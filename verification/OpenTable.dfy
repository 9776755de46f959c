/** Open addressing with linear probing, as the subscription diff uses it (`reconcile.hpp`).

  A table is a flat sequence of slots, each EMPTY or an index into a vector of keys. Nothing is assumed
  of the hash function. Capacities are powers of two, so masking a hash is taking it modulo the capacity. */
module OpenTable {
  import opened Pigeonhole

  const EMPTY: int := -1

  /** What one lookup does. `Fault` is undefined behaviour in the source: a read outside the table or
      outside the key vector, or a probe that never ends. */
  datatype Found = Hit(i: nat) | Miss | Fault

  /** The d-th slot from where a hash leads, going round. */
  function At(h: nat, d: nat, cap: nat): (s: nat)
    requires d < cap
    ensures s < cap
  {
    var start := h % cap;
    if start + d < cap then start + d else start + d - cap
  }

  /** probe(), from the d-th slot after the hash on. */
  function Walk<K(==)>(ix: seq<int>, keys: seq<K>, k: K, h: nat, d: nat): Found
    decreases |ix| - d
  {
    if d >= |ix| then Fault
    else
      var s := ix[At(h, d, |ix|)];
      if s == EMPTY then Miss
      else if !(0 <= s < |keys|) then Fault
      else if keys[s] == k then Hit(s)
      else Walk(ix, keys, k, h, d + 1)
  }

  /** Index i is in the d-th slot after its hash, and the slots before that hold indices that came earlier. */
  ghost predicate Lies(ix: seq<int>, i: int, h: nat, d: nat) {
    && d < |ix| && ix[At(h, d, |ix|)] == i
    && forall e :: 0 <= e < d ==> 0 <= ix[At(h, e, |ix|)] < i
  }

  ghost predicate Somewhere(ix: seq<int>, i: int, h: nat) { exists d :: Lies(ix, i, h, d) }

  /** Slots hold indices below n, no index twice. */
  ghost predicate Slotted(ix: seq<int>, n: nat) {
    && (forall s :: 0 <= s < |ix| ==> ix[s] == EMPTY || 0 <= ix[s] < n)
    && (forall s, t :: 0 <= s < t < |ix| && ix[s] != EMPTY ==> ix[s] != ix[t])
  }

  /** The table was built for these keys. */
  ghost predicate TableFor<K>(ix: seq<int>, keys: seq<K>, hash: K -> nat) {
    && Slotted(ix, |keys|) && 2 * |keys| <= |ix| && |ix| > 0
    && forall i :: 0 <= i < |keys| ==> Somewhere(ix, i, hash(keys[i]))
  }

  // ── some slot is empty ──

  /** A table at most half full has an empty slot. */
  lemma HasEmpty<K>(ix: seq<int>, keys: seq<K>, hash: K -> nat)
    requires TableFor(ix, keys, hash)
    ensures exists s :: 0 <= s < |ix| && ix[s] == EMPTY
  {
    if forall s :: 0 <= s < |ix| ==> ix[s] != EMPTY {
      FilledBound(ix, |keys|);
    }
  }

  /** Every slot is at some distance from every hash. */
  lemma Distance(h: nat, s: nat, cap: nat) returns (d: nat)
    requires s < cap
    ensures d < cap && At(h, d, cap) == s
  {
    var start := h % cap;
    d := if s >= start then s - start else s + cap - start;
  }

  // ── lookups agree with the scan ──

  /** For any hash function a lookup ends, reads nothing out of bounds, and finds a key exactly when a
      linear scan would. */
  lemma ProbeIsScan<K>(ix: seq<int>, keys: seq<K>, hash: K -> nat, k: K)
    requires TableFor(ix, keys, hash)
    ensures match Walk(ix, keys, k, hash(k), 0)
            case Hit(i) => i < |keys| && keys[i] == k
            case Miss => k !in keys
            case Fault => false
  {
    HasEmpty(ix, keys, hash);
    var s :| 0 <= s < |ix| && ix[s] == EMPTY;
    var d := Distance(hash(k), s, |ix|);
    WalkEnds(ix, keys, hash, k, 0, d);
  }

  lemma {:induction false} WalkEnds<K>(ix: seq<int>, keys: seq<K>, hash: K -> nat, k: K, d: nat, stop: nat)
    requires TableFor(ix, keys, hash) && d <= stop < |ix| && ix[At(hash(k), stop, |ix|)] == EMPTY
    requires forall e :: 0 <= e < d ==> ix[At(hash(k), e, |ix|)] != EMPTY && keys[ix[At(hash(k), e, |ix|)]] != k
    ensures match Walk(ix, keys, k, hash(k), d)
            case Hit(i) => i < |keys| && keys[i] == k
            case Miss => k !in keys
            case Fault => false
    decreases stop - d
  {
    var s := ix[At(hash(k), d, |ix|)];
    if s == EMPTY {
      forall i | 0 <= i < |keys| ensures keys[i] != k {
        assert Somewhere(ix, i, hash(keys[i]));
        var e :| Lies(ix, i, hash(keys[i]), e);
      }
    } else if keys[s] != k {
      WalkEnds(ix, keys, hash, k, d + 1, stop);
    }
  }

  /** A table built for another, longer vector: looking for one of its keys that is gone, and sat past the
      end of the new vector, reads out of bounds, whatever the hash function. */
  lemma StaleFaults<K>(ix: seq<int>, was: seq<K>, keys: seq<K>, hash: K -> nat, j: nat)
    requires TableFor(ix, was, hash) && |keys| <= j < |was| && was[j] !in keys
    ensures Walk(ix, keys, was[j], hash(was[j]), 0) == Fault
  {
    assert Somewhere(ix, j, hash(was[j]));
    var d :| Lies(ix, j, hash(was[j]), d);
    StaleWalk(ix, keys, was[j], hash(was[j]), 0, d, j);
  }

  lemma {:induction false} StaleWalk<K>(ix: seq<int>, keys: seq<K>, k: K, h: nat, d: nat, stop: nat, j: nat)
    requires k !in keys && |keys| <= j && Lies(ix, j, h, stop) && d <= stop
    ensures Walk(ix, keys, k, h, d) == Fault
    decreases stop - d
  {
    var s := ix[At(h, d, |ix|)];
    if d < stop && 0 <= s < |keys| {
      assert keys[s] in keys;
      StaleWalk(ix, keys, k, h, d + 1, stop, j);
    }
  }

  // ── building ──

  lemma EmptyTable<K>(cap: nat, hash: K -> nat)
    requires cap > 0
    ensures TableFor(seq(cap, _ => EMPTY), [], hash)
  {
  }

  lemma InsertKeeps<K>(ix: seq<int>, keys: seq<K>, hash: K -> nat, k: K, d: nat)
    requires TableFor(ix, keys, hash) && 2 * (|keys| + 1) <= |ix|
    requires d < |ix| && ix[At(hash(k), d, |ix|)] == EMPTY
    requires forall e :: 0 <= e < d ==> ix[At(hash(k), e, |ix|)] != EMPTY
    ensures TableFor(ix[At(hash(k), d, |ix|) := |keys|], keys + [k], hash)
  {
    var p, all := At(hash(k), d, |ix|), keys + [k];
    var t := ix[p := |keys|];
    SlottedMore(ix, |keys|, p);
    forall i | 0 <= i < |all| ensures Somewhere(t, i, hash(all[i])) {
      if i == |keys| {
        LiesNew(ix, i, hash(k), d);
      } else {
        assert Somewhere(ix, i, hash(keys[i]));
        var e :| Lies(ix, i, hash(keys[i]), e);
        LiesKept(ix, p, |keys|, i, hash(keys[i]), e);
      }
    }
  }

  lemma SlottedMore(ix: seq<int>, n: nat, p: nat)
    requires Slotted(ix, n) && p < |ix| && ix[p] == EMPTY
    ensures Slotted(ix[p := n], n + 1)
  {
  }

  lemma LiesKept(ix: seq<int>, p: nat, v: nat, i: nat, h: nat, d: nat)
    requires p < |ix| && ix[p] == EMPTY && Lies(ix, i, h, d)
    ensures Lies(ix[p := v], i, h, d)
  {
  }

  lemma LiesNew(ix: seq<int>, i: nat, h: nat, d: nat)
    requires d < |ix| && ix[At(h, d, |ix|)] == EMPTY && Slotted(ix, i)
    requires forall e :: 0 <= e < d ==> ix[At(h, e, |ix|)] != EMPTY
    ensures Lies(ix[At(h, d, |ix|) := i], i, h, d)
  {
  }

  /** Put the next index of the vector into the first empty slot after its hash. */
  method Insert<K>(ix: seq<int>, ghost keys: seq<K>, hash: K -> nat, k: K, i: nat) returns (t: seq<int>)
    requires TableFor(ix, keys, hash) && 2 * (|keys| + 1) <= |ix| && i == |keys|
    ensures |t| == |ix| && TableFor(t, keys + [k], hash)
  {
    HasEmpty(ix, keys, hash);
    ghost var s :| 0 <= s < |ix| && ix[s] == EMPTY;
    ghost var stop := Distance(hash(k), s, |ix|);
    var d := 0;
    while ix[At(hash(k), d, |ix|)] != EMPTY
      invariant 0 <= d <= stop
      invariant forall e :: 0 <= e < d ==> ix[At(hash(k), e, |ix|)] != EMPTY
      decreases stop - d
    {
      d := d + 1;
    }
    InsertKeeps(ix, keys, hash, k, d);
    t := ix[At(hash(k), d, |ix|) := i];
  }

  ghost predicate PowerOfTwo(n: nat)
    decreases n
  {
    n == 1 || (n > 1 && n % 2 == 0 && PowerOfTwo(n / 2))
  }

  /** The smallest power of two from 16 up that holds n keys at load one half. */
  method Capacity(n: nat) returns (cap: nat)
    ensures cap >= 16 && 2 * n <= cap && PowerOfTwo(cap)
    ensures cap == 16 || cap < 4 * n
  {
    cap := 16;
    assert PowerOfTwo(2) && PowerOfTwo(4) && PowerOfTwo(8);
    while cap < n * 2
      invariant cap >= 16 && PowerOfTwo(cap)
      invariant cap == 16 || cap < 4 * n
      decreases 2 * n - cap
    {
      assert cap * 2 / 2 == cap;
      cap := cap * 2;
    }
  }

  /** index(): a table for the whole vector. */
  method Index<K>(keys: seq<K>, hash: K -> nat) returns (ix: seq<int>)
    ensures TableFor(ix, keys, hash) && PowerOfTwo(|ix|)
  {
    var cap := Capacity(|keys|);
    ix := seq(cap, _ => EMPTY);
    EmptyTable(cap, hash);
    var i := 0;
    while i < |keys|
      invariant 0 <= i <= |keys| && |ix| == cap
      invariant TableFor(ix, keys[..i], hash)
    {
      ix := Insert(ix, keys[..i], hash, keys[i], i);
      assert keys[..i] + [keys[i]] == keys[..i + 1];
      i := i + 1;
    }
    assert keys[..i] == keys;
  }

  /** probe(): the loop, against `Walk`. The source's loop has no bound of its own; here running out of
      slots is the fault it would be. */
  method Probe<K(==)>(ix: seq<int>, keys: seq<K>, k: K, h: nat) returns (r: Found)
    ensures r == Walk(ix, keys, k, h, 0)
  {
    var d := 0;
    while d < |ix|
      invariant 0 <= d <= |ix|
      invariant Walk(ix, keys, k, h, 0) == Walk(ix, keys, k, h, d)
    {
      var s := ix[At(h, d, |ix|)];
      if s == EMPTY { return Miss; }
      if !(0 <= s < |keys|) { return Fault; }
      if keys[s] == k { return Hit(s); }
      d := d + 1;
    }
    return Fault;
  }
}
