/** What a lookup does in a table that was built for another vector, which is what the last loop of reconcile() may
  meet: exactly when every hash function gives the right answer, and one that does not where one exists. */
module StaleTable {
  import opened OpenTable
  import opened Pigeonhole

  predicate Different<K(==)>(keys: seq<K>) {
    forall i, j :: 0 <= i < j < |keys| ==> keys[i] != keys[j]
  }

  /** Looking up `asked` in the table, against `keys`, reads nothing out of bounds. */
  ghost predicate InBounds<K>(ix: seq<int>, asked: seq<K>, keys: seq<K>, hash: K -> nat) {
    forall i :: 0 <= i < |asked| ==> Walk(ix, keys, asked[i], hash(asked[i]), 0) != Fault
  }

  /** ... and says of each whether it is in `keys`. */
  ghost predicate Exact<K>(ix: seq<int>, asked: seq<K>, keys: seq<K>, hash: K -> nat) {
    forall i :: 0 <= i < |asked| ==> RightAt(ix, keys, hash, asked[i])
  }

  ghost predicate RightAt<K>(ix: seq<int>, keys: seq<K>, hash: K -> nat, k: K) {
    match Walk(ix, keys, k, hash(k), 0)
    case Hit(_) => k in keys
    case Miss => k !in keys
    case Fault => false
  }

  /** The key is in both vectors, at the same place. */
  predicate Stays<K(==)>(was: seq<K>, keys: seq<K>, k: K) {
    exists i :: 0 <= i < |was| && i < |keys| && was[i] == k && keys[i] == k
  }

  /** Every hash function keeps the lookups in bounds: nothing in the table is past the end, or every key asked for is
      found at its place before anything past the end is met. */
  ghost predicate BoundsOk<K>(was: seq<K>, asked: seq<K>, keys: seq<K>) {
    |was| <= |keys| || forall k :: k in asked ==> Stays(was, keys, k)
  }

  /** Every hash function gives the right answers. */
  ghost predicate ExactOk<K>(was: seq<K>, asked: seq<K>, keys: seq<K>) {
    && (forall k :: k in asked && k in keys ==> Stays(was, keys, k))
    && (|was| <= |keys| || forall k :: k in asked ==> k in keys)
  }

  // ── when it is right for every hash function ──

  lemma EndsInBounds<K>(ix: seq<int>, was: seq<K>, keys: seq<K>, hash: K -> nat, k: K)
    requires TableFor(ix, was, hash) && |was| <= |keys|
    ensures Walk(ix, keys, k, hash(k), 0) != Fault
  {
    HasEmpty(ix, was, hash);
    var s :| 0 <= s < |ix| && ix[s] == EMPTY;
    var d := Distance(hash(k), s, |ix|);
    EndsAtEmpty(ix, |was|, keys, k, hash(k), 0, d);
  }

  lemma {:induction false} EndsAtEmpty<K>(ix: seq<int>, n: nat, keys: seq<K>, k: K, h: nat, d: nat, stop: nat)
    requires Slotted(ix, n) && n <= |keys| && d <= stop < |ix| && ix[At(h, stop, |ix|)] == EMPTY
    ensures Walk(ix, keys, k, h, d) != Fault
    decreases stop - d
  {
    var s := ix[At(h, d, |ix|)];
    if s != EMPTY && keys[s] != k { EndsAtEmpty(ix, n, keys, k, h, d + 1, stop); }
  }

  lemma {:induction false} HitIsThere<K>(ix: seq<int>, keys: seq<K>, k: K, h: nat, d: nat)
    ensures Walk(ix, keys, k, h, d).Hit? ==> k in keys
    decreases |ix| - d
  {
    if d < |ix| { HitIsThere(ix, keys, k, h, d + 1); }
  }

  /** A key that kept its place is found, whatever else the table holds: only indices before its own come first. */
  lemma FindsStayed<K>(ix: seq<int>, was: seq<K>, keys: seq<K>, hash: K -> nat, k: K)
    requires TableFor(ix, was, hash) && Different(keys) && Stays(was, keys, k)
    ensures Walk(ix, keys, k, hash(k), 0).Hit?
  {
    var i :| 0 <= i < |was| && i < |keys| && was[i] == k && keys[i] == k;
    assert Somewhere(ix, i, hash(was[i]));
    var d :| Lies(ix, i, hash(k), d);
    WalkTo(ix, keys, i, hash(k), 0, d);
  }

  lemma {:induction false} WalkTo<K>(ix: seq<int>, keys: seq<K>, i: nat, h: nat, d: nat, stop: nat)
    requires Different(keys) && i < |keys| && Lies(ix, i, h, stop) && d <= stop
    ensures Walk(ix, keys, keys[i], h, d).Hit?
    decreases stop - d
  {
    if d < stop { WalkTo(ix, keys, i, h, d + 1, stop); }
  }

  lemma StaleInBounds<K>(ix: seq<int>, was: seq<K>, asked: seq<K>, keys: seq<K>, hash: K -> nat)
    requires TableFor(ix, was, hash) && Different(keys) && BoundsOk(was, asked, keys)
    ensures InBounds(ix, asked, keys, hash)
  {
    forall i | 0 <= i < |asked| ensures Walk(ix, keys, asked[i], hash(asked[i]), 0) != Fault {
      if |was| <= |keys| { EndsInBounds(ix, was, keys, hash, asked[i]); }
      else { FindsStayed(ix, was, keys, hash, asked[i]); }
    }
  }

  lemma StaleRight<K>(ix: seq<int>, was: seq<K>, asked: seq<K>, keys: seq<K>, hash: K -> nat)
    requires TableFor(ix, was, hash) && Different(keys) && ExactOk(was, asked, keys)
    ensures Exact(ix, asked, keys, hash)
  {
    forall i | 0 <= i < |asked| ensures RightAt(ix, keys, hash, asked[i]) {
      var k := asked[i];
      if k in keys {
        FindsStayed(ix, was, keys, hash, k);
      } else {
        EndsInBounds(ix, was, keys, hash, k);
        HitIsThere(ix, keys, k, hash(k), 0);
      }
    }
  }

  // ── tables, without the wrap ──

  lemma AtIs(h: nat, d: nat, cap: nat)
    requires h < cap && d < cap
    ensures At(h, d, cap) == if h + d < cap then h + d else h + d - cap
  {
    assert h % cap == h;
  }

  /** Where an index lies: at or after its hash with no gap before it, or before it with no gap up to the end. */
  lemma LiesWhere(ix: seq<int>, i: nat, h: nat) returns (s: nat)
    requires h < |ix| && Somewhere(ix, i, h)
    ensures s < |ix| && ix[s] == i
    ensures s >= h ==> NoGap(ix, h, s)
    ensures s < h ==> NoGap(ix, h, |ix|)
  {
    var d :| Lies(ix, i, h, d);
    var cap := |ix|;
    AtIs(h, d, cap);
    s := At(h, d, cap);
    var end := if s >= h then s else cap;
    forall t | h <= t < end ensures ix[t] != EMPTY {
      AtIs(h, t - h, cap);
      assert ix[At(h, t - h, cap)] != EMPTY;
    }
  }

  ghost predicate NoGap(ix: seq<int>, from: nat, to: nat) {
    to <= |ix| && forall t :: from <= t < to ==> ix[t] != EMPTY
  }

  lemma LiesHere(ix: seq<int>, i: nat, h: nat)
    requires h < |ix| && ix[h] == i
    ensures Somewhere(ix, i, h)
  {
    AtIs(h, 0, |ix|);
    assert Lies(ix, i, h, 0);
  }

  /** probe() while it does not come to the end of the table. */
  function Climb<K(==)>(ix: seq<int>, keys: seq<K>, k: K, s: nat): Found
    decreases |ix| - s
  {
    if s >= |ix| then Fault
    else if ix[s] == EMPTY then Miss
    else if !(0 <= ix[s] < |keys|) then Fault
    else if keys[ix[s]] == k then Hit(ix[s])
    else Climb(ix, keys, k, s + 1)
  }

  lemma {:induction false} ClimbIsWalk<K>(ix: seq<int>, keys: seq<K>, k: K, h: nat, d: nat, stop: nat)
    requires h + d <= stop < |ix| && ix[stop] == EMPTY
    ensures Walk(ix, keys, k, h, d) == Climb(ix, keys, k, h + d)
    decreases stop - h - d
  {
    AtIs(h, d, |ix|);
    if h + d < stop { ClimbIsWalk(ix, keys, k, h, d + 1, stop); }
  }

  // ── a hash function without collisions fixes the table ──

  /** `at` is the vector's order by hash: each of the first |keys| hashes belongs to one key. */
  ghost predicate Ranks<K>(keys: seq<K>, hash: K -> nat, at: seq<nat>) {
    && |at| == |keys| && (forall s :: 0 <= s < |at| ==> at[s] < |keys| && hash(keys[at[s]]) == s)
    && forall j :: 0 <= j < |keys| ==> hash(keys[j]) < |at| && at[hash(keys[j])] == j
  }

  /** The part of a table without gaps holds no more slots than there are keys. */
  lemma GapBound(ix: seq<int>, n: nat, from: nat)
    requires Slotted(ix, n) && from <= |ix| && NoGap(ix, from, |ix|)
    ensures |ix| - from <= n
  {
    var tail := ix[from..];
    forall t | 0 <= t < |tail| ensures 0 <= tail[t] < n { assert tail[t] == ix[from + t]; }
    forall t, u | 0 <= t < u < |tail| ensures tail[t] != tail[u] { assert ix[from + t] != ix[from + u]; }
    FilledBound(tail, n);
  }

  /** No index lies before its hash: that would need more full slots than there are keys. */
  lemma NoWrap<K>(ix: seq<int>, keys: seq<K>, hash: K -> nat, j: nat) returns (s: nat)
    requires TableFor(ix, keys, hash) && j < |keys| && hash(keys[j]) < |keys|
    ensures hash(keys[j]) <= s < |ix| && ix[s] == j && NoGap(ix, hash(keys[j]), s)
  {
    assert Somewhere(ix, j, hash(keys[j]));
    s := LiesWhere(ix, j, hash(keys[j]));
    if s < hash(keys[j]) { GapBound(ix, |keys|, hash(keys[j])); }
  }

  lemma OneSlot(ix: seq<int>, n: nat, s: nat, t: nat)
    requires Slotted(ix, n) && s < |ix| && t < |ix| && ix[s] == ix[t] && ix[s] != EMPTY
    ensures s == t
  {
  }

  lemma {:induction false} Settled<K>(ix: seq<int>, keys: seq<K>, hash: K -> nat, at: seq<nat>, s: nat)
    requires TableFor(ix, keys, hash) && Ranks(keys, hash, at) && s < |keys|
    ensures ix[s] == at[s]
    decreases s
  {
    var i := at[s];
    var slot := NoWrap(ix, keys, hash, i);
    if slot > s {
      var j := ix[s];
      assert j != EMPTY;
      var mine := NoWrap(ix, keys, hash, j);
      OneSlot(ix, |keys|, s, mine);
      if hash(keys[j]) < s { Settled(ix, keys, hash, at, hash(keys[j])); }
    }
  }

  /** The table holds `at` and then nothing. */
  ghost predicate Laid(ix: seq<int>, at: seq<nat>) {
    |at| < |ix| && forall s :: 0 <= s < |ix| ==> ix[s] == if s < |at| then at[s] else EMPTY
  }

  lemma AllSettled<K>(ix: seq<int>, keys: seq<K>, hash: K -> nat, at: seq<nat>)
    requires TableFor(ix, keys, hash) && Ranks(keys, hash, at)
    ensures Laid(ix, at)
  {
    forall s | 0 <= s < |ix| ensures ix[s] == if s < |at| then at[s] else EMPTY {
      if s < |at| {
        Settled(ix, keys, hash, at, s);
      } else if ix[s] != EMPTY {
        Settled(ix, keys, hash, at, hash(keys[ix[s]]));
      }
    }
  }

  /** There is such a table. */
  lemma TableOf<K>(keys: seq<K>, hash: K -> nat, at: seq<nat>) returns (ix: seq<int>)
    requires Ranks(keys, hash, at)
    ensures TableFor(ix, keys, hash) && Laid(ix, at)
  {
    var cap := 2 * |at| + 1;
    ix := seq(cap, s requires 0 <= s < cap => if s < |at| then at[s] else EMPTY);
    forall s, t | 0 <= s < t < |ix| && ix[s] != EMPTY ensures ix[s] != ix[t] {
      if t < |at| { assert hash(keys[at[s]]) == s && hash(keys[at[t]]) == t; }
    }
    forall i | 0 <= i < |keys| ensures Somewhere(ix, i, hash(keys[i])) { LiesHere(ix, i, hash(keys[i])); }
  }

  /** A climb in it past `k`'s place, if it has one, never hits. */
  lemma {:induction false} ClimbNoHit<K>(ix: seq<int>, at: seq<nat>, keys: seq<K>, k: K, s: nat)
    requires Laid(ix, at) && s <= |at|
    requires forall t :: s <= t < |at| && at[t] < |keys| ==> keys[at[t]] != k
    ensures !Climb(ix, keys, k, s).Hit?
    decreases |at| - s
  {
    if s < |at| && at[s] < |keys| { ClimbNoHit(ix, at, keys, k, s + 1); }
  }

  /** One that comes by an index past the end, and by nothing that matches before it, is out of bounds. */
  lemma {:induction false} ClimbFaults<K>(ix: seq<int>, at: seq<nat>, keys: seq<K>, k: K, s: nat, u: nat)
    requires Laid(ix, at) && s <= u < |at| && at[u] >= |keys|
    requires forall t :: s <= t < u && at[t] < |keys| ==> keys[at[t]] != k
    ensures Climb(ix, keys, k, s) == Fault
    decreases u - s
  {
    if s < u && at[s] < |keys| { ClimbFaults(ix, at, keys, k, s + 1, u); }
  }

  /** One that comes by the key's own place is a hit. */
  lemma {:induction false} ClimbHits<K>(ix: seq<int>, at: seq<nat>, keys: seq<K>, k: K, s: nat, u: nat)
    requires Laid(ix, at) && s <= u < |at| && at[u] < |keys| && keys[at[u]] == k
    requires forall t :: s <= t < u ==> at[t] < |keys|
    ensures Climb(ix, keys, k, s).Hit?
    decreases u - s
  {
    if s < u { ClimbHits(ix, at, keys, k, s + 1, u); }
  }

  // ── hash functions that mislead ──

  /** The place of a key. */
  function Place<K(==)>(keys: seq<K>, k: K): (i: nat)
    ensures i <= |keys| && (i < |keys| ==> keys[i] == k) && (k in keys <==> i < |keys|)
  {
    if keys == [] || keys[0] == k then 0 else 1 + Place(keys[1..], k)
  }

  lemma PlaceIs<K>(keys: seq<K>, i: nat)
    requires Different(keys) && i < |keys|
    ensures Place(keys, keys[i]) == i
  {
    assert keys[i] in keys;
  }

  /** An order that undoes itself. */
  ghost predicate Involution(at: seq<nat>) {
    forall s :: 0 <= s < |at| ==> at[s] < |at| && at[at[s]] == s
  }

  /** In order, in reverse order, or in order with two exchanged. */
  function InOrder(n: nat): (at: seq<nat>)
    ensures |at| == n && (forall s :: 0 <= s < n ==> at[s] == s) && Involution(at)
  { seq(n, s requires 0 <= s < n => s) }

  function Backwards(n: nat): (at: seq<nat>)
    ensures |at| == n && (forall s :: 0 <= s < n ==> at[s] == n - 1 - s) && Involution(at)
  { seq(n, s requires 0 <= s < n => n - 1 - s) }

  function Exchanged(n: nat, i: nat, j: nat): (at: seq<nat>)
    requires i < n && j < n
    ensures |at| == n && at[i] == j && at[j] == i && Involution(at)
    ensures forall s :: 0 <= s < n && s != i && s != j ==> at[s] == s
  { InOrder(n)[i := j][j := i] }

  /** The keys in the given order; any other key `far` on. */
  function HashBy<K(==)>(keys: seq<K>, at: seq<nat>, far: nat, k: K): nat {
    var i := Place(keys, k);
    if i < |at| then at[i] else far
  }

  lemma LaidBy<K>(ix: seq<int>, was: seq<K>, hash: K -> nat, at: seq<nat>, far: nat)
    requires TableFor(ix, was, hash) && Different(was) && |at| == |was| && Involution(at)
    requires forall k :: k in was ==> hash(k) == HashBy(was, at, far, k)
    ensures Laid(ix, at)
  {
    HashByRanks(was, hash, at, far);
    AllSettled(ix, was, hash, at);
  }

  lemma HashByRanks<K>(was: seq<K>, hash: K -> nat, at: seq<nat>, far: nat)
    requires Different(was) && |at| == |was| && Involution(at)
    requires forall k :: k in was ==> hash(k) == HashBy(was, at, far, k)
    ensures Ranks(was, hash, at)
  {
    forall j | 0 <= j < |was| ensures hash(was[j]) == at[j] {
      PlaceIs(was, j);
      assert was[j] in was;
    }
  }

  /** An order, and a start for keys outside the table, by which looking for `k` goes wrong. */
  function BadOrder<K(==)>(was: seq<K>, keys: seq<K>, k: K): (at: seq<nat>)
    ensures |at| == |was| && Involution(at)
  {
    var i, w := Place(was, k), |keys|;
    if |was| > w && i < w then Exchanged(|was|, i + 1, w)
    else if |was| <= w && Place(keys, k) > i then Backwards(|was|)
    else InOrder(|was|)
  }

  function BadHash<K(==)>(was: seq<K>, keys: seq<K>, k: K, x: K): nat {
    HashBy(was, BadOrder(was, keys, k), if |was| > |keys| then |keys| else |was|, x)
  }

  /** A key that did not keep its place is looked up out of bounds if the table holds indices past the end, and missed
      otherwise. */
  lemma Misled<K>(ix: seq<int>, was: seq<K>, keys: seq<K>, hash: K -> nat, k: K)
    requires TableFor(ix, was, hash) && Different(was) && Different(keys) && !Stays(was, keys, k)
    requires hash(k) == BadHash(was, keys, k, k) && forall x :: x in was ==> hash(x) == BadHash(was, keys, k, x)
    ensures |was| > |keys| ==> Walk(ix, keys, k, hash(k), 0) == Fault
    ensures |was| <= |keys| ==> Walk(ix, keys, k, hash(k), 0) == Miss
  {
    var at, i, w := BadOrder(was, keys, k), Place(was, k), |keys|;
    LaidBy(ix, was, hash, at, if |was| > w then w else |was|);
    ClimbIsWalk(ix, keys, k, hash(k), 0, |was|);
    if |was| > w {
      MisledFar(ix, at, was, keys, k, hash(k));
    } else {
      EndsInBounds(ix, was, keys, hash, k);
      MisledNear(ix, at, was, keys, k, hash(k));
    }
  }

  lemma MisledFar<K>(ix: seq<int>, at: seq<nat>, was: seq<K>, keys: seq<K>, k: K, h: nat)
    requires Laid(ix, at) && at == BadOrder(was, keys, k) && |was| > |keys| && !Stays(was, keys, k)
    requires h == HashBy(was, at, |keys|, k)
    ensures Climb(ix, keys, k, h) == Fault
  {
    var i, w := Place(was, k), |keys|;
    if i < w {
      assert at[i] == i && at[i + 1] == w && keys[i] != k;
      ClimbFaults(ix, at, keys, k, i, i + 1);
    } else if i < |was| {
      ClimbFaults(ix, at, keys, k, i, i);
    } else {
      ClimbFaults(ix, at, keys, k, w, w);
    }
  }

  lemma MisledNear<K>(ix: seq<int>, at: seq<nat>, was: seq<K>, keys: seq<K>, k: K, h: nat)
    requires Laid(ix, at) && at == BadOrder(was, keys, k) && |was| <= |keys| && !Stays(was, keys, k) && Different(keys)
    requires h == HashBy(was, at, |was|, k)
    ensures !Climb(ix, keys, k, h).Hit?
  {
    var i, j := Place(was, k), Place(keys, k);
    forall t | h <= t < |at| && at[t] < |keys| ensures keys[at[t]] != k {
      assert i < |was| ==> i != j;
      if keys[at[t]] == k { PlaceIs(keys, at[t]); }
    }
    ClimbNoHit(ix, at, keys, k, h);
  }

  /** Keys that are asked for and go wrong. */
  predicate BadKey<K(==)>(was: seq<K>, asked: seq<K>, keys: seq<K>, k: K) {
    k in asked && !Stays(was, keys, k) && (k in keys || |was| > |keys|)
  }

  lemma SomeBadKey<K>(was: seq<K>, asked: seq<K>, keys: seq<K>) returns (k: K)
    requires !ExactOk(was, asked, keys)
    ensures BadKey(was, asked, keys, k)
  {
    if x :| x in asked && x in keys && !Stays(was, keys, x) {
      k := x;
    } else {
      k :| k in asked && k !in keys;
    }
  }

  /** For every hash function and every table of the old keys the lookups are in bounds if and only if `BoundsOk`, and
      right if and only if `ExactOk`. */
  lemma StaleIff<K>(was: seq<K>, asked: seq<K>, keys: seq<K>)
    requires Different(was) && Different(keys)
    ensures (forall hash: K -> nat, ix :: TableFor(ix, was, hash) ==> InBounds(ix, asked, keys, hash)) <==>
            BoundsOk(was, asked, keys)
    ensures (forall hash: K -> nat, ix :: TableFor(ix, was, hash) ==> Exact(ix, asked, keys, hash)) <==>
            ExactOk(was, asked, keys)
  {
    if BoundsOk(was, asked, keys) {
      forall hash: K -> nat, ix | TableFor(ix, was, hash) ensures InBounds(ix, asked, keys, hash) {
        StaleInBounds(ix, was, asked, keys, hash);
      }
    } else {
      var k :| k in asked && !Stays(was, keys, k);
      var hash, ix := Witness(was, asked, keys, k);
    }
    if ExactOk(was, asked, keys) {
      forall hash: K -> nat, ix | TableFor(ix, was, hash) ensures Exact(ix, asked, keys, hash) {
        StaleRight(ix, was, asked, keys, hash);
      }
    } else {
      var k := SomeBadKey(was, asked, keys);
      var hash, ix := Witness(was, asked, keys, k);
    }
  }

  lemma Witness<K>(was: seq<K>, asked: seq<K>, keys: seq<K>, k: K) returns (hash: K -> nat, ix: seq<int>)
    requires Different(was) && Different(keys) && BadKey(was, asked, keys, k)
    ensures TableFor(ix, was, hash) && !Exact(ix, asked, keys, hash)
    ensures |was| > |keys| ==> !InBounds(ix, asked, keys, hash)
  {
    hash := (x: K) => BadHash(was, keys, k, x);
    ix := WitnessTable(was, asked, keys, k, hash);
  }

  lemma WitnessTable<K>(was: seq<K>, asked: seq<K>, keys: seq<K>, k: K, hash: K -> nat) returns (ix: seq<int>)
    requires Different(was) && Different(keys) && BadKey(was, asked, keys, k)
    requires forall x :: x in was || x == k ==> hash(x) == BadHash(was, keys, k, x)
    ensures TableFor(ix, was, hash) && !Exact(ix, asked, keys, hash)
    ensures |was| > |keys| ==> !InBounds(ix, asked, keys, hash)
  {
    var at := BadOrder(was, keys, k);
    HashByRanks(was, hash, at, if |was| > |keys| then |keys| else |was|);
    ix := TableOf(was, hash, at);
    Misled(ix, was, keys, hash, k);
    var i :| 0 <= i < |asked| && asked[i] == k;
    assert !RightAt(ix, keys, hash, asked[i]);
  }

  // ── the table of the very keys that are asked for ──

  /** Keys in both vectors are at the same place in both. */
  ghost predicate SameIndices<K>(was: seq<K>, keys: seq<K>) {
    forall i, j :: 0 <= i < |was| && 0 <= j < |keys| && was[i] == keys[j] ==> i == j
  }

  /** With a table of the keys asked for, and a new vector that is no longer: in bounds means as long, right means
      moreover that no common key moved. */
  lemma OwnKeys<K>(was: seq<K>, keys: seq<K>)
    requires Different(was) && Different(keys) && |keys| <= |was|
    ensures BoundsOk(was, was, keys) <==> |was| == |keys|
    ensures ExactOk(was, was, keys) <==> |was| == |keys| && SameIndices(was, keys)
  {
    if |was| > |keys| {
      assert was[|keys|] in was;
      assert !Stays(was, keys, was[|keys|]);
      TooMany(was, keys);
    } else {
      forall i, j | 0 <= i < |was| && 0 <= j < |keys| && was[i] == keys[j]
        ensures Stays(was, keys, was[i]) <==> i == j
      {
        if i == j { assert Stays(was, keys, was[i]); }
      }
    }
  }

  /** More different keys than there are places do not all fit. */
  lemma TooMany<K>(was: seq<K>, keys: seq<K>)
    requires Different(was) && |was| > |keys|
    ensures exists i :: 0 <= i < |was| && was[i] !in keys
  {
    if forall i :: 0 <= i < |was| ==> was[i] in keys {
      var ps := seq(|was|, i requires 0 <= i < |was| => Place(keys, was[i]));
      forall i, j | 0 <= i < j < |ps| ensures ps[i] != ps[j] { assert keys[ps[i]] == was[i] && keys[ps[j]] == was[j]; }
      forall i | 0 <= i < |ps| ensures 0 <= ps[i] < |keys| { assert was[i] in keys; }
      FilledBound(ps, |keys|);
    }
  }

  /** Taking the keys in order, a common key is missed exactly if it moved to the front. */
  lemma MissedIffForward<K>(ix: seq<int>, was: seq<K>, keys: seq<K>, hash: K -> nat, i: nat, j: nat)
    requires TableFor(ix, was, hash) && Different(was) && Different(keys) && |keys| == |was|
    requires i < |was| && j < |keys| && was[i] == keys[j]
    requires forall k :: k in was ==> hash(k) == HashBy(was, InOrder(|was|), 0, k)
    ensures Walk(ix, keys, was[i], hash(was[i]), 0) == Miss <==> j < i
  {
    LaidBy(ix, was, hash, InOrder(|was|), 0);
    PlaceIs(was, i);
    assert was[i] in was && hash(was[i]) == i;
    ClimbIsWalk(ix, keys, was[i], i, 0, |was|);
    EndsInBounds(ix, was, keys, hash, was[i]);
    ClimbFrom(ix, keys, |was|, i, j);
  }

  lemma ClimbFrom<K>(ix: seq<int>, keys: seq<K>, n: nat, i: nat, j: nat)
    requires Laid(ix, InOrder(n)) && Different(keys) && |keys| == n && i < n && j < n
    ensures Climb(ix, keys, keys[j], i).Hit? <==> i <= j
  {
    if i <= j { ClimbHits(ix, InOrder(n), keys, keys[j], i, j); }
    else { ClimbNoHit(ix, InOrder(n), keys, keys[j], i); }
  }
}
