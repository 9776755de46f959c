/** `after` and `every` on an indexed binary heap (`timer_heap.hpp`).

  Three structures, one meaning: the heap orders the entries by deadline, the slot table says where each
  entry sits, the free list says which slots to reuse. Together they are a map from live ids to timers,
  the ghost field `timers`, and every operation is specified on that map. */
module TimerHeap {
  import opened Wrappers
  import Clock

  const GENERATIONS: nat := 0x1_0000_0000

  /** (generation << 32) | slot, unpacked. */
  datatype Id = Id(gen: nat, ix: nat)

  datatype Timer<+P> = Timer(when: int, period: int, payload: P)

  datatype Entry<+P> = Entry(when: int, period: int, payload: P, id: Id)

  /** `pos` is None where the source stores kFreePos. */
  datatype Slot = Slot(pos: Option<nat>, gen: nat)

  // ── the packed form of an id ──

  function Pack(id: Id): nat { id.gen * GENERATIONS + id.ix }

  function Unpack(n: nat): Id { Id(n / GENERATIONS, n % GENERATIONS) }

  /** 32 bits each: the generation above, the slot below; nothing is lost either way. */
  lemma PackRoundTrip(id: Id, n: nat)
    ensures id.ix < GENERATIONS ==> Unpack(Pack(id)) == id
    ensures Pack(Unpack(n)) == n
  {
    if id.ix < GENERATIONS {
      assert (id.gen * GENERATIONS + id.ix) / GENERATIONS == id.gen;
    }
  }

  // ── generations ──

  /** A 32-bit increment. */
  function NextGen(gen: nat): nat { if gen + 1 == GENERATIONS then 0 else gen + 1 }

  function GenAfter(gen: nat, frees: nat): nat {
    if frees == 0 then gen else NextGen(GenAfter(gen, frees - 1))
  }

  /** A stale id matches its slot again exactly after a multiple of 2^32 frees of that slot, never before. */
  lemma {:induction false} StaleUntilWrap(gen: nat, frees: nat)
    requires gen < GENERATIONS
    ensures GenAfter(gen, frees) == (gen + frees) % GENERATIONS
    ensures GenAfter(gen, frees) == gen <==> frees % GENERATIONS == 0
  {
    if frees > 0 { StaleUntilWrap(gen, frees - 1); }
  }

  // ── what ties the three structures together ──

  function Meaning<P>(e: Entry<P>): Timer<P> { Timer(e.when, e.period, e.payload) }

  ghost predicate Placed<P>(e: Entry<P>, i: nat, slots: seq<Slot>, timers: map<Id, Timer<P>>) {
    && e.id.ix < |slots| && slots[e.id.ix] == Slot(Some(i), e.id.gen)
    && e.id in timers && timers[e.id] == Meaning(e)
  }

  ghost predicate Found<P>(id: Id, heap: seq<Entry<P>>, slots: seq<Slot>) {
    && id.ix < |slots| && slots[id.ix].gen == id.gen && slots[id.ix].pos.Some?
    && slots[id.ix].pos.value < |heap| && heap[slots[id.ix].pos.value].id == id
  }

  /** The heap and the slot table agree and hold exactly `timers`, except that the slot `hole` may still
      point somewhere while its entry is in our hands. */
  ghost predicate LinkedBut<P>(heap: seq<Entry<P>>, slots: seq<Slot>, timers: map<Id, Timer<P>>, hole: nat) {
    && (forall i :: 0 <= i < |heap| ==> Placed(heap[i], i, slots, timers))
    && (forall id :: id in timers ==> Found(id, heap, slots) && id.ix != hole)
    && (forall ix :: 0 <= ix < |slots| && ix != hole && slots[ix].pos.Some? ==> Id(slots[ix].gen, ix) in timers)
  }

  ghost predicate Linked<P>(heap: seq<Entry<P>>, slots: seq<Slot>, timers: map<Id, Timer<P>>) {
    LinkedBut(heap, slots, timers, |slots|)
  }

  /** The free list holds each unused slot once. */
  ghost predicate FreeOk(free: seq<nat>, slots: seq<Slot>) {
    && (forall j :: 0 <= j < |free| ==> free[j] < |slots| && slots[free[j]].pos.None?)
    && (forall i, j :: 0 <= i < j < |free| ==> free[i] != free[j])
    && (forall ix :: 0 <= ix < |slots| && slots[ix].pos.None? ==> ix in free)
  }

  /** A slot's generation is the number of times it was freed, in 32 bits. */
  ghost predicate GenOk(slots: seq<Slot>, frees: seq<nat>) {
    |frees| == |slots| && forall ix :: 0 <= ix < |slots| ==> slots[ix].gen == frees[ix] % GENERATIONS
  }

  /** An id that was handed out is live, or its slot has moved on to a later generation, unless the slot was freed
      2^32 times. */
  ghost predicate IdOk<P>(id: Id, frees: seq<nat>, timers: map<Id, Timer<P>>) {
    id.ix < |frees| && (frees[id.ix] < GENERATIONS ==> id.gen < frees[id.ix] || id in timers)
  }

  ghost predicate IssuedOk<P>(issued: set<Id>, frees: seq<nat>, timers: map<Id, Timer<P>>) {
    forall id :: id in issued ==> IdOk(id, frees, timers)
  }

  // ── what one call does, for its callers ──

  /** The slots whose timer left the map. */
  ghost function Left<P>(t: map<Id, Timer<P>>, t': map<Id, Timer<P>>): set<nat> {
    set id | id in t && id !in t' :: id.ix
  }

  /** Exactly these slots were freed, once each; new slots were never freed. */
  ghost predicate FreedAs(f: seq<nat>, f': seq<nat>, left: set<nat>) {
    && |f| <= |f'| && (forall ix :: 0 <= ix < |f| ==> f'[ix] == f[ix] + if ix in left then 1 else 0)
    && forall ix :: |f| <= ix < |f'| ==> f'[ix] == 0
  }

  /** Live ids carry the free count of their slot. */
  ghost predicate Numbered<P>(t: map<Id, Timer<P>>, f: seq<nat>) {
    forall id :: id in t ==> id.ix < |f| && id.gen == f[id.ix] % GENERATIONS
  }

  /** A call: a slot is freed when its timer leaves the map, and only then. */
  ghost predicate Call<P>(t: map<Id, Timer<P>>, f: seq<nat>, t': map<Id, Timer<P>>, f': seq<nat>) {
    FreedAs(f, f', Left(t, t')) && Numbered(t', f')
  }

  // ── heap order ──

  function Parent(i: nat): nat requires i > 0 { (i - 1) / 2 }

  /** Entry i is not earlier than its parent. */
  ghost predicate Fits<P>(heap: seq<Entry<P>>, i: nat)
    requires i < |heap|
  {
    i > 0 ==> heap[Parent(i)].when <= heap[i].when
  }

  ghost predicate Ordered<P>(heap: seq<Entry<P>>) {
    forall i :: 0 <= i < |heap| ==> Fits(heap, i)
  }

  /** The root is earliest. */
  lemma {:induction false} RootIsLeast<P>(heap: seq<Entry<P>>, i: nat)
    requires Ordered(heap) && i < |heap|
    ensures heap[0].when <= heap[i].when
  {
    if i > 0 {
      assert Fits(heap, i);
      RootIsLeast(heap, Parent(i));
    }
  }

  // ── one move ──

  function Swap<P>(heap: seq<Entry<P>>, i: nat, j: nat): seq<Entry<P>>
    requires i < |heap| && j < |heap|
  {
    heap[i := heap[j]][j := heap[i]]
  }

  /** note(i): the slot of the entry at i points at i. */
  function Note<P>(heap: seq<Entry<P>>, slots: seq<Slot>, i: nat): seq<Slot>
    requires i < |heap| && heap[i].id.ix < |slots|
  {
    slots[heap[i].id.ix := slots[heap[i].id.ix].(pos := Some(i))]
  }

  lemma SwapLinked<P>(heap: seq<Entry<P>>, slots: seq<Slot>, timers: map<Id, Timer<P>>, hole: nat, i: nat, j: nat)
    requires LinkedBut(heap, slots, timers, hole) && i < |heap| && j < |heap| && i != j
    ensures var h := Swap(heap, i, j);
            && h[i].id.ix < |slots| && h[j].id.ix < |slots|
            && LinkedBut(h, Note(h, Note(h, slots, i), j), timers, hole)
  {
    var h := Swap(heap, i, j);
    assert Placed(heap[i], i, slots, timers) && Placed(heap[j], j, slots, timers);
    var s := Note(h, Note(h, slots, i), j);
    forall k | 0 <= k < |h| ensures Placed(h[k], k, s, timers) {
      assert Placed(heap[k], k, slots, timers);
    }
    forall id | id in timers ensures Found(id, h, s) && id.ix != hole {
      assert Found(id, heap, slots);
    }
  }

  /** Lookup by id finds exactly the live ids. */
  function SlotOf(slots: seq<Slot>, id: Id): Option<nat> {
    if id.ix >= |slots| || slots[id.ix].gen != id.gen then None else slots[id.ix].pos
  }

  lemma SlotOfIsLookup<P>(heap: seq<Entry<P>>, slots: seq<Slot>, timers: map<Id, Timer<P>>, id: Id)
    requires Linked(heap, slots, timers)
    ensures SlotOf(slots, id).Some? <==> id in timers
    ensures id in timers ==> SlotOf(slots, id).value < |heap| && heap[SlotOf(slots, id).value].id == id
  {
    if id in timers { assert Found(id, heap, slots); }
  }

  // ── sifting ──

  /** The children of i are not earlier than its parent, so i may be exchanged with it. */
  ghost predicate Bridged<P>(heap: seq<Entry<P>>, i: nat)
    requires i < |heap|
  {
    forall j :: 0 < j < |heap| && i > 0 && Parent(j) == i ==> heap[Parent(i)].when <= heap[j].when
  }

  /** Only i may be earlier than its parent. */
  ghost predicate Rising<P>(heap: seq<Entry<P>>, i: nat) {
    && i < |heap| && Bridged(heap, i)
    && (forall j :: 0 <= j < |heap| && j != i ==> Fits(heap, j))
  }

  /** Only i may be out of place, against its parent or its children. */
  ghost predicate Loose<P>(heap: seq<Entry<P>>, i: nat) {
    && i < |heap| && Bridged(heap, i)
    && (forall j :: 0 <= j < |heap| && j != i && (j > 0 ==> Parent(j) != i) ==> Fits(heap, j))
  }

  lemma RiseStep<P>(heap: seq<Entry<P>>, i: nat)
    requires Rising(heap, i) && i > 0 && heap[i].when < heap[Parent(i)].when
    ensures Rising(Swap(heap, Parent(i), i), Parent(i))
  {
    var p, h := Parent(i), Swap(heap, Parent(i), i);
    forall j | 0 <= j < |h| && j != p ensures Fits(h, j) {
      assert j != i ==> Fits(heap, j);
    }
    if p > 0 { assert Fits(heap, p); }
    forall j | 0 < j < |h| && p > 0 && Parent(j) == p ensures h[Parent(p)].when <= h[j].when {
      assert j != i ==> Fits(heap, j);
    }
  }

  lemma LooseRises<P>(heap: seq<Entry<P>>, i: nat)
    requires Loose(heap, i) && i > 0 && heap[i].when < heap[Parent(i)].when
    ensures Loose(Swap(heap, Parent(i), i), Parent(i))
  {
    var p, h := Parent(i), Swap(heap, Parent(i), i);
    if p > 0 { assert Fits(heap, p); }
    forall j | 0 <= j < |h| && j != p && (j > 0 ==> Parent(j) != p) ensures Fits(h, j) {
      if j > 0 && Parent(j) != i { assert Fits(heap, j); }
    }
    forall j | 0 < j < |h| && p > 0 && Parent(j) == p ensures h[Parent(p)].when <= h[j].when {
      assert j != i ==> Fits(heap, j);
    }
  }

  /** The earlier child of i, or i itself when neither child is earlier. */
  function Best<P>(heap: seq<Entry<P>>, i: nat): (best: nat)
    requires i < |heap|
    ensures best < |heap| && (best != i ==> best > 0 && Parent(best) == i && heap[best].when < heap[i].when)
    ensures forall j :: 0 < j < |heap| && Parent(j) == i ==> heap[best].when <= heap[j].when
  {
    var l, r := 2 * i + 1, 2 * i + 2;
    var b := if l < |heap| && heap[l].when < heap[i].when then l else i;
    if r < |heap| && heap[r].when < heap[b].when then r else b
  }

  lemma SinkStep<P>(heap: seq<Entry<P>>, i: nat)
    requires Loose(heap, i) && Fits(heap, i) && Best(heap, i) != i
    ensures var b := Best(heap, i); var h := Swap(heap, i, b); Loose(h, b) && Fits(h, b)
  {
    var b := Best(heap, i);
    var h := Swap(heap, i, b);
    forall j | 0 <= j < |h| && j != b && (j > 0 ==> Parent(j) != b) ensures Fits(h, j) {
      if j != i && (j > 0 ==> Parent(j) != i) { assert Fits(heap, j); }
    }
    forall j | 0 < j < |h| && b > 0 && Parent(j) == b ensures h[Parent(b)].when <= h[j].when {
      assert Fits(heap, j);
    }
  }

  lemma SinkDone<P>(heap: seq<Entry<P>>, i: nat)
    requires Loose(heap, i) && Fits(heap, i) && Best(heap, i) == i
    ensures Ordered(heap)
  {
    forall j | 0 <= j < |heap| ensures Fits(heap, j) {
    }
  }

  // ── taking an entry out, putting one in ──

  /** The heap without entry i: the last entry moves into the hole. */
  function Without<P>(heap: seq<Entry<P>>, i: nat): seq<Entry<P>>
    requires i < |heap|
  {
    var last := |heap| - 1;
    heap[i := heap[last]][..last]
  }

  lemma TakeLinked<P>(heap: seq<Entry<P>>, slots: seq<Slot>, timers: map<Id, Timer<P>>, i: nat)
    requires Linked(heap, slots, timers) && i < |heap|
    ensures var h, id := Without(heap, i), heap[i].id;
            && id.ix < |slots| && slots[id.ix].gen == id.gen
            && (i < |h| ==> h[i].id.ix < |slots| && h[i].id.ix != id.ix)
            && LinkedBut(h, if i < |h| then Note(h, slots, i) else slots, timers - {id}, id.ix)
  {
    var h, id, last := Without(heap, i), heap[i].id, |heap| - 1;
    assert Placed(heap[i], i, slots, timers) && Placed(heap[last], last, slots, timers);
    var s := if i < |h| then Note(h, slots, i) else slots;
    forall k | 0 <= k < |h| ensures Placed(h[k], k, s, timers - {id}) {
      assert Placed(heap[k], k, slots, timers);
    }
    forall o | o in timers - {id} ensures Found(o, h, s) && o.ix != id.ix {
      assert Found(o, heap, slots);
    }
  }

  /** The slots after entry i was taken: only a position moved, and the entry's own slot still points somewhere. */
  lemma TakeShape<P>(heap: seq<Entry<P>>, slots: seq<Slot>, timers: map<Id, Timer<P>>, i: nat)
    requires Linked(heap, slots, timers) && i < |heap|
    ensures var h, id := Without(heap, i), heap[i].id;
            && id in timers && timers[id] == Meaning(heap[i]) && id.ix < |slots|
            && (i < |h| ==> h[i].id.ix < |slots|)
            && var s := if i < |h| then Note(h, slots, i) else slots;
               SameShape(slots, s) && s[id.ix].gen == id.gen && s[id.ix].pos.Some?
  {
    var last := |heap| - 1;
    assert Placed(heap[i], i, slots, timers) && Placed(heap[last], last, slots, timers);
  }

  lemma FreeLinked<P>(heap: seq<Entry<P>>, slots: seq<Slot>, timers: map<Id, Timer<P>>, ix: nat, gen: nat)
    requires LinkedBut(heap, slots, timers, ix) && ix < |slots|
    ensures Linked(heap, slots[ix := Slot(None, gen)], timers)
  {
    var s := slots[ix := Slot(None, gen)];
    forall k | 0 <= k < |heap| ensures Placed(heap[k], k, s, timers) {
      assert Placed(heap[k], k, slots, timers);
      assert heap[k].id in timers && Found(heap[k].id, heap, slots);
    }
    forall o | o in timers ensures Found(o, heap, s) {
      assert Found(o, heap, slots);
    }
  }

  lemma PutLinked<P>(heap: seq<Entry<P>>, slots: seq<Slot>, timers: map<Id, Timer<P>>, e: Entry<P>)
    requires LinkedBut(heap, slots, timers, e.id.ix) && e.id.ix < |slots| && slots[e.id.ix].gen == e.id.gen
    ensures var h := heap + [e]; Linked(h, Note(h, slots, |heap|), timers[e.id := Meaning(e)])
  {
    var h, t := heap + [e], timers[e.id := Meaning(e)];
    var s := Note(h, slots, |heap|);
    forall k | 0 <= k < |h| ensures Placed(h[k], k, s, t) {
      if k < |heap| {
        assert Placed(heap[k], k, slots, timers);
        assert Found(heap[k].id, heap, slots);
      }
    }
    forall o | o in t ensures Found(o, h, s) {
      if o != e.id { assert Found(o, heap, slots); }
    }
  }

  lemma WithoutLoose<P>(heap: seq<Entry<P>>, i: nat)
    requires Ordered(heap) && i < |heap| - 1
    ensures Loose(Without(heap, i), i)
  {
    var h := Without(heap, i);
    forall j | 0 <= j < |h| && j != i && (j > 0 ==> Parent(j) != i) ensures Fits(h, j) {
      assert Fits(heap, j);
    }
    forall j | 0 < j < |h| && i > 0 && Parent(j) == i ensures h[Parent(i)].when <= h[j].when {
      assert Fits(heap, j) && Fits(heap, i);
    }
  }

  lemma PutRising<P>(heap: seq<Entry<P>>, e: Entry<P>)
    requires Ordered(heap)
    ensures Rising(heap + [e], |heap|)
  {
    var h := heap + [e];
    forall j | 0 <= j < |h| && j != |heap| ensures Fits(h, j) {
      assert Fits(heap, j);
    }
  }

  lemma LastOut<P>(heap: seq<Entry<P>>)
    requires Ordered(heap) && heap != []
    ensures Ordered(heap[..|heap| - 1])
  {
    var h := heap[..|heap| - 1];
    forall j | 0 <= j < |h| ensures Fits(h, j) {
      assert Fits(heap, j);
    }
  }

  // ── the free list ──

  /** As FreeOk, but the unused slot `ix` is in our hands instead of on the list. */
  ghost predicate FreeBut(free: seq<nat>, slots: seq<Slot>, ix: nat) {
    && (forall j :: 0 <= j < |free| ==> free[j] < |slots| && slots[free[j]].pos.None? && free[j] != ix)
    && (forall i, j :: 0 <= i < j < |free| ==> free[i] != free[j])
    && (forall k :: 0 <= k < |slots| && k != ix && slots[k].pos.None? ==> k in free)
  }

  lemma FreePopped(free: seq<nat>, slots: seq<Slot>)
    requires FreeOk(free, slots) && free != []
    ensures var last := |free| - 1; FreeBut(free[..last], slots, free[last])
  {
    var last := |free| - 1;
    forall k | 0 <= k < |slots| && k != free[last] && slots[k].pos.None? ensures k in free[..last] {
      var j :| 0 <= j < |free| && free[j] == k;
      assert free[..last][j] == k;
    }
  }

  lemma FreePushed(free: seq<nat>, slots: seq<Slot>, ix: nat)
    requires FreeBut(free, slots, ix) && ix < |slots| && slots[ix].pos.None?
    ensures FreeOk(free + [ix], slots)
  {
    var f := free + [ix];
    assert f[|free|] == ix;
    forall k | 0 <= k < |slots| && slots[k].pos.None? ensures k in f {
      if k != ix { assert k in free; }
    }
  }

  /** Only positions moved: no slot but `ix` was freed, taken or given a new generation. */
  ghost predicate SameBut(a: seq<Slot>, b: seq<Slot>, ix: nat) {
    && |a| == |b|
    && forall k :: 0 <= k < |a| && k != ix ==> a[k].gen == b[k].gen && (a[k].pos.None? <==> b[k].pos.None?)
  }

  lemma FreeKept(free: seq<nat>, a: seq<Slot>, b: seq<Slot>, ix: nat)
    requires FreeBut(free, a, ix) && SameBut(a, b, ix)
    ensures FreeBut(free, b, ix)
  {
  }

  /** As IssuedOk, but `mine` is in our hands. */
  ghost predicate IssuedBut<P>(issued: set<Id>, frees: seq<nat>, timers: map<Id, Timer<P>>, mine: Id) {
    forall id :: id in issued && id != mine ==> IdOk(id, frees, timers)
  }

  /** Everything in order but for the slot of `id`, which is in our hands: neither armed nor free. */
  ghost predicate Held<P>(heap: seq<Entry<P>>, slots: seq<Slot>, free: seq<nat>, timers: map<Id, Timer<P>>,
                          issued: set<Id>, frees: seq<nat>, id: Id)
  {
    && LinkedBut(heap, slots, timers, id.ix) && FreeBut(free, slots, id.ix)
    && id.ix < |slots| && slots[id.ix].gen == id.gen
    && GenOk(slots, frees) && IssuedBut(issued, frees, timers, id)
  }

  lemma GenKept(a: seq<Slot>, b: seq<Slot>, frees: seq<nat>)
    requires GenOk(a, frees) && SameShape(a, b)
    ensures GenOk(b, frees)
  {
  }

  /** A slot taken from the free list carries an id no one has, and until it was freed 2^32 times a new one. */
  lemma FreshId<P>(heap: seq<Entry<P>>, slots: seq<Slot>, timers: map<Id, Timer<P>>, issued: set<Id>,
        frees: seq<nat>, ix: nat)
    requires Linked(heap, slots, timers) && GenOk(slots, frees) && IssuedOk(issued, frees, timers)
    requires ix < |slots| && slots[ix].pos.None?
    ensures var id := Id(slots[ix].gen, ix); id !in timers && (id in issued ==> frees[ix] >= GENERATIONS)
    ensures LinkedBut(heap, slots, timers, ix)
  {
    var id := Id(slots[ix].gen, ix);
    assert id in timers ==> Found(id, heap, slots);
    assert id in issued ==> IdOk(id, frees, timers);
    forall o | o in timers ensures o.ix != ix { assert Found(o, heap, slots); }
  }

  lemma NewSlot<P>(issued: set<Id>, frees: seq<nat>, timers: map<Id, Timer<P>>, id: Id)
    requires IssuedOk(issued, frees, timers) && id.ix >= |frees|
    ensures id !in issued
  {
  }

  lemma IssuedMore<P>(issued: set<Id>, frees: seq<nat>, timers: map<Id, Timer<P>>, id: Id)
    requires IssuedOk(issued, frees, timers)
    ensures IssuedBut(issued + {id}, frees, timers, id) && IssuedBut(issued + {id}, frees + [0], timers, id)
  {
    forall o | o in issued ensures IdOk(o, frees + [0], timers) { assert IdOk(o, frees, timers); }
  }

  /** One more free of the slot of `id`. */
  lemma FreeCounts<P>(slots: seq<Slot>, frees: seq<nat>, issued: set<Id>, timers: map<Id, Timer<P>>, id: Id)
    requires GenOk(slots, frees) && IssuedBut(issued, frees, timers, id)
    requires id.ix < |slots| && slots[id.ix].gen == id.gen
    ensures var f := frees[id.ix := frees[id.ix] + 1];
            GenOk(slots[id.ix := Slot(None, NextGen(id.gen))], f) && IssuedOk(issued, f, timers)
  {
    var f := frees[id.ix := frees[id.ix] + 1];
    StaleUntilWrap(id.gen, 1);
    assert GenAfter(id.gen, 1) == NextGen(GenAfter(id.gen, 0));
    forall o | o in issued ensures IdOk(o, f, timers) {
      if o != id { assert IdOk(o, frees, timers); }
    }
  }

  lemma LinkedNumbers<P>(heap: seq<Entry<P>>, slots: seq<Slot>, timers: map<Id, Timer<P>>, frees: seq<nat>)
    requires Linked(heap, slots, timers) && GenOk(slots, frees)
    ensures Numbered(timers, frees)
  {
    forall id | id in timers ensures id.ix < |frees| && id.gen == frees[id.ix] % GENERATIONS {
      assert Found(id, heap, slots);
    }
  }

  ghost predicate Repeats<P>(timers: map<Id, Timer<P>>) { forall id :: id in timers ==> timers[id].period >= 0 }

  // ── the class ──

  class Heap<P> {
    var heap: seq<Entry<P>>
    var slots: seq<Slot>
    var free: seq<nat>
    ghost var timers: map<Id, Timer<P>>   // what it all means
    ghost var issued: set<Id>             // every id handed out so far
    ghost var frees: seq<nat>             // how often each slot was freed

    ghost predicate Valid()
      reads this
    {
      && Linked(heap, slots, timers) && Ordered(heap) && FreeOk(free, slots)
      && Repeats(timers) && GenOk(slots, frees) && IssuedOk(issued, frees, timers)
    }

    constructor ()
      ensures Valid() && timers == map[] && issued == {} && frees == []
    {
      heap, slots, free := [], [], [];
      timers, issued, frees := map[], {}, [];
    }

    /** Nobody else's timer is under a live id, and live ids carry their slot's free count. */
    lemma Numbers()
      requires Valid()
      ensures Numbered(timers, frees)
    {
      LinkedNumbers(heap, slots, timers, frees);
    }

    // ── sifts ──

    /** Swap two entries and note both. */
    method Exchange(i: nat, j: nat, ghost hole: nat)
      requires LinkedBut(heap, slots, timers, hole) && i < |heap| && j < |heap| && i != j
      modifies `heap, `slots
      ensures heap == Swap(old(heap), i, j) && LinkedBut(heap, slots, timers, hole) && SameShape(old(slots), slots)
    {
      SwapLinked(heap, slots, timers, hole, i, j);
      assert Placed(heap[i], i, slots, timers) && Placed(heap[j], j, slots, timers);
      heap := Swap(heap, i, j);
      slots := Note(heap, Note(heap, slots, i), j);
    }

    method SiftUp(start: nat, ghost hole: nat)
      requires LinkedBut(heap, slots, timers, hole) && Rising(heap, start)
      modifies `heap, `slots
      ensures LinkedBut(heap, slots, timers, hole) && Ordered(heap)
      ensures SameShape(old(slots), slots)
    {
      var i := start;
      while i > 0
        invariant LinkedBut(heap, slots, timers, hole) && Rising(heap, i) && SameShape(old(slots), slots)
      {
        var parent := Parent(i);
        if heap[parent].when <= heap[i].when { break; }
        RiseStep(heap, i);
        Exchange(parent, i, hole);
        i := parent;
      }
      forall j | 0 <= j < |heap| ensures Fits(heap, j) {}
    }

    method SiftDown(start: nat, ghost hole: nat)
      requires LinkedBut(heap, slots, timers, hole) && Loose(heap, start) && Fits(heap, start)
      modifies `heap, `slots
      ensures LinkedBut(heap, slots, timers, hole) && Ordered(heap)
      ensures SameShape(old(slots), slots)
    {
      var i := start;
      while true
        invariant LinkedBut(heap, slots, timers, hole) && Loose(heap, i) && Fits(heap, i)
                  && SameShape(old(slots), slots)
        invariant |heap| == |old(heap)|
        decreases |heap| - i
      {
        var best := Best(heap, i);
        if best == i { SinkDone(heap, i); return; }
        SinkStep(heap, i);
        Exchange(i, best, hole);
        i := best;
      }
    }

    /** Restore the heap around i, which may need to go either way. */
    method Sift(i: nat, ghost hole: nat)
      requires LinkedBut(heap, slots, timers, hole) && Loose(heap, i)
      modifies `heap, `slots
      ensures LinkedBut(heap, slots, timers, hole) && Ordered(heap)
      ensures SameShape(old(slots), slots)
      decreases i
    {
      if i > 0 {
        var parent := Parent(i);
        if heap[i].when < heap[parent].when {
          LooseRises(heap, i);
          Exchange(parent, i, hole);
          Sift(parent, hole);
          return;
        }
      }
      SiftDown(i, hole);
    }

    // ── ids ──

    /** A free slot, or a new one; it stays out of the heap until `Push`. */
    method NewId() returns (id: Id)
      requires Valid()
      modifies `slots, `free, `issued, `frees
      ensures Held(heap, slots, free, timers, issued, frees, id) && id !in timers
      ensures issued == old(issued) + {id} && FreedAs(old(frees), frees, {})
      ensures id in old(issued) ==> frees[id.ix] >= GENERATIONS
    {
      var ix;
      if free != [] {
        ix := free[|free| - 1];
        FreePopped(free, slots);
        FreshId(heap, slots, timers, issued, frees, ix);
        free := free[..|free| - 1];
      } else {
        ix := |slots|;
        Widened(heap, slots, timers);
        slots, frees := slots + [Slot(None, 0)], frees + [0];
        NewSlot(issued, old(frees), timers, Id(0, ix));
      }
      id := Id(slots[ix].gen, ix);
      IssuedMore(issued, old(frees), timers, id);
      issued := issued + {id};
    }

    /** The slot goes back on the free list under its next generation. */
    method FreeId(id: Id)
      requires Held(heap, slots, free, timers, issued, frees, id)
      modifies `slots, `free, `frees
      ensures Linked(heap, slots, timers) && FreeOk(free, slots)
      ensures GenOk(slots, frees) && IssuedOk(issued, frees, timers)
      ensures FreedAs(old(frees), frees, {id.ix})
    {
      var next := NextGen(id.gen);
      FreeCounts(slots, frees, issued, timers, id);
      FreeLinked(heap, slots, timers, id.ix, next);
      FreeKept(free, slots, slots[id.ix := Slot(None, next)], id.ix);
      slots := slots[id.ix := Slot(None, next)];
      frees := frees[id.ix := frees[id.ix] + 1];
      FreePushed(free, slots, id.ix);
      free := free + [id.ix];
    }

    // ── push and pop ──

    method Push(e: Entry<P>)
      requires LinkedBut(heap, slots, timers, e.id.ix) && Ordered(heap)
      requires e.id.ix < |slots| && slots[e.id.ix].gen == e.id.gen
      modifies `heap, `slots, `timers
      ensures Linked(heap, slots, timers) && Ordered(heap) && timers == old(timers)[e.id := Meaning(e)]
      ensures SameBut(old(slots), slots, e.id.ix) && slots[e.id.ix].gen == e.id.gen && slots[e.id.ix].pos.Some?
    {
      PutLinked(heap, slots, timers, e);
      PutRising(heap, e);
      var i := |heap|;
      heap := heap + [e];
      slots := Note(heap, slots, i);
      timers := timers[e.id := Meaning(e)];
      SiftUp(i, |slots|);
    }

    /** Entry i leaves the heap and the last entry takes its place; the slot is left for the caller. */
    method Remove(i: nat) returns (e: Entry<P>)
      requires Linked(heap, slots, timers) && i < |heap|
      modifies `heap, `slots, `timers
      ensures e == old(heap)[i] && e.id in old(timers) && old(timers)[e.id] == Meaning(e)
      ensures timers == old(timers) - {e.id} && heap == Without(old(heap), i)
      ensures LinkedBut(heap, slots, timers, e.id.ix)
      ensures e.id.ix < |slots| && slots[e.id.ix].gen == e.id.gen && slots[e.id.ix].pos.Some?
      ensures SameShape(old(slots), slots)
    {
      e := heap[i];
      TakeLinked(heap, slots, timers, i);
      TakeShape(heap, slots, timers, i);
      heap := Without(heap, i);
      timers := timers - {e.id};
      if i < |heap| { slots := Note(heap, slots, i); }
    }

    /** The earliest entry leaves the heap. */
    method PopRoot() returns (e: Entry<P>)
      requires Linked(heap, slots, timers) && Ordered(heap) && heap != []
      modifies `heap, `slots, `timers
      ensures e == old(heap)[0] && e.id in old(timers) && old(timers)[e.id] == Meaning(e)
      ensures timers == old(timers) - {e.id}
      ensures LinkedBut(heap, slots, timers, e.id.ix) && Ordered(heap)
      ensures e.id.ix < |slots| && slots[e.id.ix].gen == e.id.gen && slots[e.id.ix].pos.Some?
      ensures SameShape(old(slots), slots)
    {
      if |heap| > 1 { WithoutLoose(heap, 0); }
      e := Remove(0);
      if heap != [] { SiftDown(0, e.id.ix); }
    }

    /** Entry i leaves the heap from anywhere: the entry that took its place is sifted either way. */
    method Extract(i: nat) returns (e: Entry<P>)
      requires Linked(heap, slots, timers) && Ordered(heap) && i < |heap|
      modifies `heap, `slots, `timers
      ensures e == old(heap)[i] && timers == old(timers) - {e.id}
      ensures LinkedBut(heap, slots, timers, e.id.ix) && Ordered(heap)
      ensures e.id.ix < |slots| && slots[e.id.ix].gen == e.id.gen && slots[e.id.ix].pos.Some?
      ensures SameShape(old(slots), slots)
    {
      if i + 1 < |heap| {
        WithoutLoose(heap, i);
      } else {
        LastOut(heap);
        assert Without(heap, i) == heap[..i];
      }
      e := Remove(i);
      if i < |heap| { Sift(i, e.id.ix); }
    }

    // ── what callers see ──

    /** Arm a one-shot timer. */
    method After(now: int, d: int, p: P) returns (id: Id)
      requires Valid()
      modifies this
      ensures Valid() && Call(old(timers), old(frees), timers, frees)
      ensures id !in old(timers) && timers == old(timers)[id := Timer(Clock.Add(now, d), 0, p)]
      ensures issued == old(issued) + {id} && (id in old(issued) ==> frees[id.ix] >= GENERATIONS)
    {
      id := NewId();
      Arm(Entry(Clock.Add(now, d), 0, p, id));
      NoneLeft(old(timers), timers);
      Numbers();
    }

    /** Arm a repeating timer; it first fires one period from now. */
    method Every(now: int, period: int, p: P) returns (id: Id)
      requires Valid()
      modifies this
      ensures Valid() && Call(old(timers), old(frees), timers, frees)
      ensures var per := Clock.Period(period);
              id !in old(timers) && timers == old(timers)[id := Timer(Clock.Add(now, per), per, p)]
      ensures issued == old(issued) + {id} && (id in old(issued) ==> frees[id.ix] >= GENERATIONS)
    {
      id := NewId();
      var per := Clock.Period(period);
      Arm(Entry(Clock.Add(now, per), per, p, id));
      NoneLeft(old(timers), timers);
      Numbers();
    }

    /** push() of an entry whose slot was just taken or kept. */
    method Arm(e: Entry<P>)
      requires Held(heap, slots, free, timers, issued, frees, e.id) && Ordered(heap) && e.period >= 0 && Repeats(timers)
      modifies `heap, `slots, `timers
      ensures Valid() && timers == old(timers)[e.id := Meaning(e)]
    {
      Push(e);
      FreeKept(free, old(slots), slots, e.id.ix);
    }

    /** Replace a live timer's payload; its phase stays. A stale id changes nothing. */
    method ReplacePayload(id: Id, p: P) returns (ok: bool)
      requires Valid()
      modifies `heap, `timers
      ensures Valid() && ok == (id in old(timers)) && Call(old(timers), old(frees), timers, frees)
      ensures timers == if ok then old(timers)[id := old(timers)[id].(payload := p)] else old(timers)
    {
      Numbers();
      NoneLeft(timers, timers);
      SlotOfIsLookup(heap, slots, timers, id);
      var slot := SlotOf(slots, id);
      if slot.None? { return false; }
      var i := slot.value;
      assert Placed(heap[i], i, slots, timers);
      Repayed(heap, slots, timers, i, p);
      heap := heap[i := heap[i].(payload := p)];
      timers := timers[id := timers[id].(payload := p)];
      NoneLeft(old(timers), timers);
      return true;
    }

    /** Cancel a live timer. A stale id changes nothing. (Freeing the slot before or after the moves is the
        same: they never touch it.) */
    method Cancel(id: Id) returns (ok: bool)
      requires Valid()
      modifies this
      ensures Valid() && ok == (id in old(timers)) && timers == old(timers) - {id} && issued == old(issued)
      ensures Call(old(timers), old(frees), timers, frees)
    {
      SlotOfIsLookup(heap, slots, timers, id);
      var slot := SlotOf(slots, id);
      if slot.None? {
        Numbers();
        NoneLeft(timers, timers);
        return false;
      }
      var e := Extract(slot.value);
      TakenIsHeld(old(heap), old(slots), free, old(timers), issued, frees, heap, slots, id);
      FreeId(id);
      OneLeft(old(timers), id);
      Numbers();
      return true;
    }

    /** Take the earliest entry out; its slot is in our hands. */
    method TakeFirst() returns (e: Entry<P>)
      requires Valid() && heap != []
      modifies `heap, `slots, `timers
      ensures e == old(heap)[0] && e.id in old(timers) && old(timers)[e.id] == Meaning(e)
      ensures forall id :: id in old(timers) ==> e.when <= old(timers)[id].when
      ensures timers == old(timers) - {e.id} && Repeats(timers) && Ordered(heap)
      ensures Held(heap, slots, free, timers, issued, frees, e.id)
    {
      Earliest(heap, slots, timers);
      e := PopRoot();
      TakenIsHeld(old(heap), old(slots), free, old(timers), issued, frees, heap, slots, e.id);
    }

    /** Fire the earliest timer, which is due. */
    method FireOne(now: int) returns (e: Entry<P>)
      requires Valid() && heap != [] && heap[0].when <= now
      modifies this
      ensures Valid() && issued == old(issued)
      ensures e.id in old(timers) && old(timers)[e.id] == Meaning(e) && e.when <= now
      ensures forall id :: id in old(timers) ==> e.when <= old(timers)[id].when
      ensures timers == Fired(old(timers), e.id, now) && FreedAs(old(frees), frees, Left(old(timers), timers))
    {
      e := TakeFirst();
      Resettle(e, now);
      FiredLeft(old(timers), e.id, now);
      FiredIs(old(timers), e.id, now);
    }

    /** A fired entry goes back under its next deadline, or its slot is freed. */
    method Resettle(e: Entry<P>, now: int)
      requires Held(heap, slots, free, timers, issued, frees, e.id) && Ordered(heap) && Repeats(timers)
      modifies this
      ensures Valid() && issued == old(issued)
      ensures timers == if e.period > 0
                        then old(timers)[e.id := Timer(Clock.Rearm(e.when, e.period, now), e.period, e.payload)]
                        else old(timers)
      ensures FreedAs(old(frees), frees, if e.period > 0 then {} else {e.id.ix})
    {
      if e.period > 0 {
        Arm(e.(when := Clock.Rearm(e.when, e.period, now)));
      } else {
        FreeId(e.id);
      }
    }

    /** One turn of the collection. */
    method FireNext(now: int, out: seq<P>, ghost t0: map<Id, Timer<P>>, ghost fired: seq<Id>, ghost done: set<Id>)
      returns (more: seq<P>, ghost id: Id)
      requires Valid() && heap != [] && heap[0].when <= now < Clock.MAX
      requires Effect(t0, timers, done, now) && InOrder(t0, timers, fired, done) && Paid(t0, fired, out)
      modifies this
      ensures Valid() && issued == old(issued) && FreedAs(old(frees), frees, Left(old(timers), timers))
      ensures timers.Keys <= old(timers).Keys
      ensures Paid(t0, fired + [id], more)
      ensures Effect(t0, timers, done + {id}, now) && InOrder(t0, timers, fired + [id], done + {id})
      ensures |DueSet(timers, now)| < |DueSet(old(timers), now)|
    {
      var e := FireOne(now);
      more, id := out + [e.payload], e.id;
      FireEffect(t0, old(timers), done, now, id);
      FireOrder(t0, old(timers), fired, done, now, id);
      assert id in DueSet(old(timers), now);
    }

    /** Every due timer fires exactly once, earliest first; only later deadlines are left. */
    method CollectDue(now: int) returns (out: seq<P>, ghost fired: seq<Id>)
      requires Valid() && now < Clock.MAX
      modifies this
      ensures Valid() && issued == old(issued) && timers == Collected(old(timers), now)
      ensures DueInOrder(old(timers), now, fired) && Paid(old(timers), fired, out)
      ensures DueSet(timers, now) == {} && Call(old(timers), old(frees), timers, frees)
    {
      out, fired := [], [];
      ghost var t0, f0, done := timers, frees, {};
      Started(t0, now);
      NoneLeft(t0, t0);
      Numbers();
      while heap != [] && heap[0].when <= now
        invariant Valid() && issued == old(issued)
        invariant Effect(t0, timers, done, now) && InOrder(t0, timers, fired, done)
        invariant Paid(t0, fired, out) && timers.Keys <= t0.Keys && FreedAs(f0, frees, Left(t0, timers))
        decreases |DueSet(timers, now)|
      {
        ghost var id, t1, f1 := *, timers, frees;
        out, id := FireNext(now, out, t0, fired, done);
        LeftThen(t0, f0, t1, f1, timers, frees);
        fired, done := fired + [id], done + {id};
      }
      NoneDue(heap, slots, timers, now);
      EffectDone(t0, timers, fired, done, now);
      Numbers();
    }

    /** Drop every timer: every armed slot is freed, so no id from before matches anything after until its slot was
        freed 2^32 times. */
    method Clear()
      requires Valid()
      modifies this
      ensures Valid() && timers == map[] && issued == old(issued)
      ensures Call(old(timers), old(frees), timers, frees)
    {
      heap := [];
      var i := 0;
      while i < |slots|
        invariant 0 <= i <= |slots| == |old(slots)| && FreeOk(free, slots) && GenOk(slots, frees)
        invariant forall k :: 0 <= k < i ==> slots[k].pos.None?
        invariant forall k :: i <= k < |slots| ==> slots[k] == old(slots)[k]
        invariant FreedAs(old(frees), frees, ArmedBelow(old(slots), i))
        invariant issued == old(issued) && timers == old(timers) && heap == []
      {
        ghost var f := frees;
        if slots[i].pos.Some? { ClearSlot(i); }
        ArmedMore(old(slots), i, old(frees), f, frees);
        i := i + 1;
      }
      timers := map[];
      ClearedAll(old(heap), old(slots), old(timers), issued, old(frees), frees);
    }

    method ClearSlot(i: nat)
      requires FreeOk(free, slots) && i < |slots| && slots[i].pos.Some? && GenOk(slots, frees)
      modifies `slots, `free, `frees
      ensures FreeOk(free, slots) && |slots| == |old(slots)| && slots[i].pos.None? && GenOk(slots, frees)
      ensures forall k :: 0 <= k < |slots| && k != i ==> slots[k] == old(slots)[k]
      ensures frees == old(frees)[i := old(frees)[i] + 1]
    {
      var gen := slots[i].gen;
      var next := NextGen(gen);
      StaleUntilWrap(gen, 1);
      assert GenAfter(gen, 1) == NextGen(GenAfter(gen, 0));
      FreeCleared(free, slots, i, next);
      slots := slots[i := Slot(None, next)];
      frees := frees[i := frees[i] + 1];
      free := free + [i];
    }

    method NextDeadline() returns (r: Option<int>)
      requires Valid()
      ensures r.None? <==> timers == map[]
      ensures r.Some? ==> (exists id :: id in timers && timers[id].when == r.value)
                          && forall id :: id in timers ==> r.value <= timers[id].when
    {
      if heap == [] {
        return None;
      }
      Earliest(heap, slots, timers);
      return Some(heap[0].when);
    }
  }

  /** The root of the heap is the earliest timer. */
  lemma Earliest<P>(heap: seq<Entry<P>>, slots: seq<Slot>, timers: map<Id, Timer<P>>)
    requires Linked(heap, slots, timers) && Ordered(heap) && heap != []
    ensures heap[0].id in timers && timers[heap[0].id] == Meaning(heap[0])
    ensures forall id :: id in timers ==> heap[0].when <= timers[id].when
  {
    assert Placed(heap[0], 0, slots, timers);
    forall id | id in timers ensures heap[0].when <= timers[id].when {
      assert Found(id, heap, slots);
      var i := slots[id.ix].pos.value;
      RootIsLeast(heap, i);
      assert Placed(heap[i], i, slots, timers);
    }
  }

  lemma NoneDue<P>(heap: seq<Entry<P>>, slots: seq<Slot>, timers: map<Id, Timer<P>>, now: int)
    requires Linked(heap, slots, timers) && Ordered(heap) && (heap == [] || heap[0].when > now)
    ensures DueSet(timers, now) == {}
  {
    if heap != [] { Earliest(heap, slots, timers); }
    forall id | id in timers ensures timers[id].when > now {
      assert Found(id, heap, slots);
    }
  }

  // ── collecting what is due ──

  ghost function DueSet<P>(timers: map<Id, Timer<P>>, now: int): set<Id> {
    set id | id in timers && timers[id].when <= now
  }

  /** One due timer fired: a repeating one is re-armed, a one-shot is gone. */
  ghost function Fired<P>(timers: map<Id, Timer<P>>, id: Id, now: int): map<Id, Timer<P>>
    requires id in timers
  {
    var t := timers[id];
    if t.period > 0 then timers[id := t.(when := Clock.Rearm(t.when, t.period, now))] else timers - {id}
  }

  /** What a collection at `now` leaves behind. */
  ghost function Collected<P>(timers: map<Id, Timer<P>>, now: int): map<Id, Timer<P>> {
    map id | id in timers && (timers[id].when > now || timers[id].period > 0) ::
      if timers[id].when > now then timers[id]
      else timers[id].(when := Clock.Rearm(timers[id].when, timers[id].period, now))
  }

  /** A re-armed deadline is in the future: the collection cannot meet it again. */
  lemma RearmIsLater(when: int, period: int, now: int)
    requires period > 0 && now < Clock.MAX
    ensures Clock.Rearm(when, period, now) > now
  {
  }

  /** Halfway through a collection, `done` being the timers that fired: what happened to each timer. */
  ghost predicate Effect<P>(t0: map<Id, Timer<P>>, timers: map<Id, Timer<P>>, done: set<Id>, now: int) {
    && done <= DueSet(t0, now) && timers.Keys <= t0.Keys
    && (forall id :: id in t0 && id !in done ==> id in timers && timers[id] == t0[id])
    && (forall id :: id in done && t0[id].period > 0 ==>
          id in timers && timers[id] == t0[id].(when := Clock.Rearm(t0[id].when, t0[id].period, now)))
    && (forall id :: id in done && t0[id].period <= 0 ==> id !in timers)
  }

  /** They fired in deadline order, each once, and nothing left is earlier. */
  ghost predicate InOrder<P>(t0: map<Id, Timer<P>>, timers: map<Id, Timer<P>>, fired: seq<Id>, done: set<Id>) {
    && (forall k :: 0 <= k < |fired| ==> fired[k] in t0 && fired[k] in done)
    && (forall id :: id in done ==> id in fired)
    && (forall i, j :: 0 <= i < j < |fired| ==> fired[i] != fired[j] && t0[fired[i]].when <= t0[fired[j]].when)
    && (forall k, id :: 0 <= k < |fired| && id in timers ==> t0[fired[k]].when <= timers[id].when)
  }

  /** `out` holds the payloads of `fired`. */
  ghost predicate Paid<P>(t0: map<Id, Timer<P>>, fired: seq<Id>, out: seq<P>) {
    |out| == |fired| && forall k :: 0 <= k < |out| ==> fired[k] in t0 && out[k] == t0[fired[k]].payload
  }

  lemma FireEffect<P>(t0: map<Id, Timer<P>>, timers: map<Id, Timer<P>>, done: set<Id>, now: int, id: Id)
    requires Effect(t0, timers, done, now) && now < Clock.MAX && id in timers && timers[id].when <= now
    ensures id !in done && Effect(t0, Fired(timers, id, now), done + {id}, now)
    ensures DueSet(Fired(timers, id, now), now) == DueSet(timers, now) - {id}
  {
    if id in done { RearmIsLater(t0[id].when, t0[id].period, now); }
    if timers[id].period > 0 { RearmIsLater(timers[id].when, timers[id].period, now); }
  }

  lemma FireOrder<P>(t0: map<Id, Timer<P>>, timers: map<Id, Timer<P>>, fired: seq<Id>, done: set<Id>, now: int, id: Id)
    requires InOrder(t0, timers, fired, done) && now < Clock.MAX
    requires id in timers && id in t0 && timers[id] == t0[id] && id !in done && timers[id].when <= now
    requires forall o :: o in timers ==> timers[id].when <= timers[o].when
    ensures InOrder(t0, Fired(timers, id, now), fired + [id], done + {id})
  {
    var f, t := fired + [id], Fired(timers, id, now);
    if timers[id].period > 0 { RearmIsLater(timers[id].when, timers[id].period, now); }
    forall o | o in done + {id} ensures o in f {
      if o == id { assert f[|fired|] == o; }
    }
    forall k, o | 0 <= k < |f| && o in t ensures t0[f[k]].when <= t[o].when {
      assert o in timers && timers[id].when <= t[o].when;
      assert k < |fired| ==> t0[fired[k]].when <= timers[id].when;
    }
  }

  /** `fired` are exactly the due timers, each once, earliest first. */
  ghost predicate DueInOrder<P>(timers: map<Id, Timer<P>>, now: int, fired: seq<Id>) {
    && (forall k :: 0 <= k < |fired| ==> fired[k] in DueSet(timers, now))
    && (forall id :: id in DueSet(timers, now) ==> id in fired)
    && (forall i, j :: 0 <= i < j < |fired| ==> fired[i] != fired[j] && timers[fired[i]].when <= timers[fired[j]].when)
  }

  lemma Started<P>(t0: map<Id, Timer<P>>, now: int)
    ensures Effect(t0, t0, {}, now) && InOrder(t0, t0, [], {})
  {
  }

  lemma EffectDone<P>(t0: map<Id, Timer<P>>, timers: map<Id, Timer<P>>, fired: seq<Id>, done: set<Id>, now: int)
    requires Effect(t0, timers, done, now) && InOrder(t0, timers, fired, done) && DueSet(timers, now) == {}
    ensures timers == Collected(t0, now) && DueInOrder(t0, now, fired)
  {
    forall id | id in DueSet(t0, now) ensures id in done {
      assert id !in DueSet(timers, now);
    }
    forall id | id in timers ensures timers[id].when > now {
      assert id !in DueSet(timers, now);
    }
  }

  // ── clearing ──

  /** The slots below i that hold a timer. */
  ghost function ArmedBelow(slots: seq<Slot>, i: nat): set<nat>
    requires i <= |slots|
  {
    set k | 0 <= k < i && slots[k].pos.Some?
  }

  lemma ArmedMore(slots: seq<Slot>, i: nat, f0: seq<nat>, f: seq<nat>, f': seq<nat>)
    requires i < |slots| == |f0| && FreedAs(f0, f, ArmedBelow(slots, i))
    requires f' == if slots[i].pos.Some? && i < |f| then f[i := f[i] + 1] else f
    ensures FreedAs(f0, f', ArmedBelow(slots, i + 1))
  {
  }

  /** With every armed slot freed, the map is empty and every id handed out is behind its slot. */
  lemma ClearedAll<P>(heap: seq<Entry<P>>, slots: seq<Slot>, timers: map<Id, Timer<P>>, issued: set<Id>,
                      f: seq<nat>, f': seq<nat>)
    requires Linked(heap, slots, timers) && GenOk(slots, f) && IssuedOk(issued, f, timers)
    requires FreedAs(f, f', ArmedBelow(slots, |slots|))
    ensures FreedAs(f, f', Left(timers, map[])) && IssuedOk<P>(issued, f', map[])
  {
    assert Left(timers, map[]) == ArmedBelow(slots, |slots|) by {
      forall id | id in timers ensures id.ix in ArmedBelow(slots, |slots|) { assert Found(id, heap, slots); }
      forall k | k in ArmedBelow(slots, |slots|) ensures k in Left(timers, map[]) {
        assert Id(slots[k].gen, k) in timers;
      }
    }
    forall id | id in issued ensures IdOk<P>(id, f', map[]) {
      assert IdOk(id, f, timers);
      if id in timers { assert Found(id, heap, slots) && id.ix in ArmedBelow(slots, |slots|); }
    }
  }

  // ── what left the map ──

  lemma NoneLeft<P>(t: map<Id, Timer<P>>, t': map<Id, Timer<P>>)
    requires t.Keys <= t'.Keys
    ensures Left(t, t') == {}
  {
  }

  lemma OneLeft<P>(t: map<Id, Timer<P>>, id: Id)
    requires id in t
    ensures Left(t, t - {id}) == {id.ix}
  {
  }

  lemma FiredLeft<P>(t: map<Id, Timer<P>>, id: Id, now: int)
    requires id in t
    ensures Left(t, Fired(t, id, now)) == if t[id].period > 0 then {} else {id.ix}
  {
    if t[id].period > 0 { NoneLeft(t, Fired(t, id, now)); } else { OneLeft(t, id); }
  }

  /** Firing is taking out, and putting back if it repeats. */
  lemma FiredIs<P>(t: map<Id, Timer<P>>, id: Id, now: int)
    requires id in t
    ensures var e := t[id];
            Fired(t, id, now) == if e.period > 0
                                 then (t - {id})[id := Timer(Clock.Rearm(e.when, e.period, now), e.period, e.payload)]
                                 else t - {id}
  {
  }

  /** Two calls that only take timers away: the slots they free are different ones. */
  lemma LeftThen<P>(t0: map<Id, Timer<P>>, f0: seq<nat>, t1: map<Id, Timer<P>>, f1: seq<nat>,
                    t2: map<Id, Timer<P>>, f2: seq<nat>)
    requires Numbered(t0, f0) && t1.Keys <= t0.Keys && t2.Keys <= t1.Keys
    requires FreedAs(f0, f1, Left(t0, t1)) && FreedAs(f1, f2, Left(t1, t2))
    ensures FreedAs(f0, f2, Left(t0, t2))
  {
    forall ix | 0 <= ix < |f0| ensures f2[ix] == f0[ix] + if ix in Left(t0, t2) then 1 else 0 {
      if ix in Left(t0, t1) { var id :| id in t0 && id !in t1 && id.ix == ix; }
      if ix in Left(t1, t2) { var id :| id in t1 && id !in t2 && id.ix == ix; }
    }
  }

  /** An entry taken out of the heap leaves its slot in our hands. */
  lemma TakenIsHeld<P>(h: seq<Entry<P>>, s: seq<Slot>, free: seq<nat>, t: map<Id, Timer<P>>, issued: set<Id>,
                       frees: seq<nat>, h': seq<Entry<P>>, s': seq<Slot>, id: Id)
    requires FreeOk(free, s) && GenOk(s, frees) && IssuedOk(issued, frees, t) && SameShape(s, s')
    requires id.ix < |s'| && s'[id.ix].gen == id.gen && s'[id.ix].pos.Some? && LinkedBut(h', s', t - {id}, id.ix)
    ensures Held(h', s', free, t - {id}, issued, frees, id)
  {
    FreeUsed(free, s, s', id.ix);
    GenKept(s, s', frees);
    forall o | o in issued && o != id ensures IdOk(o, frees, t - {id}) { assert IdOk(o, frees, t); }
  }

  lemma FreeCleared(free: seq<nat>, slots: seq<Slot>, i: nat, gen: nat)
    requires FreeOk(free, slots) && i < |slots| && slots[i].pos.Some?
    ensures FreeOk(free + [i], slots[i := Slot(None, gen)])
  {
    var s, f := slots[i := Slot(None, gen)], free + [i];
    assert f[|free|] == i;
    forall k | 0 <= k < |s| && s[k].pos.None? ensures k in f {
      if k != i { assert k in free; }
    }
  }

  lemma Repayed<P>(heap: seq<Entry<P>>, slots: seq<Slot>, timers: map<Id, Timer<P>>, i: nat, p: P)
    requires Linked(heap, slots, timers) && Ordered(heap) && i < |heap|
    ensures var h, id := heap[i := heap[i].(payload := p)], heap[i].id;
            id in timers && Ordered(h) && Linked(h, slots, timers[id := timers[id].(payload := p)])
  {
    var h, id := heap[i := heap[i].(payload := p)], heap[i].id;
    assert Placed(heap[i], i, slots, timers);
    var t := timers[id := timers[id].(payload := p)];
    forall k | 0 <= k < |h| ensures Placed(h[k], k, slots, t) && Fits(h, k) {
      assert Placed(heap[k], k, slots, timers) && Fits(heap, k);
    }
    forall o | o in t ensures Found(o, h, slots) && o.ix != |slots| {
      assert Found(o, heap, slots);
    }
  }

  lemma FreeUsed(free: seq<nat>, a: seq<Slot>, b: seq<Slot>, ix: nat)
    requires FreeOk(free, a) && SameShape(a, b) && ix < |a| && a[ix].pos.Some?
    ensures FreeBut(free, b, ix)
  {
  }

  lemma Widened<P>(heap: seq<Entry<P>>, slots: seq<Slot>, timers: map<Id, Timer<P>>)
    requires Linked(heap, slots, timers)
    ensures LinkedBut(heap, slots + [Slot(None, 0)], timers, |slots|)
  {
    var s := slots + [Slot(None, 0)];
    forall k | 0 <= k < |heap| ensures Placed(heap[k], k, s, timers) {
      assert Placed(heap[k], k, slots, timers);
    }
    forall id | id in timers ensures Found(id, heap, s) && id.ix != |slots| {
      assert Found(id, heap, slots);
    }
  }

  /** Only positions moved: no slot was freed, taken or given a new generation. */
  ghost predicate SameShape(a: seq<Slot>, b: seq<Slot>) {
    && |a| == |b|
    && forall k :: 0 <= k < |a| ==> a[k].gen == b[k].gen && (a[k].pos.None? <==> b[k].pos.None?)
  }

  // ── stale ids, over any sequence of calls ──

  /** A history of one heap, as its callers see it: every public method is one `Call`. */
  ghost predicate History<P>(ts: seq<map<Id, Timer<P>>>, fs: seq<seq<nat>>) {
    && |ts| == |fs| && (forall i :: 0 <= i < |ts| ==> Numbered(ts[i], fs[i]))
    && forall i :: 0 <= i < |ts| - 1 ==> Call(ts[i], fs[i], ts[i + 1], fs[i + 1])
  }

  /** Free counts never go down; and a timer that is gone was freed. */
  lemma {:induction false} FreesGrow<P>(ts: seq<map<Id, Timer<P>>>, fs: seq<seq<nat>>, i: nat, j: nat, id: Id)
    requires History(ts, fs) && i <= j < |ts| && id.ix < |fs[i]|
    ensures id.ix < |fs[j]| && fs[i][id.ix] <= fs[j][id.ix]
    ensures id in ts[i] && id !in ts[j] ==> fs[i][id.ix] < fs[j][id.ix]
    decreases j
  {
    if i < j {
      FreesGrow(ts, fs, i, j - 1, id);
      assert Call(ts[j - 1], fs[j - 1], ts[j], fs[j]);
      if id in ts[j - 1] && id !in ts[j] { assert id.ix in Left(ts[j - 1], ts[j]); }
    }
  }

  /** An id whose timer was fired, cancelled or cleared names no timer again, through any further calls, until its
      slot was freed a whole multiple of 2^32 times since the id was live. */
  lemma StaleStaysOut<P>(ts: seq<map<Id, Timer<P>>>, fs: seq<seq<nat>>, i: nat, j: nat, k: nat, id: Id)
    requires History(ts, fs) && i < j <= k < |ts| && id in ts[i] && id !in ts[j]
    ensures id.ix < |fs[i]| && id.ix < |fs[k]|
    ensures id in ts[k] ==> fs[k][id.ix] >= fs[i][id.ix] + GENERATIONS
                            && (fs[k][id.ix] - fs[i][id.ix]) % GENERATIONS == 0
  {
    FreesGrow(ts, fs, i, j, id);
    FreesGrow(ts, fs, j, k, id);
    var since := fs[k][id.ix] - fs[i][id.ix];
    StaleUntilWrap(id.gen, since);
    assert (id.gen + since) % GENERATIONS == fs[k][id.ix] % GENERATIONS;
  }

  /** A call that takes the timer away, and any one call after it: the id is not back. */
  lemma NotBackAtOnce<P>(t0: map<Id, Timer<P>>, f0: seq<nat>, t1: map<Id, Timer<P>>, f1: seq<nat>,
                         t2: map<Id, Timer<P>>, f2: seq<nat>, id: Id)
    requires Numbered(t0, f0) && Call(t0, f0, t1, f1) && Call(t1, f1, t2, f2)
    requires id in t0 && id !in t1
    ensures id !in t2
  {
    assert id.ix in Left(t0, t1);
    assert f1[id.ix] == f0[id.ix] + 1;
    assert f1[id.ix] <= f2[id.ix] <= f1[id.ix] + 1;
  }

  /** The id of a one-shot that fired, cancelled later, when its slot may have a new timer: nothing happens. */
  method CancelAfterFiring<P>(h: Heap<P>, a: Id, now: int, later: int, d: int, p: P) returns (b: Id, ok: bool)
    requires h.Valid() && a in h.timers && h.timers[a].period == 0 && h.timers[a].when <= now < Clock.MAX
    modifies h
    ensures h.Valid() && !ok && b != a
    ensures h.timers == Collected(old(h.timers), now)[b := Timer(Clock.Add(later, d), 0, p)]
  {
    h.Numbers();
    var out, fired := h.CollectDue(now);
    ghost var t1, f1 := h.timers, h.frees;
    b := h.After(later, d, p);
    NotBackAtOnce(old(h.timers), old(h.frees), t1, f1, h.timers, h.frees, a);
    ok := h.Cancel(a);
  }

  /** A cancelled id is not given to the next timer. */
  method NewIdAfterCancel<P>(h: Heap<P>, a: Id, now: int, d: int, p: P) returns (b: Id)
    requires h.Valid() && a in h.timers
    modifies h
    ensures h.Valid() && b != a && a !in h.timers
  {
    h.Numbers();
    var ok := h.Cancel(a);
    ghost var t1, f1 := h.timers, h.frees;
    b := h.After(now, d, p);
    NotBackAtOnce(old(h.timers), old(h.frees), t1, f1, h.timers, h.frees, a);
  }

  /** Nor is any id from before a clear. */
  method NewIdAfterClear<P>(h: Heap<P>, a: Id, now: int, d: int, p: P) returns (b: Id)
    requires h.Valid() && a in h.timers
    modifies h
    ensures h.Valid() && b != a && h.timers == map[b := Timer(Clock.Add(now, d), 0, p)]
  {
    h.Numbers();
    h.Clear();
    ghost var t1, f1 := h.timers, h.frees;
    b := h.After(now, d, p);
    NotBackAtOnce(old(h.timers), old(h.frees), t1, f1, h.timers, h.frees, a);
  }
}
