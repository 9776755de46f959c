/** What the diff promises over many calls: sources start and stop in turn, the same Sub changes nothing, and
  same_sources() answers whether a plan would change anything. */
module Subscriptions {
  import opened Sources
  import opened Reconcile

  /** How often `k` occurs. */
  function Times(keys: seq<Key>, k: Key): nat {
    if keys == [] then 0 else Times(keys[1..], k) + if keys[0] == k then 1 else 0
  }

  datatype Event = Started | Stopped

  /** Everything one plan does to one key: its stops, then its starts. */
  function EventsOf<Msg>(plan: Plan<Msg>, k: Key): seq<Event> {
    seq(Times(plan.stop, k), _ => Stopped) + seq(Times(KeysOf(plan.start), k), _ => Started)
  }

  /** Everything a run of reconcile() calls does to one key. */
  function Events<Msg>(subs: seq<seq<Leaf<Msg>>>, k: Key): seq<Event> {
    if subs == [] then []
    else
      var before := subs[..|subs| - 1];
      Events(before, k) + EventsOf(Diff(After(before), subs[|subs| - 1]), k)
  }

  predicate Alternate(es: seq<Event>) {
    forall i :: 0 <= i < |es| ==> es[i] == if i % 2 == 0 then Started else Stopped
  }

  lemma {:induction false} TimesDistinct<Msg>(es: seq<Entry<Msg>>, k: Key)
    requires Distinct(es)
    ensures Times(KeysOf(es), k) == if k in KeySet(es) then 1 else 0
  {
    if es != [] {
      assert KeysOf(es)[1..] == KeysOf(es[1..]);
      TimesDistinct(es[1..], k);
      assert KeySet(es) == {es[0].key} + KeySet(es[1..]) by {
        assert [es[0]] + es[1..] == es;
        forall x | x in KeySet(es[1..]) ensures x in KeySet(es) {
          var i :| 0 <= i < |es[1..]| && es[1..][i].key == x;
          assert es[i + 1].key == x;
        }
        forall x | x in KeySet(es) && x != es[0].key ensures x in KeySet(es[1..]) {
          var i :| 0 <= i < |es| && es[i].key == x;
          assert es[1..][i - 1].key == x;
        }
      }
      assert es[0].key !in KeySet(es[1..]);
    }
  }

  /** One plan: a key that is in one side only gets one event, every other key none. */
  lemma EventsOfDiff<Msg>(running: seq<Entry<Msg>>, leaves: seq<Leaf<Msg>>, k: Key)
    requires Distinct(running)
    ensures EventsOf(Diff(running, leaves), k) ==
            if k in KeySet(running) && k !in KeySet(Wanted(leaves)) then [Stopped]
            else if k !in KeySet(running) && k in KeySet(Wanted(leaves)) then [Started]
            else []
  {
    TimesDistinct(Select(running, KeySet(Wanted(leaves)), false), k);
    TimesDistinct(Select(Wanted(leaves), KeySet(running), false), k);
  }

  predicate LastStarted(es: seq<Event>) { es != [] && es[|es| - 1] == Started }

  lemma OneMoreEvent(es: seq<Event>, e: Event)
    requires Alternate(es) && (LastStarted(es) <==> e == Stopped)
    ensures Alternate(es + [e]) && (LastStarted(es + [e]) <==> e == Started)
  {
  }

  /** Over any run of calls the starts and stops of each key alternate, beginning with a start, and the key is
      running exactly when its last event was a start. */
  lemma {:induction false} StartsAndStopsAlternate<Msg>(subs: seq<seq<Leaf<Msg>>>, k: Key)
    ensures Alternate(Events(subs, k)) && (k in KeySet(After(subs)) <==> LastStarted(Events(subs, k)))
  {
    if subs != [] {
      var before, leaves := subs[..|subs| - 1], subs[|subs| - 1];
      var es, more := Events(before, k), EventsOf(Diff(After(before), leaves), k);
      StartsAndStopsAlternate(before, k);
      EventsOfDiff(After(before), leaves, k);
      assert Events(subs, k) == es + more;
      if more != [] { OneMoreEvent(es, more[0]); } else { assert es + more == es; }
    }
  }

  /** A plan that starts and stops nothing is one between equal sets of keys. */
  lemma ChangedIff<Msg>(running: seq<Entry<Msg>>, leaves: seq<Leaf<Msg>>)
    ensures Diff(running, leaves).Changed() <==> KeySet(running) != KeySet(Wanted(leaves))
  {
    var want := Wanted(leaves);
    var start, stop := Select(want, KeySet(running), false), Select(running, KeySet(want), false);
    EmptyIff(start);
    EmptyIff(stop);
    assert KeySet(running) == KeySet(want) <==> KeySet(start) == {} && KeySet(stop) == {};
  }

  lemma EmptyIff<Msg>(es: seq<Entry<Msg>>)
    ensures es == [] <==> KeySet(es) == {}
  {
    if es != [] { assert es[0].key in KeySet(es); }
  }

  /** Reconciling the same Sub again starts nothing, stops nothing and keeps everything. */
  lemma SameSubChangesNothing<Msg>(leaves: seq<Leaf<Msg>>)
    ensures !Diff(Wanted(leaves), leaves).Changed() && Diff(Wanted(leaves), leaves).keep == Wanted(leaves)
  {
    ChangedIff(Wanted(leaves), leaves);
    AllKept(Wanted(leaves), KeySet(Wanted(leaves)));
  }

  /** The i-th plan of a run: always right about what to keep, what to start and the duplicates, and about what to stop
      if the call is safe. */
  ghost predicate PlanAt<Msg>(plan: Plan<Msg>, subs: seq<seq<Leaf<Msg>>>, i: nat) {
    && i < |subs| && plan == Diff(After(subs[..i]), subs[i]).(stop := plan.stop)
    && (Safe(After(subs[..i]), subs[i]) ==> plan == Diff(After(subs[..i]), subs[i]))
  }

  /** The plans of the first calls of a run. */
  ghost predicate Planned<Msg>(plans: seq<Plan<Msg>>, subs: seq<seq<Leaf<Msg>>>) {
    plans == [] || (Planned(plans[..|plans| - 1], subs) && PlanAt(plans[|plans| - 1], subs, |plans| - 1))
  }

  lemma {:induction false} PlannedAt<Msg>(plans: seq<Plan<Msg>>, subs: seq<seq<Leaf<Msg>>>, i: nat)
    requires Planned(plans, subs) && i < |plans|
    ensures PlanAt(plans[i], subs, i)
    decreases |plans|
  {
    if i < |plans| - 1 { PlannedAt(plans[..|plans| - 1], subs, i); }
  }

  lemma PlannedMore<Msg>(plans: seq<Plan<Msg>>, subs: seq<seq<Leaf<Msg>>>, plan: Plan<Msg>)
    requires Planned(plans, subs) && PlanAt(plan, subs, |plans|)
    ensures Planned(plans + [plan], subs)
  {
    assert (plans + [plan])[..|plans|] == plans;
  }

  method NextCall<Msg>(r: RunningSources<Msg>, subs: seq<seq<Leaf<Msg>>>, i: nat) returns (plan: Plan<Msg>)
    requires i < |subs| && r.running == After(subs[..i])
    modifies r
    ensures r.running == After(subs[..i + 1]) && PlanAt(plan, subs, i)
  {
    var ok;
    plan, ok := r.Reconcile(subs[i]);
    HistoryMore(subs, i);
  }

  method OneMoreCall<Msg>(r: RunningSources<Msg>, subs: seq<seq<Leaf<Msg>>>, plans: seq<Plan<Msg>>)
    returns (more: seq<Plan<Msg>>)
    requires |plans| < |subs| && Planned(plans, subs) && r.running == After(subs[..|plans|])
    modifies r
    ensures |more| == |plans| + 1 && Planned(more, subs) && r.running == After(subs[..|more|])
  {
    var plan := NextCall(r, subs, |plans|);
    PlannedMore(plans, subs, plan);
    more := plans + [plan];
  }

  /** What the diff with its tables does over any run of calls: the plans above, stops included wherever the call is
      safe. */
  method ReconcileAll<Msg>(hash: Key -> nat, subs: seq<seq<Leaf<Msg>>>) returns (plans: seq<Plan<Msg>>)
    ensures |plans| == |subs| && Planned(plans, subs)
  {
    var r := new RunningSources<Msg>(hash);
    plans := [];
    while |plans| < |subs|
      invariant |plans| <= |subs| && Planned(plans, subs) && r.running == After(subs[..|plans|])
      decreases |subs| - |plans|
    {
      plans := OneMoreCall(r, subs, plans);
    }
  }

  // ── same_sources() ──

  /** The key of every leaf, duplicates included. */
  function AllKeys<Msg>(leaves: seq<Leaf<Msg>>): (ks: seq<Key>)
    ensures |ks| == |leaves|
  {
    if leaves == [] then []
    else
      var before, leaf := leaves[..|leaves| - 1], leaves[|leaves| - 1];
      AllKeys(before) + [KeyAfter(before, leaf)]
  }

  /** collect_key(): one leaf's key, its ordinal counted in a list of its own. */
  method CollectKey<Msg>(leaf: Leaf<Msg>, seen: seq<Key>, ords: seq<Ordinal>, ghost before: seq<Leaf<Msg>>)
    returns (seen': seq<Key>, ords': seq<Ordinal>)
    requires seen == AllKeys(before) && Counts(ords, before)
    ensures seen' == AllKeys(before + [leaf]) && Counts(ords', before + [leaf])
  {
    assert (before + [leaf])[..|before|] == before;
    var k := BaseKey(leaf);
    ords' := ords;
    if leaf.Every? {
      var i := FindBase(ords, k);
      var n := 0;
      if i < |ords| {
        Bumped(ords, before, leaf, i);
        n := ords[i].n;
        ords' := ords[i := ords[i].(n := n + 1)];
      } else {
        Added(ords, before, leaf);
        ords' := ords + [Ordinal(k, 1)];
      }
      k := EveryKey(leaf.interval, n);
    } else {
      Uncounted(ords, before, leaf);
    }
    seen' := seen + [k];
  }

  /** What same_sources() compares: as many leaves as running sources, and each of them running. */
  ghost predicate Same<Msg>(running: seq<Entry<Msg>>, leaves: seq<Leaf<Msg>>) {
    |leaves| == |running| && forall k :: k in AllKeys(leaves) ==> k in KeySet(running)
  }

  method SameSources<Msg>(running: seq<Entry<Msg>>, leaves: seq<Leaf<Msg>>) returns (same: bool)
    ensures same <==> Same(running, leaves)
  {
    var seen: seq<Key>, ords: seq<Ordinal> := [], [];
    var i := 0;
    assert leaves[..0] == [];
    while i < |leaves|
      invariant 0 <= i <= |leaves|
      invariant seen == AllKeys(leaves[..i]) && Counts(ords, leaves[..i])
    {
      seen, ords := CollectKey(leaves[i], seen, ords, leaves[..i]);
      assert leaves[..i] + [leaves[i]] == leaves[..i + 1];
      i := i + 1;
    }
    assert leaves[..i] == leaves;
    if |seen| != |running| { return false; }
    var j := 0;
    while j < |seen|
      invariant 0 <= j <= |seen|
      invariant forall x :: 0 <= x < j ==> seen[x] in KeySet(running)
    {
      var yes := Find(running, seen[j]);
      if !yes { return false; }
      j := j + 1;
    }
    return true;
  }

  /** The keys of the leaves are the wanted ones. */
  lemma {:induction false} AllKeysWanted<Msg>(leaves: seq<Leaf<Msg>>, k: Key)
    ensures k in AllKeys(leaves) <==> k in KeySet(Wanted(leaves))
  {
    if leaves != [] {
      var before, leaf := leaves[..|leaves| - 1], leaves[|leaves| - 1];
      AllKeysWanted(before, k);
      KeySetAppend(Wanted(before), Entry(KeyAfter(before, leaf), leaf));
    }
  }

  lemma {:induction false} SizeOfKeySet<Msg>(es: seq<Entry<Msg>>)
    requires Distinct(es)
    ensures |KeySet(es)| == |es|
  {
    if es != [] {
      var front, last := es[..|es| - 1], es[|es| - 1];
      assert es == front + [last];
      KeySetAppend(front, last);
      SizeOfKeySet(front);
      assert last.key !in KeySet(front);
    }
  }

  lemma EqualOfSize<T>(a: set<T>, b: set<T>)
    requires a <= b
    ensures a == b <==> |a| == |b|
  {
    if |a| == |b| {
      assert |b - a| == |b| - |a|;
      assert b - a == {};
    }
  }

  /** For which inputs same_sources() answers "the plan would start and stop nothing". Without duplicates always.
      With them it is wrong exactly when everything wanted runs and the running set has the size of the distinct
      keys (it says different) or of all leaves (it says same). */
  lemma SameSourcesExactly<Msg>(running: seq<Entry<Msg>>, leaves: seq<Leaf<Msg>>)
    requires Distinct(running)
    ensures var d, want := |Duplicates(leaves)|, Wanted(leaves);
            (Same(running, leaves) <==> !Diff(running, leaves).Changed()) <==>
            (d == 0 || !(KeySet(want) <= KeySet(running) && (|running| == |want| || |running| == |want| + d)))
  {
    ChangedIff(running, leaves);
    var want := Wanted(leaves);
    SizeOfWanted(leaves);
    SizeOfKeySet(want);
    SizeOfKeySet(running);
    forall k ensures k in AllKeys(leaves) <==> k in KeySet(want) { AllKeysWanted(leaves, k); }
    assert Same(running, leaves) <==> |leaves| == |running| && KeySet(want) <= KeySet(running);
    if KeySet(want) <= KeySet(running) { EqualOfSize(KeySet(want), KeySet(running)); }
  }

  /** A Sub naming one stream twice: nothing would change, and same_sources() says that something would. */
  lemma DuplicateLooksDifferent()
    ensures var once, twice := [Leaf<int>.Stream("a")], [Leaf<int>.Stream("a"), Leaf<int>.Stream("a")];
            !Same(Wanted(once), twice) && !Diff(Wanted(once), twice).Changed()
  {
    var a := Leaf<int>.Stream("a");
    assert [a, a][..1] == [a] && [a][..0] == [];
    ChangedIff(Wanted([a]), [a, a]);
    assert Wanted([a])[0].key == StreamKey("a");
  }
}
