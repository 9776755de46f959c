/** What a subscription asks for, and what one diff against the running sources means.

  This is the contract of `reconcile.hpp`: keys, the ordinal a repeated timer gets, the wanted list
  (first occurrence of a key wins) and the plan. The tables that compute it fast are in `Reconcile`;
  the kernel uses only what is here. */
module Sources {

  /** `every` timers are told apart by interval and ordinal, streams and host sources by name. */
  datatype Key = EveryKey(interval: int, ordinal: nat) | StreamKey(name: string) | HostKey(name: string)

  datatype Leaf<+Msg> = Every(interval: int, msg: Msg) | Stream(name: string) | Host(name: string)

  datatype Entry<+Msg> = Entry(key: Key, leaf: Leaf<Msg>)

  datatype Plan<+Msg> = Plan(start: seq<Entry<Msg>>, keep: seq<Entry<Msg>>, stop: seq<Key>, duplicates: seq<Key>)
  {
    predicate Changed() { start != [] || stop != [] }
  }

  /** The key of a leaf before numbering. */
  function BaseKey<Msg>(leaf: Leaf<Msg>): Key {
    match leaf
    case Every(interval, _) => EveryKey(interval, 0)
    case Stream(name) => StreamKey(name)
    case Host(name) => HostKey(name)
  }

  /** How many of `leaves` are timers with this interval. */
  function Count<Msg>(leaves: seq<Leaf<Msg>>, interval: int): nat {
    if leaves == [] then 0
    else
      var last := leaves[|leaves| - 1];
      Count(leaves[..|leaves| - 1], interval) + if last.Every? && last.interval == interval then 1 else 0
  }

  /** The key of `leaf` when it follows `before`: the n-th timer of a base key gets ordinal n. */
  function KeyAfter<Msg>(before: seq<Leaf<Msg>>, leaf: Leaf<Msg>): Key {
    if leaf.Every? then EveryKey(leaf.interval, Count(before, leaf.interval)) else BaseKey(leaf)
  }

  predicate KeyFits<Msg>(key: Key, leaf: Leaf<Msg>) {
    match key
    case EveryKey(_, _) => leaf.Every?
    case StreamKey(_) => leaf.Stream?
    case HostKey(_) => leaf.Host?
  }

  function KeySet<Msg>(es: seq<Entry<Msg>>): set<Key> {
    set i | 0 <= i < |es| :: es[i].key
  }

  predicate Distinct<Msg>(es: seq<Entry<Msg>>) {
    forall i, j :: 0 <= i < j < |es| ==> es[i].key != es[j].key
  }

  /** The entries a Sub asks for: its leaves in order, the first occurrence of each key. */
  function Wanted<Msg>(leaves: seq<Leaf<Msg>>): (es: seq<Entry<Msg>>)
    ensures Distinct(es)
  {
    if leaves == [] then []
    else
      var before, leaf := leaves[..|leaves| - 1], leaves[|leaves| - 1];
      var es, k := Wanted(before), KeyAfter(before, leaf);
      if k in KeySet(es) then es else es + [Entry(k, leaf)]
  }

  /** The keys of the leaves that were left out of `Wanted`, in order. */
  function Duplicates<Msg>(leaves: seq<Leaf<Msg>>): seq<Key> {
    if leaves == [] then []
    else
      var before, leaf := leaves[..|leaves| - 1], leaves[|leaves| - 1];
      var k := KeyAfter(before, leaf);
      Duplicates(before) + if k in KeySet(Wanted(before)) then [k] else []
  }

  /** The entries whose key is (`inside`) or is not in `keys`, in order. */
  function Select<Msg>(es: seq<Entry<Msg>>, keys: set<Key>, inside: bool): (r: seq<Entry<Msg>>)
    ensures forall i :: 0 <= i < |r| ==> r[i] in es && (r[i].key in keys <==> inside)
    ensures KeySet(r) == if inside then KeySet(es) * keys else KeySet(es) - keys
    ensures Distinct(es) ==> Distinct(r)
  {
    if es == [] then []
    else
      var front, last := es[..|es| - 1], es[|es| - 1];
      var r := Select(front, keys, inside);
      assert es == front + [last];
      SelectStep(front, last, r, keys, inside);
      if last.key in keys <==> inside then r + [last] else r
  }

  /** The keys of a selection after one more entry. */
  lemma SelectStep<Msg>(front: seq<Entry<Msg>>, last: Entry<Msg>, r: seq<Entry<Msg>>, keys: set<Key>, inside: bool)
    requires KeySet(r) == if inside then KeySet(front) * keys else KeySet(front) - keys
    ensures var s := if last.key in keys <==> inside then r + [last] else r;
            KeySet(s) == if inside then KeySet(front + [last]) * keys else KeySet(front + [last]) - keys
  {
    KeySetAppend(front, last);
    KeySetAppend(r, last);
  }

  lemma KeySetAppend<Msg>(es: seq<Entry<Msg>>, e: Entry<Msg>)
    ensures KeySet(es + [e]) == KeySet(es) + {e.key}
  {
    var all := es + [e];
    assert forall i | 0 <= i < |es| :: all[i] == es[i];
    assert all[|es|] == e;
    forall k | k in KeySet(es) + {e.key} ensures k in KeySet(all) {
      if k == e.key { assert all[|es|].key == k; }
      else { var i :| 0 <= i < |es| && es[i].key == k; assert all[i].key == k; }
    }
  }

  function KeysOf<Msg>(es: seq<Entry<Msg>>): seq<Key> {
    seq(|es|, i requires 0 <= i < |es| => es[i].key)
  }

  /** The plan: keep what is in both, start what is only wanted, stop what is only running. */
  function Diff<Msg>(running: seq<Entry<Msg>>, leaves: seq<Leaf<Msg>>): Plan<Msg> {
    var want := Wanted(leaves);
    Plan(Select(want, KeySet(running), false), Select(want, KeySet(running), true),
         KeysOf(Select(running, KeySet(want), false)), Duplicates(leaves))
  }
}
