/** The structural type walker (`walk.hpp`): a search over a finite type graph, cycles included, that remembers only
  the path it is on and takes a type already on it to be fine. */
module Walk {
  /** What a policy and the walker's own look inside make of a type. `Opaque` is a type that nothing can be seen of. */
  datatype Kind = Accept | Reject | Into(parts: seq<nat>) | Fields(parts: seq<nat>) | Array(elem: nat) | Opaque

  /** A type is its index in the graph. Arrays are stripped of all extents at once. */
  predicate Graph(g: seq<Kind>) {
    forall t :: 0 <= t < |g| ==>
      && (forall i :: 0 <= i < |Parts(g[t])| ==> Parts(g[t])[i] < |g|)
      && (g[t].Array? ==> g[t].elem < |g| && !g[g[t].elem].Array?)
  }

  function Parts(k: Kind): seq<nat> {
    match k
    case Into(parts) => parts
    case Fields(parts) => parts
    case Array(elem) => [elem]
    case _ => []
  }

  datatype Result = Yes | No(culprit: nat)

  function Types(n: nat): (ts: set<nat>)
    ensures forall t :: t in ts <==> 0 <= t < n
  { if n == 0 then {} else Types(n - 1) + {n - 1} }

  function Unseen(g: seq<Kind>, seen: set<nat>): set<nat> { Types(|g|) - seen }

  lemma SeenMore(g: seq<Kind>, seen: set<nat>, t: nat)
    requires t < |g| && t !in seen
    ensures |Unseen(g, seen + {t})| < |Unseen(g, seen)|
  {
    assert Unseen(g, seen + {t}) == Unseen(g, seen) - {t};
  }

  /** check<>: the type, unless it is on the path already. */
  function Check(g: seq<Kind>, t: nat, seen: set<nat>): (r: Result)
    requires Graph(g) && t < |g|
    decreases |Unseen(g, seen)|, if g[t].Array? then 1 else 0, 0
  {
    if t in seen then Yes
    else
      match g[t]
      case Accept => Yes
      case Reject => No(t)
      case Opaque => No(t)
      case Array(elem) => Check(g, elem, seen)
      case _ => SeenMore(g, seen, t); AllOf(g, Parts(g[t]), seen + {t})
  }

  /** all_of<>: the first failure is the answer. */
  function AllOf(g: seq<Kind>, ts: seq<nat>, seen: set<nat>): (r: Result)
    requires Graph(g) && forall i :: 0 <= i < |ts| ==> ts[i] < |g|
    decreases |Unseen(g, seen)|, 2, |ts|
  {
    if ts == [] then Yes
    else if Check(g, ts[0], seen).Yes? then AllOf(g, ts[1..], seen)
    else Check(g, ts[0], seen)
  }

  function Run(g: seq<Kind>, t: nat): Result
    requires Graph(g) && t < |g|
  { Check(g, t, {}) }

  // ── the reference: what is reachable ──

  predicate Bad(k: Kind) { k.Reject? || k.Opaque? }

  /** A path through the graph that keeps out of `seen`. */
  ghost predicate Path(g: seq<Kind>, p: seq<nat>, seen: set<nat>) {
    && p != [] && (forall i :: 0 <= i < |p| ==> p[i] < |g| && p[i] !in seen)
    && forall i :: 0 <= i < |p| - 1 ==> p[i + 1] in Parts(g[p[i]])
  }

  ghost predicate Reaches(g: seq<Kind>, t: nat, b: nat) {
    exists p :: Path(g, p, {}) && p[0] == t && p[|p| - 1] == b
  }

  lemma PathMore(g: seq<Kind>, t: nat, p: seq<nat>, seen: set<nat>, less: set<nat>)
    requires Path(g, p, seen) && t < |g| && t !in less && p[0] in Parts(g[t]) && less <= seen
    ensures Path(g, [t] + p, less)
  {
    var q := [t] + p;
    forall i | 0 <= i < |q| - 1 ensures q[i + 1] in Parts(g[q[i]]) {
      if i > 0 { assert p[i] in Parts(g[p[i - 1]]); }
    }
  }

  // ── failing: the culprit is there ──

  lemma {:induction false} CulpritOf(g: seq<Kind>, t: nat, seen: set<nat>) returns (p: seq<nat>)
    requires Graph(g) && t < |g| && Check(g, t, seen).No?
    ensures Path(g, p, seen) && p[0] == t && p[|p| - 1] == Check(g, t, seen).culprit && Bad(g[p[|p| - 1]])
    decreases |Unseen(g, seen)|, if g[t].Array? then 1 else 0, 0
  {
    match g[t]
    case Array(elem) =>
      var q := CulpritOf(g, elem, seen);
      PathMore(g, t, q, seen, seen);
      p := [t] + q;
    case Into(parts) =>
      SeenMore(g, seen, t);
      var q := CulpritIn(g, parts, seen + {t});
      PathMore(g, t, q, seen + {t}, seen);
      p := [t] + q;
    case Fields(parts) =>
      SeenMore(g, seen, t);
      var q := CulpritIn(g, parts, seen + {t});
      PathMore(g, t, q, seen + {t}, seen);
      p := [t] + q;
    case _ => p := [t];
  }

  lemma {:induction false} CulpritIn(g: seq<Kind>, ts: seq<nat>, seen: set<nat>) returns (p: seq<nat>)
    requires Graph(g) && (forall i :: 0 <= i < |ts| ==> ts[i] < |g|) && AllOf(g, ts, seen).No?
    ensures Path(g, p, seen) && p[0] in ts && p[|p| - 1] == AllOf(g, ts, seen).culprit && Bad(g[p[|p| - 1]])
    decreases |Unseen(g, seen)|, 2, |ts|
  {
    if Check(g, ts[0], seen).Yes? { p := CulpritIn(g, ts[1..], seen); }
    else { p := CulpritOf(g, ts[0], seen); }
  }

  // ── passing: nothing bad can be reached without crossing the path ──

  /** What follows the last visit to t. */
  lemma {:induction false} LastVisit(p: seq<nat>, t: nat) returns (i: nat)
    requires t in p
    ensures i < |p| && p[i] == t && forall j :: i < j < |p| ==> p[j] != t
    decreases |p|
  {
    i := |p| - 1;
    if p[i] != t { i := LastVisit(p[..i], t); }
  }

  lemma {:induction false} AllOfPasses(g: seq<Kind>, ts: seq<nat>, seen: set<nat>, t: nat)
    requires Graph(g) && (forall i :: 0 <= i < |ts| ==> ts[i] < |g|) && AllOf(g, ts, seen).Yes? && t in ts
    ensures t < |g| && Check(g, t, seen).Yes?
    decreases |ts|
  {
    if t != ts[0] { AllOfPasses(g, ts[1..], seen, t); }
  }

  lemma PathSuffix(g: seq<Kind>, p: seq<nat>, seen: set<nat>, i: nat)
    requires Path(g, p, seen) && i < |p|
    ensures Path(g, p[i..], seen)
  {
    var q := p[i..];
    forall j | 0 <= j < |q| - 1 ensures q[j + 1] in Parts(g[q[j]]) { assert p[i + j + 1] in Parts(g[p[i + j]]); }
  }

  /** A path that leaves t for good has a part, from one of t's parts on, that never comes back to t. */
  lemma LeaveForGood(g: seq<Kind>, t: nat, seen: set<nat>, p: seq<nat>) returns (q: seq<nat>)
    requires Path(g, p, seen) && p[0] == t && p[|p| - 1] != t
    ensures t < |g| && Path(g, q, seen + {t}) && q[0] in Parts(g[t]) && q[|q| - 1] == p[|p| - 1]
  {
    var i := LastVisit(p, t);
    assert p[i + 1] in Parts(g[p[i]]);
    PathSuffix(g, p, seen, i + 1);
    q := p[i + 1..];
  }

  lemma {:induction false} PassIsClean(g: seq<Kind>, t: nat, seen: set<nat>, p: seq<nat>)
    requires Graph(g) && t < |g| && Check(g, t, seen).Yes? && Path(g, p, seen) && p[0] == t
    ensures !Bad(g[p[|p| - 1]])
    decreases |Unseen(g, seen)|, if g[t].Array? then 1 else 0
  {
    if p[|p| - 1] != t {
      if g[t].Array? {
        assert p[1] in Parts(g[p[0]]);
        PathSuffix(g, p, seen, 1);
        PassIsClean(g, g[t].elem, seen, p[1..]);
      } else {
        var q := LeaveForGood(g, t, seen, p);
        SeenMore(g, seen, t);
        AllOfPasses(g, Parts(g[t]), seen + {t}, q[0]);
        PassIsClean(g, q[0], seen + {t}, q);
      }
    }
  }

  /** On every finite type graph the walker accepts exactly the types from which no rejected or opaque type can be
      reached, and what it names as the culprit is one that can. */
  lemma WalkerIsExact(g: seq<Kind>, t: nat)
    requires Graph(g) && t < |g|
    ensures Run(g, t).Yes? <==> forall b :: 0 <= b < |g| && Reaches(g, t, b) ==> !Bad(g[b])
    ensures Run(g, t).No? ==> var c := Run(g, t).culprit; c < |g| && Bad(g[c]) && Reaches(g, t, c)
  {
    if Run(g, t).No? {
      var p := CulpritOf(g, t, {});
      assert Reaches(g, t, p[|p| - 1]);
    } else {
      forall b | 0 <= b < |g| && Reaches(g, t, b) ensures !Bad(g[b]) {
        var p :| Path(g, p, {}) && p[0] == t && p[|p| - 1] == b;
        PassIsClean(g, t, {}, p);
      }
    }
  }
}
