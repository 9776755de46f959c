/** The promises of the signal source over whole runs. */
module SignalsTheorems {
  import opened Signals
  import opened SignalsInvariant

  /** Whenever a handler writes, the number in its hand is the open write end of the slot it loaded it from: never a
      descriptor that release() closed, nor one the system has since given to somebody else. */
  lemma NoWriteAfterClose(run: seq<State>, actions: seq<Action>, n: nat)
    requires IsRun(run, actions) && n < |actions| && actions[n].Write?
    ensures var p := run[n].handlers[actions[n].h];
            && p.k < SLOTS && run[n].slots[p.k].used && run[n].slots[p.k].wfd == p.fd
            && p.fd in run[n].owner && run[n].owner[p.fd] == Pipe(p.k)
            && run[n + 1].slots[p.k].bytes > 0
  {
    RunInv(run, actions, n);
    var p := run[n].handlers[actions[n].h];
    assert HandlerOk(p, run[n].slots) && SlotOk(run[n].slots[p.k], p.k, run[n].owner);
  }

  /** A pending signal always has a readable pipe, unless a handler is about to write to it or take() has just drained
      it and is about to return the bit. */
  lemma PendingIsReadable(run: seq<State>, actions: seq<Action>, n: nat, k: nat)
    requires IsRun(run, actions) && n < |run| && k < SLOTS && Shape(run[n]) && run[n].slots[k].pending != {}
    ensures run[n].slots[k].bytes > 0 || run[n].slots[k].drained || Writing(run[n].handlers, k)
  {
    RunInv(run, actions, n);
  }

  /** The j-th action returns signal b to the owner of slot k, or is the release of that slot. */
  predicate Consumes(s: State, a: Action, k: nat, b: nat)
    requires Shape(s)
  {
    (a == TakeBits(k) && k < SLOTS && b in s.slots[k].pending) || (a.CloseFds? && LockOn(s.lock, k))
  }

  lemma BitStays(s: State, a: Action, k: nat, b: nat)
    requires Shape(s) && Inv(s) && Enabled(s, a) && k < SLOTS && b in s.slots[k].pending && !Consumes(s, a, k, b)
    ensures b in Next(s, a).slots[k].pending
  {
    assert SlotOk(s.slots[k], k, s.owner);
  }

  predicate Has(s: State, k: nat, b: nat) { Shape(s) && k < SLOTS && b in s.slots[k].pending }

  predicate Gone(s: State, a: Action, k: nat, b: nat) { Shape(s) && Consumes(s, a, k, b) }

  lemma BitAt(run: seq<State>, actions: seq<Action>, j: nat, k: nat, b: nat)
    requires IsRun(run, actions) && j < |actions| && Has(run[j], k, b)
    ensures Has(run[j + 1], k, b) || Gone(run[j], actions[j], k, b)
  {
    RunInv(run, actions, j);
    RunInv(run, actions, j + 1);
    if !Gone(run[j], actions[j], k, b) { BitStays(run[j], actions[j], k, b); }
  }

  lemma {:induction false} BitLasts(run: seq<State>, actions: seq<Action>, n: nat, m: nat, k: nat, b: nat)
    requires IsRun(run, actions) && n <= m < |run| && Has(run[n], k, b)
    requires forall j :: n <= j < m ==> !Gone(run[j], actions[j], k, b)
    ensures Has(run[m], k, b)
    decreases m - n
  {
    if n < m {
      BitAt(run, actions, n, k, b);
      BitLasts(run, actions, n + 1, m, k, b);
    }
  }

  /** No signal is lost: once a handler has set its bit, at every later moment the bit is still set, or a take()
      returned it, or the source was released. */
  lemma NoSignalLost(run: seq<State>, actions: seq<Action>, n: nat, m: nat)
    requires IsRun(run, actions) && n < m < |run| && actions[n].SetBit?
    ensures var p := run[n].handlers[actions[n].h];
            Has(run[m], p.k, p.sig) || exists j :: n < j < m && Gone(run[j], actions[j], p.k, p.sig)
  {
    var p := run[n].handlers[actions[n].h];
    BitSet(run, actions, n);
    if forall j :: n < j < m ==> !Gone(run[j], actions[j], p.k, p.sig) {
      BitLasts(run, actions, n + 1, m, p.k, p.sig);
    }
  }

  lemma BitSet(run: seq<State>, actions: seq<Action>, n: nat)
    requires IsRun(run, actions) && n < |actions| && actions[n].SetBit?
    ensures var p := run[n].handlers[actions[n].h]; !p.Off? && !p.Entered? && Has(run[n + 1], p.k, p.sig)
  {
    RunInv(run, actions, n + 1);
  }

  // ── dispositions ──

  /** One step, seen from one signal. */
  lemma SigStep(s: State, a: Action, i: nat)
    requires Shape(s) && Inv(s) && Enabled(s, a) && i < SIGNALS
    ensures var g, t := s.sigs[i], Next(s, a);
            && Shape(t)
            && (g.refs == 0 && t.sigs[i].refs > 0 ==> t.sigs[i].prev == g.disposition)
            && (g.refs > 0 && t.sigs[i].refs > 0 ==> t.sigs[i].prev == g.prev)
            && (g.refs > 0 && t.sigs[i].refs <= 0 ==> t.sigs[i].disposition == g.prev)
            && (g.refs == 0 && t.sigs[i].refs == 0 && a != SetDisposition(i, t.sigs[i].disposition) ==> t.sigs[i] == g)
  {
    if a.DropOne? && s.lock.i < SIGNALS && s.lock.i in s.slots[s.lock.k].share {
      HoldersUpdate(s.slots, s.lock.k, s.slots[s.lock.k], s.lock.i);
    }
  }

  /** How one signal's record moves in one step. */
  ghost predicate Moves(g: Sig, g': Sig) {
    && (g.refs == 0 && g'.refs > 0 ==> g'.prev == g.disposition)
    && (g.refs > 0 && g'.refs > 0 ==> g'.prev == g.prev)
    && (g.refs > 0 && g'.refs <= 0 ==> g'.disposition == g.prev)
  }

  /** The record of signal i along a run. */
  function Trace(run: seq<State>, i: nat): (gs: seq<Sig>)
    requires forall j :: 0 <= j < |run| ==> i < |run[j].sigs|
    ensures |gs| == |run|
  {
    seq(|run|, j requires 0 <= j < |run| => run[j].sigs[i])
  }

  lemma Shaped(run: seq<State>, actions: seq<Action>)
    requires IsRun(run, actions)
    ensures forall j :: 0 <= j < |run| ==> Shape(run[j])
  {
    forall j | 0 <= j < |run| ensures Shape(run[j]) { RunInv(run, actions, j); }
  }

  lemma SigAt(run: seq<State>, actions: seq<Action>, i: nat, j: nat)
    requires IsRun(run, actions) && i < SIGNALS && j < |actions|
    ensures Shape(run[j]) && Shape(run[j + 1]) && Moves(run[j].sigs[i], run[j + 1].sigs[i])
  {
    RunInv(run, actions, j);
    RunInv(run, actions, j + 1);
    SigStep(run[j], actions[j], i);
  }

  /** While sources want a signal, what preceded the first of them is remembered. */
  lemma {:induction false} Remembered(gs: seq<Sig>, m: nat, n: nat)
    requires m < n < |gs| && gs[m].refs == 0
    requires forall j :: 0 <= j < |gs| - 1 ==> Moves(gs[j], gs[j + 1])
    requires forall j :: m < j <= n ==> gs[j].refs > 0
    ensures gs[n].prev == gs[m].disposition
    decreases n
  {
    assert Moves(gs[n - 1], gs[n]);
    if m < n - 1 { Remembered(gs, m, n - 1); }
  }

  /** How many sources count signal i. */
  function Sources(s: State, i: nat): int { if i < |s.sigs| then s.sigs[i].refs else 0 }

  /** The last release restores the disposition that preceded the first install, whatever else ran in between. */
  lemma RestoresDisposition(run: seq<State>, actions: seq<Action>, i: nat, m: nat, n: nat)
    requires IsRun(run, actions) && i < SIGNALS && m + 1 < n < |run|
    requires Sources(run[m], i) == 0 && Sources(run[n], i) == 0 && forall j :: m < j < n ==> Sources(run[j], i) > 0
    ensures Shape(run[m]) && Shape(run[n]) && run[n].sigs[i].disposition == run[m].sigs[i].disposition
  {
    Shaped(run, actions);
    var gs := Trace(run, i);
    forall j | 0 <= j < |gs| - 1 ensures Moves(gs[j], gs[j + 1]) { SigAt(run, actions, i, j); }
    forall j | m < j < n ensures gs[j].refs > 0 { assert Sources(run[j], i) > 0; }
    Remembered(gs, m, n - 1);
    assert Moves(gs[n - 1], gs[n]);
  }

  /** An inherited "ignore" of a stopping signal stays, through any installs and releases, until somebody else
      changes it; no source ever counts it. */
  lemma {:induction false} InheritedIgnoreStays(run: seq<State>, actions: seq<Action>, i: nat, m: nat, n: nat)
    requires IsRun(run, actions) && Stopping(i) && m <= n < |run| && Shape(run[m])
    requires run[m].sigs[i].refs == 0 && run[m].sigs[i].disposition == Ignore
    requires forall j :: m <= j < n ==> !(actions[j].SetDisposition? && actions[j].i == i)
    ensures Shape(run[n]) && run[n].sigs[i].refs == 0 && run[n].sigs[i].disposition == Ignore
    decreases n
  {
    if m < n {
      InheritedIgnoreStays(run, actions, i, m, n - 1);
      RunInv(run, actions, n - 1);
      SigStep(run[n - 1], actions[n - 1], i);
      IgnoreStep(run[n - 1], actions[n - 1], i);
    }
  }

  lemma IgnoreStep(s: State, a: Action, i: nat)
    requires Shape(s) && Inv(s) && Enabled(s, a) && Stopping(i)
    requires s.sigs[i].refs == 0 && s.sigs[i].disposition == Ignore
    ensures Shape(Next(s, a)) && Next(s, a).sigs[i].refs == 0
  {
    if a.DropOne? && s.lock.i < SIGNALS && s.lock.i in s.slots[s.lock.k].share {
      HoldersUpdate(s.slots, s.lock.k, s.slots[s.lock.k], s.lock.i);
    }
  }
}
