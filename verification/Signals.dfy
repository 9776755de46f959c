/** Signal handlers against install(), take() and release() (`signals.cpp`), as a state machine: one step per atomic
  operation or system call, in any interleaving of any number of handler runs with the threads that own sources. */
module Signals {
  const SLOTS: nat := 8
  const SIGNALS: nat := 5

  /** The signals whose inherited "ignore" is an instruction: SIGINT, SIGTERM, SIGHUP. */
  predicate Stopping(i: nat) { i < 3 }

  datatype Disposition = Ours | Ignore | Other(n: int)

  /** A slot. `fd` is what handlers see, -1 when unpublished; `wfd` the write end it owns from install to close;
      `share` the signals it still counts in g_refs; `bytes` what is in its pipe; `drained` is take() between its
      two halves. */
  datatype Slot = Slot(used: bool, fd: int, wfd: int, wants: set<nat>, pending: set<nat>, share: set<nat>,
                       bytes: nat, drained: bool)

  /** What a descriptor number stands for right now. Numbers are reused by the system. */
  datatype Owner = Pipe(k: nat) | Foreign

  /** One handler run. */
  datatype Handler =
    | Off
    | Entered(sig: nat)                    // called, not yet counted
    | Scan(sig: nat, k: nat)               // about to load the k-th slot's wants
    | AtFd(sig: nat, k: nat)
    | AtPend(sig: nat, k: nat, fd: int)
    | AtWrite(sig: nat, k: nat, fd: int)

  /** Who holds g_mu, and where. */
  datatype Lock =
    | Free
    | Adding(k: nat, wanted: set<nat>, i: nat) | Publishing(k: nat)
    | Unwanting(k: nat) | Unpublishing(k: nat) | Dropping(k: nat, i: nat) | Waiting(k: nat) | Closing(k: nat)

  datatype Sig = Sig(refs: int, installed: bool, disposition: Disposition, prev: Disposition)

  datatype State = State(slots: seq<Slot>, sigs: seq<Sig>, owner: map<int, Owner>, handlers: seq<Handler>,
                         count: int, lock: Lock)

  datatype Action =
    | Deliver(h: nat, sig: nat) | CountIn(h: nat) | LoadWants(h: nat) | LoadFd(h: nat) | SetBit(h: nat)
    | Write(h: nat, again: bool) | CountOut(h: nat)
    | BeginInstall(k: nat, fd: int, wanted: set<nat>) | AddOne(fails: bool) | StoreWants | StoreFd
    | BeginRelease(k: nat) | ClearWants | TakeFd | DropOne | SeeNobody | CloseFds
    | Drain(k: nat) | TakeBits(k: nat)
    | OpenOther(fd: int) | CloseOther(fd: int) | SetDisposition(i: nat, d: Disposition)

  predicate Shape(s: State) { |s.slots| == SLOTS && |s.sigs| == SIGNALS }

  predicate LockOn(l: Lock, k: nat) { !l.Free? && l.k == k }

  predicate Enabled(s: State, a: Action)
    requires Shape(s)
  {
    match a
    case Deliver(h, sig) => h < |s.handlers| && s.handlers[h].Off? && sig < SIGNALS && s.sigs[sig].disposition == Ours
    case CountIn(h) => h < |s.handlers| && s.handlers[h].Entered?
    case LoadWants(h) => h < |s.handlers| && s.handlers[h].Scan? && s.handlers[h].k < SLOTS
    case LoadFd(h) => h < |s.handlers| && s.handlers[h].AtFd? && s.handlers[h].k < SLOTS
    case SetBit(h) => h < |s.handlers| && s.handlers[h].AtPend? && s.handlers[h].k < SLOTS
    case Write(h, again) => h < |s.handlers| && s.handlers[h].AtWrite?
                            && (again ==> BytesAt(s, s.handlers[h].fd) > 0)
    case CountOut(h) => h < |s.handlers| && s.handlers[h].Scan? && s.handlers[h].k >= SLOTS
    case BeginInstall(k, fd, _) => s.lock.Free? && k < SLOTS && !s.slots[k].used && fd >= 0 && fd !in s.owner
                                   && forall j :: 0 <= j < k ==> s.slots[j].used
    case AddOne(_) => s.lock.Adding? && s.lock.i < SIGNALS && s.lock.k < SLOTS
    case StoreWants => s.lock.Adding? && s.lock.i >= SIGNALS && s.lock.k < SLOTS
    case StoreFd => s.lock.Publishing? && s.lock.k < SLOTS
    case BeginRelease(k) => s.lock.Free? && k < SLOTS && s.slots[k].used && !s.slots[k].drained
    case ClearWants => s.lock.Unwanting? && s.lock.k < SLOTS
    case TakeFd => s.lock.Unpublishing? && s.lock.k < SLOTS
    case DropOne => s.lock.Dropping? && s.lock.k < SLOTS
    case SeeNobody => s.lock.Waiting? && s.count == 0
    case CloseFds => s.lock.Closing? && s.lock.k < SLOTS
    case Drain(k) => k < SLOTS && s.slots[k].used && !LockOn(s.lock, k) && !s.slots[k].drained
    case TakeBits(k) => k < SLOTS && s.slots[k].drained
    case OpenOther(fd) => fd >= 0 && fd !in s.owner
    case CloseOther(fd) => fd in s.owner && s.owner[fd].Foreign?
    case SetDisposition(i, d) => i < SIGNALS && d != Ours
  }

  /** What a write to this descriptor number would find in its pipe. */
  function BytesAt(s: State, fd: int): nat
    requires Shape(s)
  {
    if fd in s.owner && s.owner[fd].Pipe? && s.owner[fd].k < SLOTS then s.slots[s.owner[fd].k].bytes else 0
  }

  function SetSlot(s: State, k: nat, sl: Slot): State
    requires Shape(s) && k < SLOTS
  { s.(slots := s.slots[k := sl]) }

  function Go(s: State, h: nat, pc: Handler): State
    requires h < |s.handlers|
  { s.(handlers := s.handlers[h := pc]) }

  /** A byte into whatever the descriptor number means by now. */
  function WriteTo(s: State, fd: int): State
    requires Shape(s)
  {
    if fd in s.owner && s.owner[fd].Pipe? && s.owner[fd].k < SLOTS then
      var k := s.owner[fd].k;
      SetSlot(s, k, s.slots[k].(bytes := s.slots[k].bytes + 1))
    else s
  }

  /** add_handler(): the first one replaces the disposition and remembers it. */
  function AddHandler(g: Sig, fails: bool): (r: (Sig, bool)) {
    if g.refs > 0 then (g.(refs := g.refs + 1), true)
    else if fails then (g, false)
    else (Sig(g.refs + 1, true, Ours, g.disposition), true)
  }

  /** drop_handler(): the last one puts it back. */
  function DropHandler(g: Sig): Sig {
    if g.refs - 1 > 0 then g.(refs := g.refs - 1)
    else if g.installed then Sig(g.refs - 1, false, g.prev, g.prev)
    else g.(refs := g.refs - 1)
  }

  /** One signal of install()'s loop. */
  function DoAdd(s: State, fails: bool): State
    requires Shape(s) && s.lock.Adding? && s.lock.i < SIGNALS && s.lock.k < SLOTS
  {
    var i, k, g := s.lock.i, s.lock.k, s.sigs[s.lock.i];
    var t := s.(lock := Adding(k, s.lock.wanted, i + 1));
    if i !in s.lock.wanted then t
    else if !g.installed && Stopping(i) && g.disposition == Ignore then t
    else
      var r := AddHandler(g, fails);
      if r.1 then SetSlot(t, k, t.slots[k].(share := t.slots[k].share + {i})).(sigs := s.sigs[i := r.0])
      else t
  }

  function DoDrop(s: State): State
    requires Shape(s) && s.lock.Dropping? && s.lock.k < SLOTS
  {
    var i, k := s.lock.i, s.lock.k;
    if i >= SIGNALS then s.(lock := Waiting(k))
    else
      var t := s.(lock := Dropping(k, i + 1));
      if i !in s.slots[k].share then t
      else SetSlot(t, k, t.slots[k].(share := t.slots[k].share - {i})).(sigs := s.sigs[i := DropHandler(s.sigs[i])])
  }

  function Next(s: State, a: Action): State
    requires Shape(s) && Enabled(s, a)
  {
    match a
    case Deliver(h, sig) => Go(s, h, Entered(sig))
    case CountIn(h) => Go(s, h, Scan(s.handlers[h].sig, 0)).(count := s.count + 1)
    case LoadWants(h) =>
      var p := s.handlers[h];
      Go(s, h, if p.sig in s.slots[p.k].wants then AtFd(p.sig, p.k) else Scan(p.sig, p.k + 1))
    case LoadFd(h) =>
      var p := s.handlers[h];
      Go(s, h, if s.slots[p.k].fd < 0 then Scan(p.sig, p.k + 1) else AtPend(p.sig, p.k, s.slots[p.k].fd))
    case SetBit(h) =>
      var p := s.handlers[h];
      Go(SetSlot(s, p.k, s.slots[p.k].(pending := s.slots[p.k].pending + {p.sig})), h, AtWrite(p.sig, p.k, p.fd))
    case Write(h, again) =>
      var p := s.handlers[h];
      Go(if again then s else WriteTo(s, p.fd), h, Scan(p.sig, p.k + 1))
    case CountOut(h) => Go(s, h, Off).(count := s.count - 1)
    case BeginInstall(k, fd, wanted) =>
      SetSlot(s, k, s.slots[k].(used := true, wfd := fd, bytes := 0, pending := {}))
        .(owner := s.owner[fd := Pipe(k)], lock := Adding(k, wanted, 0))
    case AddOne(fails) => DoAdd(s, fails)
    case StoreWants =>
      var k := s.lock.k;
      SetSlot(s, k, s.slots[k].(wants := s.slots[k].share)).(lock := Publishing(k))
    case StoreFd =>
      var k := s.lock.k;
      SetSlot(s, k, s.slots[k].(fd := s.slots[k].wfd)).(lock := Free)
    case BeginRelease(k) => s.(lock := Unwanting(k))
    case ClearWants =>
      var k := s.lock.k;
      SetSlot(s, k, s.slots[k].(wants := {})).(lock := Unpublishing(k))
    case TakeFd =>
      var k := s.lock.k;
      SetSlot(s, k, s.slots[k].(fd := -1)).(lock := Dropping(k, 0))
    case DropOne => DoDrop(s)
    case SeeNobody => s.(lock := Closing(s.lock.k))
    case CloseFds =>
      var k := s.lock.k;
      SetSlot(s, k, s.slots[k].(used := false, wfd := -1, bytes := 0, pending := {}))
        .(owner := s.owner - {s.slots[k].wfd}, lock := Free)
    case Drain(k) => SetSlot(s, k, s.slots[k].(bytes := 0, drained := true))
    case TakeBits(k) => SetSlot(s, k, s.slots[k].(pending := {}, drained := false))
    case OpenOther(fd) => s.(owner := s.owner[fd := Foreign])
    case CloseOther(fd) => s.(owner := s.owner - {fd})
    case SetDisposition(i, d) => s.(sigs := s.sigs[i := s.sigs[i].(disposition := d)])
  }

  predicate Init(s: State) {
    && Shape(s) && s.lock.Free? && s.count == 0
    && (forall k :: 0 <= k < SLOTS ==> s.slots[k] == Slot(false, -1, -1, {}, {}, {}, 0, false))
    && (forall i :: 0 <= i < SIGNALS ==> s.sigs[i].refs == 0 && !s.sigs[i].installed)
    && (forall h :: 0 <= h < |s.handlers| ==> s.handlers[h].Off?)
    && (forall fd :: fd in s.owner ==> s.owner[fd].Foreign?)
  }

  predicate IsRun(run: seq<State>, actions: seq<Action>) {
    && |run| == |actions| + 1 && Init(run[0])
    && forall i :: 0 <= i < |actions| ==>
         Shape(run[i]) && Enabled(run[i], actions[i]) && run[i + 1] == Next(run[i], actions[i])
  }
}
