/** What every interleaving of handlers, installs, takes and releases keeps, and what follows from it. */
module SignalsInvariant {
  import opened Signals

  /** The handler has a descriptor number in hand. */
  predicate Loaded(p: Handler) { p.AtPend? || p.AtWrite? }

  predicate Counted(p: Handler) { !p.Off? && !p.Entered? }

  function Running(hs: seq<Handler>): nat {
    if hs == [] then 0 else Running(hs[1..]) + if Counted(hs[0]) then 1 else 0
  }

  /** How many slots count signal i. */
  function Holders(slots: seq<Slot>, i: nat): nat {
    if slots == [] then 0 else Holders(slots[1..], i) + if i in slots[0].share then 1 else 0
  }

  ghost predicate SlotOk(sl: Slot, k: nat, owner: map<int, Owner>) {
    && (sl.used ==> sl.wfd >= 0 && sl.wfd in owner && owner[sl.wfd] == Pipe(k))
    && (sl.fd >= 0 ==> sl.used && sl.fd == sl.wfd)
    && (!sl.used ==> sl.fd < 0 && sl.wants == {} && sl.share == {} && sl.pending == {} && !sl.drained)
    && forall i :: i in sl.share ==> i < SIGNALS
  }

  /** What the holder of the lock has done to its slot so far. */
  ghost predicate Phase(sl: Slot, k: nat, lock: Lock) {
    LockOn(lock, k) ==>
      && sl.used && !sl.drained
      && (lock.Unwanting? || lock.Unpublishing? || sl.fd < 0)
      && (lock.Adding? || lock.Publishing? || lock.Unwanting? || sl.wants == {})
      && (lock.Adding? ==> forall i :: i in sl.share ==> i < lock.i)
      && (lock.Dropping? ==> forall i :: i in sl.share ==> i >= lock.i)
      && (lock.Waiting? || lock.Closing? ==> sl.share == {})
  }

  ghost predicate SlotsOk(slots: seq<Slot>, owner: map<int, Owner>, lock: Lock) {
    && |slots| == SLOTS && (!lock.Free? ==> lock.k < SLOTS)
    && forall k :: 0 <= k < SLOTS ==> SlotOk(slots[k], k, owner) && Phase(slots[k], k, lock)
  }

  /** A descriptor number in a handler's hand is the open write end of its slot. */
  ghost predicate HandlerOk(p: Handler, slots: seq<Slot>) {
    && (p.AtFd? ==> p.k < SLOTS)
    && (Loaded(p) ==> p.k < |slots| == SLOTS && slots[p.k].used && slots[p.k].wfd == p.fd)
  }

  ghost predicate HandlersOk(hs: seq<Handler>, slots: seq<Slot>) {
    forall h :: 0 <= h < |hs| ==> HandlerOk(hs[h], slots)
  }

  /** Nobody holds the descriptor that is about to be closed. */
  ghost predicate Quiet(hs: seq<Handler>, lock: Lock) {
    lock.Closing? ==> forall h :: 0 <= h < |hs| && Loaded(hs[h]) ==> hs[h].k != lock.k
  }

  ghost predicate RefsOk(sigs: seq<Sig>, slots: seq<Slot>) {
    && |sigs| == SIGNALS
    && forall i :: 0 <= i < SIGNALS ==> sigs[i].refs == Holders(slots, i) && (sigs[i].installed <==> sigs[i].refs > 0)
  }

  ghost predicate Writing(hs: seq<Handler>, k: nat) {
    exists h :: 0 <= h < |hs| && hs[h].AtWrite? && hs[h].k == k
  }

  /** A pending bit comes with a readable pipe, outside the handler's and take()'s windows. */
  ghost predicate Readable(slots: seq<Slot>, hs: seq<Handler>) {
    forall k :: 0 <= k < |slots| && slots[k].pending != {} ==> slots[k].bytes > 0 || slots[k].drained || Writing(hs, k)
  }

  ghost predicate Inv(s: State) {
    && SlotsOk(s.slots, s.owner, s.lock) && HandlersOk(s.handlers, s.slots) && Quiet(s.handlers, s.lock)
    && s.count == Running(s.handlers) && RefsOk(s.sigs, s.slots) && Readable(s.slots, s.handlers)
  }

  // ── counting ──

  lemma {:induction false} RunningUpdate(hs: seq<Handler>, h: nat, p: Handler)
    requires h < |hs|
    ensures Running(hs[h := p]) == Running(hs) - (if Counted(hs[h]) then 1 else 0) + (if Counted(p) then 1 else 0)
  {
    if h == 0 {
      assert hs[0 := p][1..] == hs[1..];
    } else {
      assert hs[h := p][1..] == hs[1..][h - 1 := p];
      RunningUpdate(hs[1..], h - 1, p);
    }
  }

  lemma {:induction false} NobodyRuns(hs: seq<Handler>, h: nat)
    requires Running(hs) == 0 && h < |hs|
    ensures !Counted(hs[h])
  {
    if h > 0 { NobodyRuns(hs[1..], h - 1); }
  }

  lemma {:induction false} HoldersUpdate(slots: seq<Slot>, k: nat, sl: Slot, i: nat)
    requires k < |slots|
    ensures Holders(slots[k := sl], i) ==
            Holders(slots, i) - (if i in slots[k].share then 1 else 0) + (if i in sl.share then 1 else 0)
    ensures i in slots[k].share ==> Holders(slots, i) > 0
  {
    if k == 0 {
      assert slots[0 := sl][1..] == slots[1..];
    } else {
      assert slots[k := sl][1..] == slots[1..][k - 1 := sl];
      HoldersUpdate(slots[1..], k - 1, sl, i);
    }
  }

  /** A slot that keeps its share keeps every count. */
  lemma RefsKept(sigs: seq<Sig>, slots: seq<Slot>, k: nat, sl: Slot)
    requires RefsOk(sigs, slots) && k < |slots| && sl.share == slots[k].share
    ensures RefsOk(sigs, slots[k := sl])
  {
    forall i | 0 <= i < SIGNALS ensures Holders(slots[k := sl], i) == Holders(slots, i) {
      HoldersUpdate(slots, k, sl, i);
    }
  }

  // ── a slot changes ──

  /** Handlers do not notice a change that keeps the descriptor. */
  lemma HandlersKept(hs: seq<Handler>, slots: seq<Slot>, k: nat, sl: Slot)
    requires HandlersOk(hs, slots) && k < |slots|
    requires (sl.used && sl.wfd == slots[k].wfd) || !slots[k].used
             || forall h :: 0 <= h < |hs| && Loaded(hs[h]) ==> hs[h].k != k
    ensures HandlersOk(hs, slots[k := sl])
  {
    forall h | 0 <= h < |hs| ensures HandlerOk(hs[h], slots[k := sl]) {
      assert HandlerOk(hs[h], slots);
    }
  }

  lemma ReadableKept(slots: seq<Slot>, hs: seq<Handler>, k: nat, sl: Slot)
    requires Readable(slots, hs) && k < |slots|
    requires sl.pending == {} || sl.bytes > 0 || sl.drained || Writing(hs, k)
    ensures Readable(slots[k := sl], hs)
  {
  }

  /** The lock's holder changes its slot and moves on. */
  lemma SlotsKept(slots: seq<Slot>, owner: map<int, Owner>, lock: Lock, k: nat, sl: Slot, lock': Lock)
    requires SlotsOk(slots, owner, lock) && k < SLOTS && (lock.Free? || lock.k == k) && (lock'.Free? || lock'.k == k)
    requires SlotOk(sl, k, owner) && Phase(sl, k, lock')
    ensures SlotsOk(slots[k := sl], owner, lock')
  {
  }

  /** One of the release or install steps that keep the descriptor. */
  lemma HolderKeeps(s: State, k: nat, sl: Slot, lock': Lock)
    requires Inv(s) && k < SLOTS && LockOn(s.lock, k) && (lock'.Free? || LockOn(lock', k)) && !lock'.Closing?
    requires SlotOk(sl, k, s.owner) && Phase(sl, k, lock')
    requires var was := s.slots[k];
             sl.used && sl.wfd == was.wfd && sl.share == was.share && sl.pending == was.pending
             && sl.bytes == was.bytes && sl.drained == was.drained
    ensures Inv(SetSlot(s, k, sl).(lock := lock'))
  {
    SlotsKept(s.slots, s.owner, s.lock, k, sl, lock');
    HandlersKept(s.handlers, s.slots, k, sl);
    RefsKept(s.sigs, s.slots, k, sl);
    assert s.slots[k].pending != {} ==> s.slots[k].bytes > 0 || s.slots[k].drained || Writing(s.handlers, k);
    ReadableKept(s.slots, s.handlers, k, sl);
  }

  // ── a handler moves ──

  /** A handler that stays counted, or stays out, and leaves no byte unwritten. */
  lemma GoKeeps(s: State, h: nat, p: Handler)
    requires Inv(s) && h < |s.handlers| && HandlerOk(p, s.slots)
    requires s.lock.Closing? && Loaded(p) ==> p.k != s.lock.k
    requires s.handlers[h].AtWrite? ==> s.handlers[h].k < SLOTS && s.slots[s.handlers[h].k].bytes > 0
    ensures var t := Go(s, h, p).(count := s.count - (if Counted(s.handlers[h])
            then 1 else 0) + (if Counted(p) then 1 else 0));
            Inv(t)
  {
    RunningUpdate(s.handlers, h, p);
    var hs := s.handlers[h := p];
    forall j | 0 <= j < |hs| ensures HandlerOk(hs[j], s.slots) {
      assert HandlerOk(s.handlers[j], s.slots);
    }
    WritingMoves(s.slots, s.handlers, h, p);
  }

  lemma WritingMoves(slots: seq<Slot>, hs: seq<Handler>, h: nat, p: Handler)
    requires Readable(slots, hs) && h < |hs|
    requires hs[h].AtWrite? ==> hs[h].k < |slots| && slots[hs[h].k].bytes > 0
    ensures Readable(slots, hs[h := p])
  {
    forall k | 0 <= k < |slots|
        && slots[k].pending != {} ensures slots[k].bytes > 0 || slots[k].drained || Writing(hs[h := p], k) {
      if Writing(hs, k) {
        var j :| 0 <= j < |hs| && hs[j].AtWrite? && hs[j].k == k;
        if j != h { assert hs[h := p][j] == hs[j]; }
      }
    }
  }

  lemma LoadFdKeeps(s: State, h: nat)
    requires Shape(s) && Inv(s) && Enabled(s, LoadFd(h))
    ensures Inv(Next(s, LoadFd(h)))
  {
    var p := s.handlers[h];
    var sl := s.slots[p.k];
    assert SlotOk(sl, p.k, s.owner) && Phase(sl, p.k, s.lock);
    GoKeeps(s, h, if sl.fd < 0 then Scan(p.sig, p.k + 1) else AtPend(p.sig, p.k, sl.fd));
  }

  lemma SetBitKeeps(s: State, h: nat)
    requires Shape(s) && Inv(s) && Enabled(s, SetBit(h))
    ensures Inv(Next(s, SetBit(h)))
  {
    var p := s.handlers[h];
    assert HandlerOk(p, s.slots);
    GoKeeps(s, h, AtWrite(p.sig, p.k, p.fd));
    var t := Go(s, h, AtWrite(p.sig, p.k, p.fd));
    assert t.handlers[h].AtWrite?;
    var sl := s.slots[p.k].(pending := s.slots[p.k].pending + {p.sig});
    SameSlotKeeps(t, p.k, sl);
  }

  /** A change to pending, bytes or drained alone. */
  lemma SameSlotKeeps(s: State, k: nat, sl: Slot)
    requires Shape(s) && Inv(s) && k < SLOTS && s.slots[k].used
    requires sl == s.slots[k].(pending := sl.pending, bytes := sl.bytes, drained := sl.drained)
    requires sl.drained ==> !LockOn(s.lock, k)
    requires sl.pending == {} || sl.bytes > 0 || sl.drained || Writing(s.handlers, k)
    ensures Inv(SetSlot(s, k, sl))
  {
    assert SlotOk(s.slots[k], k, s.owner) && Phase(s.slots[k], k, s.lock);
    HandlersKept(s.handlers, s.slots, k, sl);
    RefsKept(s.sigs, s.slots, k, sl);
    ReadableKept(s.slots, s.handlers, k, sl);
  }

  /** The byte goes into the pipe of the slot the handler is at. */
  lemma ByteKeeps(s: State, h: nat)
    requires Shape(s) && Inv(s) && h < |s.handlers| && s.handlers[h].AtWrite?
    ensures var p, t := s.handlers[h], WriteTo(s, s.handlers[h].fd);
            Shape(t) && Inv(t) && t.handlers == s.handlers && p.k < SLOTS && t.slots[p.k].bytes > 0
  {
    var p := s.handlers[h];
    assert HandlerOk(p, s.slots) && SlotOk(s.slots[p.k], p.k, s.owner);
    SameSlotKeeps(s, p.k, s.slots[p.k].(bytes := s.slots[p.k].bytes + 1));
  }

  lemma WriteKeeps(s: State, h: nat, again: bool)
    requires Shape(s) && Inv(s) && Enabled(s, Write(h, again))
    ensures Inv(Next(s, Write(h, again)))
  {
    var p := s.handlers[h];
    if again {
      assert HandlerOk(p, s.slots) && SlotOk(s.slots[p.k], p.k, s.owner);
      GoKeeps(s, h, Scan(p.sig, p.k + 1));
    } else {
      ByteKeeps(s, h);
      GoKeeps(WriteTo(s, p.fd), h, Scan(p.sig, p.k + 1));
    }
  }

  lemma HandlerStepKeeps(s: State, a: Action)
    requires Shape(s) && Inv(s) && Enabled(s, a)
    requires a.Deliver? || a.CountIn? || a.LoadWants? || a.CountOut?
    ensures Inv(Next(s, a))
  {
    var p := s.handlers[a.h];
    match a
    case Deliver(h, sig) => GoKeeps(s, h, Entered(sig));
    case CountIn(h) => GoKeeps(s, h, Scan(p.sig, 0));
    case LoadWants(h) => GoKeeps(s, h, if p.sig in s.slots[p.k].wants then AtFd(p.sig, p.k) else Scan(p.sig, p.k + 1));
    case CountOut(h) => GoKeeps(s, h, Off);
  }

  // ── install ──

  lemma BeginInstallKeeps(s: State, k: nat, fd: int, wanted: set<nat>)
    requires Shape(s) && Inv(s) && Enabled(s, BeginInstall(k, fd, wanted))
    ensures Inv(Next(s, BeginInstall(k, fd, wanted)))
  {
    var sl := s.slots[k].(used := true, wfd := fd, bytes := 0, pending := {});
    var owner := s.owner[fd := Pipe(k)];
    assert SlotOk(s.slots[k], k, s.owner);
    assert SlotsOk(s.slots[k := sl], owner, Adding(k, wanted, 0)) by {
      var slots := s.slots[k := sl];
      forall j | 0 <= j < SLOTS ensures SlotOk(slots[j], j, owner) && Phase(slots[j], j, Adding(k, wanted, 0)) {
        assert SlotOk(s.slots[j], j, s.owner);
      }
    }
    HandlersKept(s.handlers, s.slots, k, sl);
    RefsKept(s.sigs, s.slots, k, sl);
    ReadableKept(s.slots, s.handlers, k, sl);
  }

  /** The counts after slot k took, or gave up, its share in signal i. */
  lemma RefsMove(sigs: seq<Sig>, slots: seq<Slot>, k: nat, sl: Slot, i: nat, g: Sig)
    requires RefsOk(sigs, slots) && k < |slots| && i < SIGNALS && (g.installed <==> g.refs > 0)
    requires forall j :: j != i ==> (j in sl.share <==> j in slots[k].share)
    requires g.refs == sigs[i].refs - (if i in slots[k].share then 1 else 0) + (if i in sl.share then 1 else 0)
    ensures RefsOk(sigs[i := g], slots[k := sl])
  {
    var slots', sigs' := slots[k := sl], sigs[i := g];
    forall j | 0 <= j < SIGNALS ensures sigs'[j].refs == Holders(slots', j) {
      HoldersUpdate(slots, k, sl, j);
    }
  }

  lemma ShareKeeps(s: State, k: nat, share: set<nat>, i: nat, g: Sig, lock': Lock)
    requires Shape(s) && Inv(s) && k < SLOTS && LockOn(s.lock, k) && LockOn(lock', k) && i < SIGNALS
    requires (lock'.Adding? && s.lock.Adding? && forall j :: j in share ==> j < lock'.i)
             || (s.lock.Dropping? && lock'.Dropping? && forall j :: j in share ==> j >= lock'.i)
    requires forall j :: j != i ==> (j in share <==> j in s.slots[k].share)
    requires g.installed <==> g.refs > 0
    requires g.refs == s.sigs[i].refs - (if i in s.slots[k].share then 1 else 0) + (if i in share then 1 else 0)
    ensures Inv(SetSlot(s, k, s.slots[k].(share := share)).(sigs := s.sigs[i := g], lock := lock'))
  {
    var sl := s.slots[k].(share := share);
    assert SlotOk(s.slots[k], k, s.owner) && Phase(s.slots[k], k, s.lock);
    SlotsKept(s.slots, s.owner, s.lock, k, sl, lock');
    HandlersKept(s.handlers, s.slots, k, sl);
    RefsMove(s.sigs, s.slots, k, sl, i, g);
    ReadableKept(s.slots, s.handlers, k, sl);
  }

  lemma AddKeeps(s: State, fails: bool)
    requires Shape(s) && Inv(s) && Enabled(s, AddOne(fails))
    ensures Inv(Next(s, AddOne(fails)))
  {
    var i, k, g := s.lock.i, s.lock.k, s.sigs[s.lock.i];
    var sl, lock' := s.slots[k], Adding(k, s.lock.wanted, i + 1);
    assert SlotOk(sl, k, s.owner) && Phase(sl, k, s.lock);
    if i !in s.lock.wanted || (!g.installed && Stopping(i) && g.disposition == Ignore) || !AddHandler(g, fails).1 {
      assert s.slots[k := sl] == s.slots;
      HolderKeeps(s, k, sl, lock');
    } else {
      ShareKeeps(s, k, sl.share + {i}, i, AddHandler(g, fails).0, lock');
    }
  }

  lemma PublishKeeps(s: State, a: Action)
    requires Shape(s) && Inv(s) && Enabled(s, a) && (a.StoreWants? || a.StoreFd?)
    ensures Inv(Next(s, a))
  {
    var k := s.lock.k;
    var sl := s.slots[k];
    assert SlotOk(sl, k, s.owner) && Phase(sl, k, s.lock);
    if a.StoreWants? { HolderKeeps(s, k, sl.(wants := sl.share), Publishing(k)); }
    else { HolderKeeps(s, k, sl.(fd := sl.wfd), Free); }
  }

  // ── release ──

  lemma BeginReleaseKeeps(s: State, k: nat)
    requires Shape(s) && Inv(s) && Enabled(s, BeginRelease(k))
    ensures Inv(Next(s, BeginRelease(k)))
  {
    assert SlotOk(s.slots[k], k, s.owner);
    SlotsKept(s.slots, s.owner, s.lock, k, s.slots[k], Unwanting(k));
    assert s.slots[k := s.slots[k]] == s.slots;
  }

  lemma UnpublishKeeps(s: State, a: Action)
    requires Shape(s) && Inv(s) && Enabled(s, a) && (a.ClearWants? || a.TakeFd?)
    ensures Inv(Next(s, a))
  {
    var k := s.lock.k;
    var sl := s.slots[k];
    assert SlotOk(sl, k, s.owner) && Phase(sl, k, s.lock);
    if a.ClearWants? { HolderKeeps(s, k, sl.(wants := {}), Unpublishing(k)); }
    else { HolderKeeps(s, k, sl.(fd := -1), Dropping(k, 0)); }
  }

  lemma DropKeeps(s: State)
    requires Shape(s) && Inv(s) && Enabled(s, DropOne)
    ensures Inv(Next(s, DropOne))
  {
    var i, k := s.lock.i, s.lock.k;
    var sl := s.slots[k];
    assert SlotOk(sl, k, s.owner) && Phase(sl, k, s.lock);
    assert s.slots[k := sl] == s.slots;
    if i >= SIGNALS {
      assert sl.share == {};
      HolderKeeps(s, k, sl, Waiting(k));
    } else if i !in sl.share {
      HolderKeeps(s, k, sl, Dropping(k, i + 1));
    } else {
      HoldersUpdate(s.slots, k, sl, i);
      ShareKeeps(s, k, sl.share - {i}, i, DropHandler(s.sigs[i]), Dropping(k, i + 1));
    }
  }

  /** Nobody counted in means nobody holds the descriptor; and nobody can get it any more. */
  lemma SeeNobodyKeeps(s: State)
    requires Shape(s) && Inv(s) && Enabled(s, SeeNobody)
    ensures Inv(Next(s, SeeNobody))
  {
    var k := s.lock.k;
    assert SlotOk(s.slots[k], k, s.owner) && Phase(s.slots[k], k, s.lock);
    SlotsKept(s.slots, s.owner, s.lock, k, s.slots[k], Closing(k));
    assert s.slots[k := s.slots[k]] == s.slots;
    forall h | 0 <= h < |s.handlers| ensures !Loaded(s.handlers[h]) { NobodyRuns(s.handlers, h); }
  }

  lemma CloseKeeps(s: State)
    requires Shape(s) && Inv(s) && Enabled(s, CloseFds)
    ensures Inv(Next(s, CloseFds))
  {
    var k := s.lock.k;
    var was := s.slots[k];
    var sl := was.(used := false, wfd := -1, bytes := 0, pending := {});
    var owner, slots := s.owner - {was.wfd}, s.slots[k := sl];
    assert SlotOk(was, k, s.owner) && Phase(was, k, s.lock);
    forall j | 0 <= j < SLOTS ensures SlotOk(slots[j], j, owner) && Phase(slots[j], j, Free) {
      assert SlotOk(s.slots[j], j, s.owner);
    }
    HandlersKept(s.handlers, s.slots, k, sl);
    RefsKept(s.sigs, s.slots, k, sl);
    ReadableKept(s.slots, s.handlers, k, sl);
  }

  // ── take, and everybody else ──

  lemma TakeKeeps(s: State, a: Action)
    requires Shape(s) && Inv(s) && Enabled(s, a) && (a.Drain? || a.TakeBits?)
    ensures Inv(Next(s, a))
  {
    var sl := s.slots[a.k];
    assert SlotOk(sl, a.k, s.owner) && Phase(sl, a.k, s.lock);
    SameSlotKeeps(s, a.k, if a.Drain? then sl.(bytes := 0, drained := true) else sl.(pending := {}, drained := false));
  }

  lemma OthersKeep(s: State, a: Action)
    requires Shape(s) && Inv(s) && Enabled(s, a) && (a.OpenOther? || a.CloseOther? || a.SetDisposition?)
    ensures Inv(Next(s, a))
  {
    var t := Next(s, a);
    forall k | 0 <= k < SLOTS ensures SlotOk(s.slots[k], k, t.owner) {
      assert SlotOk(s.slots[k], k, s.owner);
    }
  }

  lemma NextKeeps(s: State, a: Action)
    requires Shape(s) && Inv(s) && Enabled(s, a)
    ensures Inv(Next(s, a))
  {
    match a
    case LoadFd(h) => LoadFdKeeps(s, h);
    case SetBit(h) => SetBitKeeps(s, h);
    case Write(h, again) => WriteKeeps(s, h, again);
    case BeginInstall(k, fd, wanted) => BeginInstallKeeps(s, k, fd, wanted);
    case AddOne(fails) => AddKeeps(s, fails);
    case StoreWants => PublishKeeps(s, a);
    case StoreFd => PublishKeeps(s, a);
    case BeginRelease(k) => BeginReleaseKeeps(s, k);
    case ClearWants => UnpublishKeeps(s, a);
    case TakeFd => UnpublishKeeps(s, a);
    case DropOne => DropKeeps(s);
    case SeeNobody => SeeNobodyKeeps(s);
    case CloseFds => CloseKeeps(s);
    case Drain(_) => TakeKeeps(s, a);
    case TakeBits(_) => TakeKeeps(s, a);
    case OpenOther(_) => OthersKeep(s, a);
    case CloseOther(_) => OthersKeep(s, a);
    case SetDisposition(_, _) => OthersKeep(s, a);
    case _ => HandlerStepKeeps(s, a);
  }

  lemma {:induction false} NoneAtFirst(s: State)
    requires Init(s)
    ensures Inv(s)
  {
    NobodyAtFirst(s.handlers);
    forall i | 0 <= i < SIGNALS ensures Holders(s.slots, i) == 0 { NoHolders(s.slots, i); }
  }

  lemma {:induction false} NobodyAtFirst(hs: seq<Handler>)
    requires forall h :: 0 <= h < |hs| ==> hs[h].Off?
    ensures Running(hs) == 0
  {
    if hs != [] { NobodyAtFirst(hs[1..]); }
  }

  lemma {:induction false} NoHolders(slots: seq<Slot>, i: nat)
    requires forall k :: 0 <= k < |slots| ==> slots[k].share == {}
    ensures Holders(slots, i) == 0
  {
    if slots != [] { NoHolders(slots[1..], i); }
  }

  lemma {:induction false} RunInv(run: seq<State>, actions: seq<Action>, n: nat)
    requires IsRun(run, actions) && n < |run|
    ensures Shape(run[n]) && Inv(run[n])
  {
    if n == 0 { NoneAtFirst(run[0]); }
    else {
      RunInv(run, actions, n - 1);
      NextKeeps(run[n - 1], actions[n - 1]);
    }
  }
}
