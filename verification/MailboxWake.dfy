/** The wake and close handshake between any number of senders and the loop (`mailbox.hpp`, `run.hpp`), as a state
  machine: one step per lock-protected region or atomic operation, in any interleaving. */
module MailboxWake {
  import opened Messages

  /** Where a sender is. `Entering` has counted itself into waking_ and let go of the lock; `Inside` is in wake_();
      `Leaving` has rung and not yet counted itself out. `Waiting` sleeps on room_, `Notified` is to look again. */
  datatype Sender = Idle | Entering | Inside | Leaving | Waiting | Notified

  /** Where the loop is: at the top of a step, before the drain's own look at the hint, before the drain's lock,
      before notifying the blocked senders, past the drain, asleep; and in close(): before its notify, spinning on
      waking_, returned. */
  datatype Loop = Top | AtHint | AtLock | AtNotify | Past | Asleep | CloseNotify | Spinning | Returned

  datatype State = State(
    capacity: nat, policy: Policy,
    queued: nat, hint: bool, closed: bool, waking: int,
    flag: bool,                       // the reactor's wake, consumed by wait()
    senders: seq<Sender>, loop: Loop)

  predicate Full(s: State) { s.capacity != 0 && s.queued >= s.capacity }

  /** The sender has counted itself in. */
  predicate In(p: Sender) { p.Entering? || p.Inside? || p.Leaving? }

  /** The sender has counted itself in and has not rung yet. */
  predicate WillRing(p: Sender) { p.Entering? || p.Inside? }

  function InWake(ps: seq<Sender>): nat {
    if ps == [] then 0 else InWake(ps[1..]) + if In(ps[0]) then 1 else 0
  }

  datatype Action =
    | Post(i: nat)                    // post_from() up to the unlock, blocking allowed or not
    | PostRefusing(i: nat)            // the same where blocking is refused
    | Look(i: nat)                    // a notified sender takes the lock and re-checks
    | LookRetired(i: nat)             // the same, its origin retired meanwhile: refused once there is room
    | Wakeup(i: nat)                  // retire()'s notify, or a spurious wake-up
    | WakeIfOpen(i: nat)
    | Enter(i: nat) | Ring(i: nat) | CountOut(i: nat)
    | Peek(other: bool)               // the step's idle check; `other` is work elsewhere
    | ReadHint | Drain | Notify
    | Sleep | Wait(consumed: bool)    // wait() returns, having consumed the flag or not
    | Close | NotifyClosed | Spin

  predicate Acts(s: State, i: nat, p: Sender) { i < |s.senders| && s.senders[i] == p }

  predicate Enabled(s: State, a: Action) {
    match a
    case Post(i) => Acts(s, i, Idle)
    case PostRefusing(i) => Acts(s, i, Idle)
    case Look(i) => Acts(s, i, Notified)
    case LookRetired(i) => Acts(s, i, Notified) && (s.closed || !Full(s))
    case Wakeup(i) => Acts(s, i, Waiting)
    case WakeIfOpen(i) => Acts(s, i, Idle)
    case Enter(i) => Acts(s, i, Entering)
    case Ring(i) => Acts(s, i, Inside)
    case CountOut(i) => Acts(s, i, Leaving)
    case Peek(_) => s.loop.Top?
    case ReadHint => s.loop.AtHint?
    case Drain => s.loop.AtLock?
    case Notify => s.loop.AtNotify?
    case Sleep => s.loop.Past?
    case Wait(_) => s.loop.Asleep?
    case Close => s.loop in {Top, Past}
    case NotifyClosed => s.loop.CloseNotify?
    case Spin => s.loop.Spinning? && s.waking == 0
  }

  function To(s: State, i: nat, p: Sender): State
    requires i < |s.senders|
  { s.(senders := s.senders[i := p]) }

  /** Count in under the lock. */
  function CountIn(s: State, i: nat): State
    requires i < |s.senders|
  { To(s, i, Entering).(waking := s.waking + 1) }

  /** The push, and the decision to wake: only on empty to non-empty. `room` is the live count before it. */
  function Push(s: State, i: nat, before: nat): State
    requires i < |s.senders|
  {
    var t := s.(queued := before + 1, hint := true);
    if before == 0 then CountIn(t, i) else To(t, i, Idle)
  }

  function DoPost(s: State, i: nat, mayBlock: bool): State
    requires i < |s.senders|
  {
    if s.closed then To(s, i, Idle)
    else if !Full(s) then Push(s, i, s.queued)
    else match s.policy
      case DropNewest => To(s, i, Idle)
      case DropOldest => Push(s, i, s.queued - 1)
      case Block => To(s, i, if mayBlock then Waiting else Idle)
  }

  /** notify_all() */
  function NotifyAll(ps: seq<Sender>): (r: seq<Sender>)
    ensures |r| == |ps|
  {
    seq(|ps|, i requires 0 <= i < |ps| => if ps[i].Waiting? then Notified else ps[i])
  }

  function Next(s: State, a: Action): State
    requires Enabled(s, a)
  {
    match a
    case Post(i) => DoPost(s, i, true)
    case PostRefusing(i) => DoPost(s, i, false)
    case Look(i) =>
      if s.closed then To(s, i, Idle)
      else if Full(s) then To(s, i, Waiting)
      else Push(s, i, s.queued)
    case LookRetired(i) => To(s, i, Idle)
    case Wakeup(i) => To(s, i, Notified)
    case WakeIfOpen(i) => if s.closed then s else CountIn(s, i)
    case Enter(i) => To(s, i, Inside)
    case Ring(i) => To(s, i, Leaving).(flag := true)
    case CountOut(i) => To(s, i, Idle).(waking := s.waking - 1)
    case Peek(other) => s.(loop := if s.hint || other then AtHint else Past)
    case ReadHint => s.(loop := if s.hint then AtLock else Past)
    case Drain => s.(queued := 0, hint := false, loop := if s.capacity != 0 && s.queued > 0 then AtNotify else Past)
    case Notify => s.(senders := NotifyAll(s.senders), loop := Past)
    case Sleep => s.(loop := Asleep)
    case Wait(consumed) => s.(flag := s.flag && !consumed, loop := Top)
    case Close => s.(closed := true, queued := 0, hint := false, loop := CloseNotify)
    case NotifyClosed => s.(senders := NotifyAll(s.senders), loop := Spinning)
    case Spin => s.(loop := Returned)
  }

  predicate Init(s: State) {
    && s.queued == 0 && !s.hint && !s.closed && s.waking == 0 && !s.flag && s.loop.Top?
    && forall i :: 0 <= i < |s.senders| ==> s.senders[i].Idle?
  }

  predicate IsRun(run: seq<State>, actions: seq<Action>) {
    && |run| == |actions| + 1 && Init(run[0])
    && forall i :: 0 <= i < |actions| ==> Enabled(run[i], actions[i]) && run[i + 1] == Next(run[i], actions[i])
  }

  // ── the invariant ──

  /** The loop has looked, or slept, since it last emptied the queue. */
  predicate Settled(l: Loop) { l.AtNotify? || l.Past? || l.Asleep? }

  ghost predicate Rung(flag: bool, ps: seq<Sender>) { flag || exists i :: 0 <= i < |ps| && WillRing(ps[i]) }

  ghost predicate NoneWaits(ps: seq<Sender>) { forall i :: 0 <= i < |ps| ==> !ps[i].Waiting? }

  /** A message the loop has not looked for is announced. */
  ghost predicate Announced(s: State) { Settled(s.loop) && s.queued > 0 ==> Rung(s.flag, s.senders) }

  /** A sender sleeps on room_ only while there is no room, or just before it is notified. */
  ghost predicate RoomOk(s: State) {
    NoneWaits(s.senders) || s.loop.AtNotify? || s.loop.CloseNotify? || (!s.closed && Full(s))
  }

  ghost predicate Inv(s: State) {
    && s.waking == InWake(s.senders)
    && (s.hint <==> s.queued > 0)
    && (s.capacity != 0 ==> s.queued <= s.capacity)
    && (s.closed <==> s.loop.CloseNotify? || s.loop.Spinning? || s.loop.Returned?)
    && (s.closed ==> s.queued == 0)
    && (s.loop.Returned? ==> s.waking == 0)
    && Announced(s) && RoomOk(s)
  }

  lemma {:induction false} InWakeUpdate(ps: seq<Sender>, i: nat, p: Sender)
    requires i < |ps|
    ensures InWake(ps[i := p]) == InWake(ps) - (if In(ps[i]) then 1 else 0) + (if In(p) then 1 else 0)
  {
    if i == 0 {
      assert ps[0 := p][1..] == ps[1..];
    } else {
      assert ps[i := p][1..] == ps[1..][i - 1 := p];
      InWakeUpdate(ps[1..], i - 1, p);
    }
  }

  lemma {:induction false} InWakeNotify(ps: seq<Sender>)
    ensures InWake(NotifyAll(ps)) == InWake(ps)
  {
    if ps != [] {
      assert NotifyAll(ps)[1..] == NotifyAll(ps[1..]);
      InWakeNotify(ps[1..]);
    }
  }

  lemma {:induction false} NobodyIn(ps: seq<Sender>)
    requires InWake(ps) == 0
    ensures forall i :: 0 <= i < |ps| ==> !In(ps[i])
  {
    if ps != [] {
      NobodyIn(ps[1..]);
      forall i | 0 <= i < |ps| ensures !In(ps[i]) {
        if i > 0 { assert ps[i] == ps[1..][i - 1]; }
      }
    }
  }

  /** Moving one sender that was not about to ring leaves the announcement standing. */
  lemma RungKept(flag: bool, ps: seq<Sender>, i: nat, p: Sender)
    requires i < |ps| && Rung(flag, ps) && (WillRing(ps[i]) ==> WillRing(p))
    ensures Rung(flag, ps[i := p])
  {
    if !flag {
      var j :| 0 <= j < |ps| && WillRing(ps[j]);
      assert WillRing(ps[i := p][j]);
    }
  }

  lemma PushKeeps(s: State, i: nat, before: nat)
    requires Inv(s) && !s.closed && i < |s.senders| && !In(s.senders[i]) && s.senders[i] != Waiting
    requires before == s.queued || (before == s.queued - 1 && s.policy == DropOldest)
    requires s.capacity != 0 ==> before < s.capacity
    ensures Inv(Push(s, i, before))
  {
    var t := Push(s, i, before);
    InWakeUpdate(s.senders, i, t.senders[i]);
    if Announced(s) && before > 0 && Rung(s.flag, s.senders) { RungKept(s.flag, s.senders, i, Idle); }
    if before == 0 { assert WillRing(t.senders[i]); }
    if NoneWaits(s.senders) { assert NoneWaits(t.senders); }
  }

  /** A sender that moves on without touching the queue. */
  lemma MoveKeeps(s: State, i: nat, p: Sender)
    requires Inv(s) && i < |s.senders| && (In(s.senders[i]) <==> In(p)) && (WillRing(s.senders[i]) ==> WillRing(p))
    requires p.Waiting? ==> !s.closed && Full(s)
    ensures Inv(To(s, i, p))
  {
    InWakeUpdate(s.senders, i, p);
    if Rung(s.flag, s.senders) { RungKept(s.flag, s.senders, i, p); }
    if NoneWaits(s.senders) && !p.Waiting? { assert NoneWaits(s.senders[i := p]); }
  }

  lemma CountInKeeps(s: State, i: nat)
    requires Inv(s) && !s.closed && Acts(s, i, Idle)
    ensures Inv(CountIn(s, i))
  {
    InWakeUpdate(s.senders, i, Entering);
    assert CountIn(s, i).senders[i].Entering?;
    if NoneWaits(s.senders) { assert NoneWaits(s.senders[i := Entering]); }
  }

  lemma RingKeeps(s: State, i: nat)
    requires Inv(s) && Acts(s, i, Inside)
    ensures Inv(Next(s, Ring(i)))
  {
    InWakeUpdate(s.senders, i, Leaving);
    if NoneWaits(s.senders) { assert NoneWaits(s.senders[i := Leaving]); }
  }

  lemma CountOutKeeps(s: State, i: nat)
    requires Inv(s) && Acts(s, i, Leaving)
    ensures Inv(Next(s, CountOut(i)))
  {
    InWakeUpdate(s.senders, i, Idle);
    if s.loop.Returned? { NobodyIn(s.senders); }
    if Rung(s.flag, s.senders) { RungKept(s.flag, s.senders, i, Idle); }
    if NoneWaits(s.senders) { assert NoneWaits(s.senders[i := Idle]); }
  }

  lemma NotifyKeeps(s: State, l: Loop)
    requires Inv(s) && ((s.loop.AtNotify? && l.Past?) || (s.loop.CloseNotify? && l.Spinning?))
    ensures Inv(s.(senders := NotifyAll(s.senders), loop := l))
  {
    InWakeNotify(s.senders);
    var ps := NotifyAll(s.senders);
    assert NoneWaits(ps);
    if Rung(s.flag, s.senders) && !s.flag {
      var j :| 0 <= j < |ps| && WillRing(s.senders[j]);
      assert WillRing(ps[j]);
    }
  }

  lemma PostKeeps(s: State, i: nat, mayBlock: bool)
    requires Inv(s) && Acts(s, i, Idle)
    ensures Inv(DoPost(s, i, mayBlock))
  {
    if s.closed { MoveKeeps(s, i, Idle); }
    else if !Full(s) { PushKeeps(s, i, s.queued); }
    else {
      match s.policy
      case DropNewest => MoveKeeps(s, i, Idle);
      case DropOldest => PushKeeps(s, i, s.queued - 1);
      case Block => MoveKeeps(s, i, if mayBlock then Waiting else Idle);
    }
  }

  lemma NextKeeps(s: State, a: Action)
    requires Inv(s) && Enabled(s, a)
    ensures Inv(Next(s, a))
  {
    match a
    case Post(i) => PostKeeps(s, i, true);
    case PostRefusing(i) => PostKeeps(s, i, false);
    case Look(i) =>
      if s.closed { MoveKeeps(s, i, Idle); }
      else if Full(s) { MoveKeeps(s, i, Waiting); }
      else { PushKeeps(s, i, s.queued); }
    case LookRetired(i) => MoveKeeps(s, i, Idle);
    case Wakeup(i) => MoveKeeps(s, i, Notified);
    case WakeIfOpen(i) => if !s.closed { CountInKeeps(s, i); }
    case Enter(i) => MoveKeeps(s, i, Inside);
    case Ring(i) => RingKeeps(s, i);
    case CountOut(i) => CountOutKeeps(s, i);
    case Notify => NotifyKeeps(s, Past);
    case NotifyClosed => NotifyKeeps(s, Spinning);
    case _ =>
  }

  lemma InitInv(s: State)
    requires Init(s)
    ensures Inv(s)
  {
    NobodyInIdle(s.senders);
  }

  lemma {:induction false} NobodyInIdle(ps: seq<Sender>)
    requires forall i :: 0 <= i < |ps| ==> ps[i].Idle?
    ensures InWake(ps) == 0
  {
    if ps != [] { NobodyInIdle(ps[1..]); }
  }

  lemma {:induction false} RunInv(run: seq<State>, actions: seq<Action>, n: nat)
    requires IsRun(run, actions) && n < |run|
    ensures Inv(run[n])
  {
    if n == 0 { InitInv(run[0]); }
    else {
      RunInv(run, actions, n - 1);
      NextKeeps(run[n - 1], actions[n - 1]);
    }
  }

  // ── what it is for ──

  /** Whenever the loop is about to sleep, or asleep, with a message queued, the reactor has been woken or some sender
      has counted itself in and still will; and the hint is never false while a message is queued. */
  lemma NoLostWake(run: seq<State>, actions: seq<Action>, n: nat)
    requires IsRun(run, actions) && n < |run|
    ensures !run[n].hint ==> run[n].queued == 0
    ensures (run[n].loop.Past? || run[n].loop.Asleep?) && run[n].queued > 0 ==> Rung(run[n].flag, run[n].senders)
  {
    RunInv(run, actions, n);
  }

  /** From there at most two steps of one sender wake the reactor. */
  lemma SleeperIsWoken(s: State) returns (actions: seq<Action>)
    requires Inv(s) && s.loop.Asleep? && s.queued > 0
    ensures |actions| <= 2 && CanDo(s, actions) && After(s, actions).flag
  {
    if s.flag { return []; }
    var i :| 0 <= i < |s.senders| && WillRing(s.senders[i]);
    if s.senders[i].Inside? {
      actions := [Ring(i)];
      RingWakes(s, i);
    } else {
      actions := [Enter(i), Ring(i)];
      RingWakes(Next(s, Enter(i)), i);
      assert actions[1..] == [Ring(i)];
    }
  }

  lemma RingWakes(s: State, i: nat)
    requires Acts(s, i, Inside)
    ensures CanDo(s, [Ring(i)]) && After(s, [Ring(i)]).flag
  {
    assert [Ring(i)][1..] == [];
    assert After(Next(s, Ring(i)), []).flag;
  }

  predicate CanDo(s: State, actions: seq<Action>)
    decreases |actions|
  {
    actions == [] || (Enabled(s, actions[0]) && CanDo(Next(s, actions[0]), actions[1..]))
  }

  function After(s: State, actions: seq<Action>): State
    requires CanDo(s, actions)
    decreases |actions|
  {
    if actions == [] then s else After(Next(s, actions[0]), actions[1..])
  }

  /** Once close() has returned, now and for the rest of the run: no sender is in wake_(), on its way into it or out
      of it, none sleeps on room_, and the queue stays empty. */
  lemma ClosedIsQuiet(run: seq<State>, actions: seq<Action>, n: nat, m: nat)
    requires IsRun(run, actions) && n <= m < |run| && run[n].loop.Returned?
    ensures run[m].loop.Returned? && run[m].closed && run[m].queued == 0
    ensures forall i :: 0 <= i < |run[m].senders| ==> !In(run[m].senders[i]) && !run[m].senders[i].Waiting?
  {
    ReturnedStays(run, actions, n, m);
    RunInv(run, actions, m);
    NobodyIn(run[m].senders);
  }

  lemma {:induction false} ReturnedStays(run: seq<State>, actions: seq<Action>, n: nat, m: nat)
    requires IsRun(run, actions) && n <= m < |run| && run[n].loop.Returned?
    ensures run[m].loop.Returned?
    decreases m
  {
    if n < m {
      ReturnedStays(run, actions, n, m - 1);
      ReturnedStep(run[m - 1], actions[m - 1]);
    }
  }

  lemma ReturnedStep(s: State, a: Action)
    requires Enabled(s, a) && s.loop.Returned?
    ensures Next(s, a).loop.Returned?
  {
  }

  /** A blocked sender is never forgotten: while one sleeps on room_ there is no room, or the loop is about to
      notify it. */
  lemma BlockedMeansFull(run: seq<State>, actions: seq<Action>, n: nat, i: nat)
    requires IsRun(run, actions) && n < |run| && i < |run[n].senders| && run[n].senders[i].Waiting?
    ensures (Full(run[n]) && !run[n].closed) || run[n].loop.AtNotify? || run[n].loop.CloseNotify?
  {
    RunInv(run, actions, n);
  }
}
