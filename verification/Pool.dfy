/** The job pool (`pool.hpp`): posters, workers, isolated jobs and shutdown callers, as a state machine with one step
  per lock-protected region, in any interleaving. */
module Pool {
  /** Where a job is. `Counted` is isolated and counted in, its thread not made yet; `Uncounting` and `Reposting` are
      the steps after the system refused that thread; `Over` has returned on its own thread, not yet counted out. */
  datatype Place = New | Counted | Uncounting | Reposting | Queued | Running | Over | Finished | Dropped

  /** `started` counts how often the body began; `asked` is its stop request; `registering` says that its poster has
      yet to hand over the stop source. */
  datatype Job = Job(place: Place, isolated: bool, started: nat, asked: bool, registering: bool)

  datatype Worker = Top | Runs(j: nat) | Leaving | Gone

  /** A caller of shutdown: `Returned` waited until everything was out; `GaveUp` passed its deadline, or came second
      without waiting. */
  datatype Caller = Outside | Waits(deadline: bool) | Returned | GaveUp

  datatype State = State(jobs: seq<Job>, queue: seq<nat>, workers: seq<Worker>, callers: seq<Caller>,
                         sources: set<nat>, isolatedRunning: int, exited: nat, toExit: nat, stopping: bool, max: nat)

  datatype Action =
    | Post(j: nat, spawn: bool) | PostIsolated(j: nat) | MakeThread(j: nat, refused: bool)
    | Uncount(j: nat) | Repost(j: nat, spawn: bool) | Register(j: nat, fails: bool)
    | Return(j: nat) | CountOut(j: nat)
    | Look(w: nat) | Finish(w: nat) | Leave(w: nat)
    | Shutdown(c: nat, rewait: bool, deadline: bool) | SeeAllOut(c: nat) | Expire(c: nat)

  predicate At(s: State, j: nat, p: Place) { j < |s.jobs| && s.jobs[j].place == p }

  predicate Enabled(s: State, a: Action) {
    match a
    case Post(j, spawn) => At(s, j, New) && !s.jobs[j].isolated && (spawn ==> |s.workers| < s.max)
    case PostIsolated(j) => At(s, j, New) && s.jobs[j].isolated
    case MakeThread(j, _) => At(s, j, Counted)
    case Uncount(j) => At(s, j, Uncounting)
    case Repost(j, spawn) => At(s, j, Reposting) && (spawn ==> |s.workers| < s.max)
    case Register(j, _) => j < |s.jobs| && s.jobs[j].registering
    case Return(j) => At(s, j, Running) && s.jobs[j].isolated
    case CountOut(j) => At(s, j, Over)
    case Look(w) => w < |s.workers| && s.workers[w].Top? && (s.stopping || (s.queue != [] && s.queue[0] < |s.jobs|))
    case Finish(w) => w < |s.workers| && s.workers[w].Runs? && s.workers[w].j < |s.jobs|
    case Leave(w) => w < |s.workers| && s.workers[w].Leaving?
    case Shutdown(c, _, _) => c < |s.callers| && s.callers[c].Outside?
    case SeeAllOut(c) => c < |s.callers| && s.callers[c].Waits? && s.exited >= s.toExit && s.isolatedRunning == 0
    case Expire(c) => c < |s.callers| && s.callers[c].Waits? && s.callers[c].deadline
  }

  function Put(s: State, j: nat, job: Job): State
    requires j < |s.jobs|
  { s.(jobs := s.jobs[j := job]) }

  /** post_job() */
  function DoPost(s: State, j: nat, spawn: bool): State
    requires j < |s.jobs|
  {
    if s.stopping then Put(s, j, s.jobs[j].(place := Dropped))
    else
      Put(s, j, s.jobs[j].(place := Queued, isolated := false))
        .(queue := s.queue + [j], workers := if spawn then s.workers + [Top] else s.workers)
  }

  /** Each job after the queue was dropped and the known isolated jobs were asked to stop. */
  function Cut(jobs: seq<Job>, sources: set<nat>): (r: seq<Job>)
    ensures |r| == |jobs|
  {
    seq(|jobs|, j requires 0 <= j < |jobs| =>
      jobs[j].(place := if jobs[j].place.Queued? then Dropped else jobs[j].place, asked := jobs[j].asked
          || j in sources))
  }

  /** The locked region at the start of shutdown. */
  function DoShutdown(s: State, c: nat, rewait: bool, deadline: bool): State
    requires c < |s.callers|
  {
    if s.stopping then s.(callers := s.callers[c := if rewait then Waits(deadline) else GaveUp])
    else s.(stopping := true, jobs := Cut(s.jobs, s.sources), queue := [], sources := {}, toExit := |s.workers|,
            callers := s.callers[c := Waits(deadline)])
  }

  function Next(s: State, a: Action): State
    requires Enabled(s, a)
  {
    match a
    case Post(j, spawn) => DoPost(s, j, spawn)
    case PostIsolated(j) =>
      if s.stopping then Put(s, j, s.jobs[j].(place := Dropped))
      else Put(s, j, s.jobs[j].(place := Counted)).(isolatedRunning := s.isolatedRunning + 1)
    case MakeThread(j, refused) =>
      if refused then Put(s, j, s.jobs[j].(place := Uncounting))
      else Put(s, j, s.jobs[j].(place := Running, started := s.jobs[j].started + 1, registering := true))
    case Uncount(j) => Put(s, j, s.jobs[j].(place := Reposting)).(isolatedRunning := s.isolatedRunning - 1)
    case Repost(j, spawn) => DoPost(s, j, spawn)
    case Register(j, fails) =>
      if s.stopping || fails then Put(s, j, s.jobs[j].(asked := true, registering := false))
      else Put(s, j, s.jobs[j].(registering := false)).(sources := s.sources + {j})
    case Return(j) => Put(s, j, s.jobs[j].(place := Over))
    case CountOut(j) => Put(s, j, s.jobs[j].(place := Finished)).(isolatedRunning := s.isolatedRunning - 1)
    case Look(w) =>
      if s.stopping then s.(workers := s.workers[w := Leaving])
      else
        var j := s.queue[0];
        Put(s, j, s.jobs[j].(place := Running, started := s.jobs[j].started + 1))
          .(queue := s.queue[1..], workers := s.workers[w := Runs(j)])
    case Finish(w) =>
      var j := s.workers[w].j;
      Put(s, j, s.jobs[j].(place := Finished)).(workers := s.workers[w := Top])
    case Leave(w) => s.(workers := s.workers[w := Gone], exited := s.exited + 1)
    case Shutdown(c, rewait, deadline) => DoShutdown(s, c, rewait, deadline)
    case SeeAllOut(c) => s.(callers := s.callers[c := Returned])
    case Expire(c) => s.(callers := s.callers[c := GaveUp])
  }

  predicate Untouched(job: Job) { job.place.New? && job.started == 0 && !job.asked && !job.registering }

  predicate Init(s: State) {
    && (forall j :: 0 <= j < |s.jobs| ==> Untouched(s.jobs[j]))
    && s.queue == [] && s.workers == [] && s.sources == {} && s.isolatedRunning == 0 && s.exited == 0 && s.toExit == 0
    && !s.stopping && forall c :: 0 <= c < |s.callers| ==> s.callers[c].Outside?
  }

  predicate IsRun(run: seq<State>, actions: seq<Action>) {
    && |run| == |actions| + 1 && Init(run[0])
    && forall i :: 0 <= i < |actions| ==> Enabled(run[i], actions[i]) && run[i + 1] == Next(run[i], actions[i])
  }

  // ── the invariant, by component ──

  /** Counted in isolated_running. */
  predicate Holds(job: Job) {
    job.place.Counted? || job.place.Uncounting? || job.place.Over? || (job.place.Running? && job.isolated)
  }

  function Holding(jobs: seq<Job>): nat {
    if jobs == [] then 0 else Holding(jobs[1..]) + if Holds(jobs[0]) then 1 else 0
  }

  function GoneCount(ws: seq<Worker>): nat {
    if ws == [] then 0 else GoneCount(ws[1..]) + if ws[0].Gone? then 1 else 0
  }

  /** The body has begun exactly once where it has begun at all. */
  predicate OnceOk(job: Job) {
    && job.started == (if job.place.Running? || job.place.Over? || job.place.Finished? then 1 else 0)
    && (job.place.Counted? || job.place.Uncounting? || job.place.Over? ==> job.isolated)
    && (job.place.Queued? ==> !job.isolated)
    && (job.registering ==> job.isolated && job.started == 1)
  }

  ghost predicate JobsOk(jobs: seq<Job>) { forall j :: 0 <= j < |jobs| ==> OnceOk(jobs[j]) }

  /** An isolated job that runs has been asked to stop, or its stop source is on the list, or its poster is about to
      see to it. */
  ghost predicate AskedOk(jobs: seq<Job>, sources: set<nat>) {
    forall j :: 0 <= j < |jobs| && jobs[j].place.Running? && jobs[j].isolated ==>
      jobs[j].asked || jobs[j].registering || j in sources
  }

  /** The queue holds exactly the queued jobs, each once. */
  ghost predicate QueueOk(jobs: seq<Job>, queue: seq<nat>) {
    && (forall i :: 0 <= i < |queue| ==> queue[i] < |jobs| && jobs[queue[i]].place.Queued?)
    && (forall i, k :: 0 <= i < k < |queue| ==> queue[i] != queue[k])
    && (forall j :: 0 <= j < |jobs| && jobs[j].place.Queued? ==> j in queue)
  }

  /** Workers run the running pool jobs, one each. */
  ghost predicate WorkersOk(jobs: seq<Job>, ws: seq<Worker>) {
    && (forall w :: 0 <= w < |ws| && ws[w].Runs? ==>
          ws[w].j < |jobs| && jobs[ws[w].j].place.Running? && !jobs[ws[w].j].isolated)
    && (forall w, v :: 0 <= w < v < |ws| && ws[w].Runs? && ws[v].Runs? ==> ws[w].j != ws[v].j)
    && (forall j :: 0 <= j < |jobs| && jobs[j].place.Running? && !jobs[j].isolated ==> Runs(j) in ws)
  }

  ghost predicate StoppingOk(s: State) {
    if s.stopping then s.queue == [] && s.sources == {} && s.toExit == |s.workers|
    else (forall w :: 0 <= w < |s.workers| ==> !s.workers[w].Gone? && !s.workers[w].Leaving?)
         && (forall c :: 0 <= c < |s.callers| ==> s.callers[c].Outside?)
         && (forall j :: 0 <= j < |s.jobs| ==> !s.jobs[j].place.Dropped?)
  }

  /** A caller that returned saw everybody out, and nobody can come in any more. */
  ghost predicate Calm(s: State) {
    Returned in s.callers ==> s.stopping && s.isolatedRunning == 0 && s.exited >= |s.workers|
  }

  ghost predicate Inv(s: State) {
    && JobsOk(s.jobs) && AskedOk(s.jobs, s.sources) && QueueOk(s.jobs, s.queue) && WorkersOk(s.jobs, s.workers)
    && s.isolatedRunning == Holding(s.jobs) && s.exited == GoneCount(s.workers) && StoppingOk(s) && Calm(s)
  }

  // ── counting ──

  lemma {:induction false} HoldingUpdate(jobs: seq<Job>, j: nat, job: Job)
    requires j < |jobs|
    ensures Holding(jobs[j := job]) == Holding(jobs) - (if Holds(jobs[j]) then 1 else 0) + (if Holds(job) then 1 else 0)
  {
    if j == 0 {
      assert jobs[0 := job][1..] == jobs[1..];
    } else {
      assert jobs[j := job][1..] == jobs[1..][j - 1 := job];
      HoldingUpdate(jobs[1..], j - 1, job);
    }
  }

  lemma {:induction false} NobodyHolds(jobs: seq<Job>, j: nat)
    requires Holding(jobs) == 0 && j < |jobs|
    ensures !Holds(jobs[j])
  {
    if j > 0 { NobodyHolds(jobs[1..], j - 1); }
  }

  lemma {:induction false} HoldingCut(jobs: seq<Job>, jobs': seq<Job>)
    requires |jobs| == |jobs'| && forall j :: 0 <= j < |jobs| ==> (Holds(jobs[j]) <==> Holds(jobs'[j]))
    ensures Holding(jobs) == Holding(jobs')
  {
    if jobs != [] { HoldingCut(jobs[1..], jobs'[1..]); }
  }

  lemma {:induction false} GoneUpdate(ws: seq<Worker>, w: nat, p: Worker)
    requires w < |ws|
    ensures GoneCount(ws[w := p]) == GoneCount(ws) - (if ws[w].Gone? then 1 else 0) + (if p.Gone? then 1 else 0)
    ensures GoneCount(ws) <= |ws|
  {
    GoneBound(ws);
    if w == 0 {
      assert ws[0 := p][1..] == ws[1..];
    } else {
      assert ws[w := p][1..] == ws[1..][w - 1 := p];
      GoneUpdate(ws[1..], w - 1, p);
    }
  }

  lemma {:induction false} GoneBound(ws: seq<Worker>)
    ensures GoneCount(ws) <= |ws|
    ensures GoneCount(ws) == |ws| ==> forall w :: 0 <= w < |ws| ==> ws[w].Gone?
  {
    if ws != [] { GoneBound(ws[1..]); }
  }

  lemma {:induction false} GoneMore(ws: seq<Worker>)
    ensures GoneCount(ws + [Top]) == GoneCount(ws)
  {
    if ws != [] {
      assert (ws + [Top])[1..] == ws[1..] + [Top];
      GoneMore(ws[1..]);
    }
  }

  // ── one job moves ──

  lemma QueueKept(jobs: seq<Job>, queue: seq<nat>, j: nat, job: Job)
    requires QueueOk(jobs, queue) && j < |jobs| && !jobs[j].place.Queued? && !job.place.Queued?
    ensures QueueOk(jobs[j := job], queue)
  {
  }

  lemma WorkersKept(jobs: seq<Job>, ws: seq<Worker>, j: nat, job: Job)
    requires WorkersOk(jobs, ws) && j < |jobs|
    requires !(jobs[j].place.Running? && !jobs[j].isolated) && !(job.place.Running? && !job.isolated)
    ensures WorkersOk(jobs[j := job], ws)
  {
  }

  lemma AskedKept(jobs: seq<Job>, sources: set<nat>, j: nat, job: Job, more: set<nat>)
    requires JobsOk(jobs) && AskedOk(jobs, sources) && j < |jobs| && OnceOk(job) && sources <= more
    requires job.place.Running? && job.isolated ==> job.asked || job.registering || j in more
    ensures JobsOk(jobs[j := job]) && AskedOk(jobs[j := job], more)
  {
  }

  /** A job moves between places that the queue and the workers do not know. */
  lemma MoveKeeps(s: State, j: nat, job: Job, running: int, sources: set<nat>)
    requires Inv(s) && j < |s.jobs| && !s.jobs[j].place.Queued? && !job.place.Queued? && OnceOk(job)
    requires !(s.jobs[j].place.Running? && !s.jobs[j].isolated) && !(job.place.Running? && !job.isolated)
    requires running == s.isolatedRunning - (if Holds(s.jobs[j]) then 1 else 0) + (if Holds(job) then 1 else 0)
    requires Returned in s.callers ==> running == 0
    requires s.sources <= sources && (s.stopping ==> sources == {}) && (job.place.Dropped? ==> s.stopping)
    requires job.place.Running? && job.isolated ==> job.asked || job.registering || j in sources
    ensures Inv(Put(s, j, job).(isolatedRunning := running, sources := sources))
  {
    HoldingUpdate(s.jobs, j, job);
    AskedKept(s.jobs, s.sources, j, job, sources);
    QueueKept(s.jobs, s.queue, j, job);
    WorkersKept(s.jobs, s.workers, j, job);
  }

  /** While a job is counted in, nobody who waited for everything has returned. */
  lemma NotReturned(s: State, j: nat)
    requires Inv(s) && j < |s.jobs| && Holds(s.jobs[j])
    ensures Returned !in s.callers && OnceOk(s.jobs[j])
  {
    if Holding(s.jobs) == 0 { NobodyHolds(s.jobs, j); }
  }

  lemma PostIsolatedKeeps(s: State, j: nat)
    requires Inv(s) && Enabled(s, PostIsolated(j))
    ensures Inv(Next(s, PostIsolated(j)))
  {
    var job := s.jobs[j];
    assert OnceOk(job);
    if s.stopping { MoveKeeps(s, j, job.(place := Dropped), s.isolatedRunning, s.sources); }
    else { MoveKeeps(s, j, job.(place := Counted), s.isolatedRunning + 1, s.sources); }
  }

  lemma MakeThreadKeeps(s: State, j: nat, refused: bool)
    requires Inv(s) && Enabled(s, MakeThread(j, refused))
    ensures Inv(Next(s, MakeThread(j, refused)))
  {
    var job := s.jobs[j];
    NotReturned(s, j);
    if refused { MoveKeeps(s, j, job.(place := Uncounting), s.isolatedRunning, s.sources); }
    else {
      var run := job.(place := Running, started := job.started + 1, registering := true);
      MoveKeeps(s, j, run, s.isolatedRunning, s.sources);
    }
  }

  lemma RegisterKeeps(s: State, j: nat, fails: bool)
    requires Inv(s) && Enabled(s, Register(j, fails))
    ensures Inv(Next(s, Register(j, fails)))
  {
    var job := s.jobs[j];
    assert OnceOk(job);
    if s.stopping || fails { MoveKeeps(s, j, job.(asked := true, registering := false), s.isolatedRunning, s.sources); }
    else { MoveKeeps(s, j, job.(registering := false), s.isolatedRunning, s.sources + {j}); }
  }

  lemma EndKeeps(s: State, a: Action)
    requires Inv(s) && Enabled(s, a) && (a.Uncount? || a.Return? || a.CountOut?)
    ensures Inv(Next(s, a))
  {
    NotReturned(s, a.j);
    match a
    case Uncount(j) => MoveKeeps(s, j, s.jobs[j].(place := Reposting), s.isolatedRunning - 1, s.sources);
    case Return(j) => MoveKeeps(s, j, s.jobs[j].(place := Over), s.isolatedRunning, s.sources);
    case CountOut(j) => MoveKeeps(s, j, s.jobs[j].(place := Finished), s.isolatedRunning - 1, s.sources);
  }

  // ── the queue and the workers ──

  lemma Enqueued(jobs: seq<Job>, queue: seq<nat>, j: nat, job: Job)
    requires QueueOk(jobs, queue) && j < |jobs| && !jobs[j].place.Queued? && job.place.Queued?
    ensures QueueOk(jobs[j := job], queue + [j])
  {
    var q := queue + [j];
    forall k | 0 <= k < |jobs| && jobs[j := job][k].place.Queued? ensures k in q {
      if k == j { assert q[|queue|] == j; } else { assert k in queue; }
    }
  }

  lemma Dequeued(jobs: seq<Job>, queue: seq<nat>, job: Job)
    requires QueueOk(jobs, queue) && queue != [] && queue[0] < |jobs| && !job.place.Queued?
    ensures QueueOk(jobs[queue[0] := job], queue[1..])
  {
  }

  lemma WorkerMore(jobs: seq<Job>, ws: seq<Worker>)
    requires WorkersOk(jobs, ws)
    ensures WorkersOk(jobs, ws + [Top])
  {
  }

  /** A worker takes a job that no worker has. */
  lemma WorkerTakes(jobs: seq<Job>, ws: seq<Worker>, w: nat, j: nat, job: Job)
    requires WorkersOk(jobs, ws) && w < |ws| && ws[w].Top? && j < |jobs| && !jobs[j].place.Running?
    requires job.place.Running? && !job.isolated
    ensures WorkersOk(jobs[j := job], ws[w := Runs(j)])
  {
    var js, vs := jobs[j := job], ws[w := Runs(j)];
    forall k | 0 <= k < |js| && js[k].place.Running? && !js[k].isolated ensures Runs(k) in vs {
      if k == j {
        assert vs[w] == Runs(j);
      } else {
        var v :| 0 <= v < |ws| && ws[v] == Runs(k);
        assert vs[v] == Runs(k);
      }
    }
  }

  lemma WorkerFinishes(jobs: seq<Job>, ws: seq<Worker>, w: nat, job: Job)
    requires WorkersOk(jobs, ws) && w < |ws| && ws[w].Runs? && ws[w].j < |jobs| && !job.place.Running?
    ensures WorkersOk(jobs[ws[w].j := job], ws[w := Top])
  {
    var j := ws[w].j;
    var js, vs := jobs[j := job], ws[w := Top];
    forall k | 0 <= k < |js| && js[k].place.Running? && !js[k].isolated ensures Runs(k) in vs {
      var v :| 0 <= v < |ws| && ws[v] == Runs(k);
      assert vs[v] == Runs(k);
    }
  }

  lemma WorkerMoves(jobs: seq<Job>, ws: seq<Worker>, w: nat, p: Worker)
    requires WorkersOk(jobs, ws) && w < |ws| && !ws[w].Runs? && !p.Runs?
    ensures WorkersOk(jobs, ws[w := p])
  {
    forall k | 0 <= k < |jobs| && jobs[k].place.Running? && !jobs[k].isolated ensures Runs(k) in ws[w := p] {
      var v :| 0 <= v < |ws| && ws[v] == Runs(k);
      assert ws[w := p][v] == Runs(k);
    }
  }

  lemma PostKeeps(s: State, j: nat, spawn: bool)
    requires Inv(s) && j < |s.jobs| && s.jobs[j].place in {New, Reposting}
    ensures Inv(DoPost(s, j, spawn))
  {
    var job := s.jobs[j];
    assert OnceOk(job);
    if s.stopping {
      MoveKeeps(s, j, job.(place := Dropped), s.isolatedRunning, s.sources);
    } else {
      var job' := job.(place := Queued, isolated := false);
      HoldingUpdate(s.jobs, j, job');
      AskedKept(s.jobs, s.sources, j, job', s.sources);
      Enqueued(s.jobs, s.queue, j, job');
      WorkersKept(s.jobs, s.workers, j, job');
      WorkerMore(s.jobs[j := job'], s.workers);
      GoneMore(s.workers);
    }
  }

  lemma TakeKeeps(s: State, w: nat)
    requires Inv(s) && Enabled(s, Look(w)) && !s.stopping
    ensures Inv(Next(s, Look(w)))
  {
    var j := s.queue[0];
    var job := s.jobs[j];
    assert OnceOk(job);
    var job' := job.(place := Running, started := job.started + 1);
    HoldingUpdate(s.jobs, j, job');
    AskedKept(s.jobs, s.sources, j, job', s.sources);
    Dequeued(s.jobs, s.queue, job');
    WorkerTakes(s.jobs, s.workers, w, j, job');
    GoneUpdate(s.workers, w, Runs(j));
  }

  lemma FinishKeeps(s: State, w: nat)
    requires Inv(s) && Enabled(s, Finish(w))
    ensures Inv(Next(s, Finish(w)))
  {
    var j := s.workers[w].j;
    var job := s.jobs[j];
    assert OnceOk(job);
    var job' := job.(place := Finished);
    HoldingUpdate(s.jobs, j, job');
    AskedKept(s.jobs, s.sources, j, job', s.sources);
    QueueKept(s.jobs, s.queue, j, job');
    WorkerFinishes(s.jobs, s.workers, w, job');
    GoneUpdate(s.workers, w, Top);
  }

  lemma GoKeeps(s: State, w: nat, p: Worker)
    requires Inv(s) && s.stopping && w < |s.workers| && !s.workers[w].Runs? && !s.workers[w].Gone? && !p.Runs?
    ensures Inv(s.(workers := s.workers[w := p], exited := s.exited + if p.Gone? then 1 else 0))
  {
    WorkerMoves(s.jobs, s.workers, w, p);
    GoneUpdate(s.workers, w, p);
  }

  // ── shutdown ──

  lemma CutKeeps(jobs: seq<Job>, queue: seq<nat>, ws: seq<Worker>, sources: set<nat>)
    requires JobsOk(jobs) && AskedOk(jobs, sources) && QueueOk(jobs, queue) && WorkersOk(jobs, ws)
    ensures var js := Cut(jobs, sources);
            JobsOk(js) && AskedOk(js, {}) && QueueOk(js, []) && WorkersOk(js, ws) && Holding(js) == Holding(jobs)
  {
    HoldingCut(jobs, Cut(jobs, sources));
  }

  lemma CallerKeeps(s: State, c: nat, p: Caller)
    requires Inv(s) && c < |s.callers| && s.stopping
    requires p.Returned? ==> s.isolatedRunning == 0 && s.exited >= s.toExit
    ensures Inv(s.(callers := s.callers[c := p]))
  {
    if !p.Returned? && Returned in s.callers[c := p] {
      var d :| 0 <= d < |s.callers| && s.callers[c := p][d] == Returned;
      assert s.callers[d] == Returned;
    }
  }

  lemma ShutdownKeeps(s: State, c: nat, rewait: bool, deadline: bool)
    requires Inv(s) && c < |s.callers|
    ensures Inv(DoShutdown(s, c, rewait, deadline))
  {
    if s.stopping {
      CallerKeeps(s, c, if rewait then Waits(deadline) else GaveUp);
    } else {
      CutKeeps(s.jobs, s.queue, s.workers, s.sources);
      assert Returned !in s.callers[c := Waits(deadline)];
    }
  }

  lemma NextKeeps(s: State, a: Action)
    requires Inv(s) && Enabled(s, a)
    ensures Inv(Next(s, a))
  {
    match a
    case Post(j, spawn) => PostKeeps(s, j, spawn);
    case Repost(j, spawn) => PostKeeps(s, j, spawn);
    case Look(w) => if s.stopping { GoKeeps(s, w, Leaving); } else { TakeKeeps(s, w); }
    case Finish(w) => FinishKeeps(s, w);
    case Leave(w) => GoKeeps(s, w, Gone);
    case Shutdown(c, rewait, deadline) => ShutdownKeeps(s, c, rewait, deadline);
    case SeeAllOut(c) => CallerKeeps(s, c, Returned);
    case Expire(c) => CallerKeeps(s, c, GaveUp);
    case PostIsolated(j) => PostIsolatedKeeps(s, j);
    case MakeThread(j, refused) => MakeThreadKeeps(s, j, refused);
    case Register(j, fails) => RegisterKeeps(s, j, fails);
    case _ => EndKeeps(s, a);
  }

  lemma {:induction false} NoneHolds(jobs: seq<Job>)
    requires forall j :: 0 <= j < |jobs| ==> !Holds(jobs[j])
    ensures Holding(jobs) == 0
  {
    if jobs != [] { NoneHolds(jobs[1..]); }
  }

  lemma {:induction false} RunInv(run: seq<State>, actions: seq<Action>, n: nat)
    requires IsRun(run, actions) && n < |run|
    ensures Inv(run[n])
  {
    if n == 0 { NoneHolds(run[0].jobs); }
    else {
      RunInv(run, actions, n - 1);
      NextKeeps(run[n - 1], actions[n - 1]);
    }
  }

  // ── what it is for ──

  /** In every run, every job's body begins at most once; a job that has not begun is with its poster, or queued in
      exactly one place, or was dropped, and dropped only once the pool was stopping. */
  lemma RunsAtMostOnce(run: seq<State>, actions: seq<Action>, n: nat, j: nat)
    requires IsRun(run, actions) && n < |run| && j < |run[n].jobs|
    ensures var s, job := run[n], run[n].jobs[j];
            && job.started <= 1
            && (job.started == 0 <==> job.place in {New, Counted, Uncounting, Reposting, Queued, Dropped})
            && (job.place.Queued? <==> j in s.queue) && multiset(s.queue)[j] <= 1
            && (job.place.Dropped? ==> s.stopping)
  {
    RunInv(run, actions, n);
    assert OnceOk(run[n].jobs[j]);
    OnceInQueue(run[n].queue, j);
  }

  lemma {:induction false} OnceInQueue(q: seq<nat>, j: nat)
    requires forall i, k :: 0 <= i < k < |q| ==> q[i] != q[k]
    ensures multiset(q)[j] <= 1
  {
    if q != [] {
      assert q == [q[0]] + q[1..];
      OnceInQueue(q[1..], j);
      if q[0] == j { assert j !in q[1..]; }
    }
  }

  /** The job is not running, nor on its way there. */
  predicate Still(job: Job) {
    !job.place.Running? && !job.place.Over? && !job.place.Counted? && !job.place.Uncounting? && !job.place.Queued?
  }

  /** Nothing runs, and nothing that could start is left. */
  lemma CalmIsStill(s: State, j: nat)
    requires Inv(s) && Returned in s.callers && j < |s.jobs|
    ensures Still(s.jobs[j])
  {
    GoneBound(s.workers);
    NobodyHolds(s.jobs, j);
  }

  lemma CalmStep(s: State, a: Action, j: nat)
    requires Inv(s) && Returned in s.callers && Enabled(s, a) && j < |s.jobs|
    ensures Returned in Next(s, a).callers && |Next(s, a).jobs| == |s.jobs|
    ensures Next(s, a).jobs[j].started == s.jobs[j].started
  {
    CalmIsStill(s, j);
    GoneBound(s.workers);
    var c :| 0 <= c < |s.callers| && s.callers[c] == Returned;
    assert Next(s, a).callers[c] == Returned;
  }

  /** One step of a run after a caller returned. */
  lemma CalmAt(run: seq<State>, actions: seq<Action>, m: nat, j: nat)
    requires IsRun(run, actions) && m < |actions| && Returned in run[m].callers && j < |run[m].jobs|
    ensures Returned in run[m + 1].callers && j < |run[m + 1].jobs|
    ensures run[m + 1].jobs[j].started == run[m].jobs[j].started
  {
    RunInv(run, actions, m);
    CalmStep(run[m], actions[m], j);
  }

  lemma {:induction false} CalmStays(run: seq<State>, actions: seq<Action>, n: nat, m: nat, j: nat)
    requires IsRun(run, actions) && n <= m < |run| && Returned in run[n].callers && j < |run[n].jobs|
    ensures Returned in run[m].callers && j < |run[m].jobs| && run[m].jobs[j].started == run[n].jobs[j].started
    decreases m - n
  {
    if n < m {
      CalmAt(run, actions, n, j);
      CalmStays(run, actions, n + 1, m, j);
    }
  }

  /** When a call that waits for everything has returned, the first or a repeated one, no job is running and none ever
      begins again. */
  lemma ShutdownIsFinal(run: seq<State>, actions: seq<Action>, n: nat, m: nat, j: nat)
    requires IsRun(run, actions) && n <= m < |run| && Returned in run[n].callers && j < |run[n].jobs|
    ensures j < |run[m].jobs| && Still(run[m].jobs[j]) && run[m].jobs[j].started == run[n].jobs[j].started
  {
    CalmStays(run, actions, n, m, j);
    RunInv(run, actions, m);
    CalmIsStill(run[m], j);
  }

  /** Once the pool is stopping, every isolated job still running has been asked to stop or its poster will ask it. */
  lemma IsolatedIsAsked(run: seq<State>, actions: seq<Action>, n: nat, j: nat)
    requires IsRun(run, actions) && n < |run| && j < |run[n].jobs| && run[n].stopping
    requires run[n].jobs[j].place.Running? && run[n].jobs[j].isolated
    ensures run[n].jobs[j].asked || run[n].jobs[j].registering
    ensures run[n].jobs[j].registering ==>
              Enabled(run[n], Register(j, false)) && Next(run[n], Register(j, false)).jobs[j].asked
  {
    RunInv(run, actions, n);
  }
}
