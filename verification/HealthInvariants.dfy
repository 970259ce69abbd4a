/**
 * What every step of the health monitor keeps. `RunOk` collects what holds of one run; `Inv`
 * what holds of the whole system.
 */
module HealthInvariants {
  import opened Options
  import opened HealthMonitor
  import opened HealthSystem

  // ----- Counting -------------------------------------------------------------------------

  /**
   * A job is Ahead of its first HealthCheck, or Between that one and its possible retry: Unjudged
   * until the worker has looked at the result, then Owing a retry if it failed.
   */
  datatype Stage = Ahead | Between | Unjudged | Owing

  predicate Holds(w: Worker, stage: Stage, job: Job) {
    && w.Busy() && w.job == job
    && match stage
       case Ahead => w.Guarding? || w.Cleared?
       case Between => w.Checking? || w.Judging? || w.Waiting? || w.Reguarding? || w.Recleared?
       case Unjudged => w.Checking? || w.Judging?
       case Owing => w.Waiting? || w.Reguarding? || w.Recleared?
  }

  function One(b: bool): nat {
    if b then 1 else 0
  }

  /** How many workers hold the job at the stage. */
  ghost function Holding(ws: seq<Worker>, stage: Stage, job: Job): nat {
    if ws == [] then 0 else One(Holds(ws[0], stage, job)) + Holding(ws[1..], stage, job)
  }

  lemma {:induction false} HoldingUpdate(ws: seq<Worker>, i: nat, w: Worker, stage: Stage, job: Job)
    requires i < |ws|
    ensures Holding(ws[i := w], stage, job) + One(Holds(ws[i], stage, job))
         == Holding(ws, stage, job) + One(Holds(w, stage, job))
  {
    if i == 0 {
      assert ws[0 := w][1..] == ws[1..];
    } else {
      assert ws[i := w][1..] == ws[1..][i - 1 := w];
      HoldingUpdate(ws[1..], i - 1, w, stage, job);
    }
  }

  lemma {:induction false} HoldingNone(ws: seq<Worker>, stage: Stage, job: Job)
    requires forall i | 0 <= i < |ws| :: !Holds(ws[i], stage, job)
    ensures Holding(ws, stage, job) == 0
  {
    if ws == [] {
    } else {
      HoldingNone(ws[1..], stage, job);
    }
  }

  /** How many times the job was launched, as a first check or as a retry. */
  ghost function Times(ls: seq<Launch>, job: Job, retry: bool): nat {
    if ls == [] then 0
    else Times(ls[..|ls| - 1], job, retry) + One(ls[|ls| - 1].job == job && ls[|ls| - 1].retry == retry)
  }

  lemma TimesAppend(ls: seq<Launch>, l: Launch, job: Job, retry: bool)
    ensures Times(ls + [l], job, retry) == Times(ls, job, retry) + One(l.job == job && l.retry == retry)
  {
    assert (ls + [l])[..|ls|] == ls;
  }

  lemma {:induction false} TimesNone(ls: seq<Launch>, job: Job, retry: bool)
    requires forall i | 0 <= i < |ls| :: ls[i].job != job
    ensures Times(ls, job, retry) == 0
  {
    if ls == [] {
    } else {
      TimesNone(ls[..|ls| - 1], job, retry);
    }
  }

  /** How often the provider stands in the snapshot published as the job's revision. */
  ghost function Occurrences(seen: seq<Snapshot>, job: Job): nat {
    if job.revision < |seen| then multiset(seen[job.revision].providers)[job.provider] else 0
  }

  /** First checks the loop still owes: the whole snapshot until the timer's guard, then the queue. */
  ghost function Owed(r: RunState, job: Job): nat {
    if job.revision != r.loop.pending.revision then 0
    else if r.loop.due.Some? || r.pc.Fired? then multiset(r.loop.pending.providers)[job.provider]
    else multiset(r.loop.queue)[job.provider]
  }

  // ----- One run --------------------------------------------------------------------------

  ghost predicate EnvOk(env: Env) {
    && env.seen != [] && env.seen[0] == Snapshot(0, false, [])
    && (forall v | 0 <= v < |env.seen| :: env.seen[v].revision == v)
    && env.latest == env.seen[|env.seen| - 1]
  }

  /** The loop's pending snapshot is a published one, and no wake-up is lost. */
  ghost predicate LoopOk(r: RunState, c: Channels, env: Env) {
    var l := r.loop;
    && l.pending.revision < |env.seen| && l.pending == env.seen[l.pending.revision]
    && (l.pending.revision == 0 || r.birth <= l.pending.revision)
    && 1 <= r.birth <= env.latest.revision
    && (l.due.Some? || r.pc.Fired? ==> l.queue == [] && l.pending.available)
    && (l.due.Some? ==> !r.pc.Fired?)
    && (env.live ==> !c.stopped && !r.pc.Left?)
    && (env.live ==> l.pending.revision == env.latest.revision || c.wake || r.pc.TokenTaken?)
  }

  ghost function HeldBy(ws: seq<Worker>): set<Provider> {
    set i | 0 <= i < |ws| && ws[i].Busy() :: ws[i].job.provider
  }

  /** A provider is in the hands of at most one worker, and a live loop knows which are. */
  ghost predicate Exclusive(r: RunState, env: Env) {
    && |r.workers| == WORKERS
    && (forall i, j | 0 <= i < j < WORKERS && r.workers[i].Busy() && r.workers[j].Busy() ::
          r.workers[i].job.provider != r.workers[j].job.provider)
    && HeldBy(r.workers) <= r.loop.inFlight
    && (env.live ==> r.loop.inFlight == HeldBy(r.workers))
    && (env.live ==> forall i | 0 <= i < WORKERS :: !r.workers[i].Quit?)
  }

  /** The job was picked up by this run at least the debounce delay before `at`. */
  ghost predicate Ripe(r: RunState, revision: nat, at: nat) {
    revision in r.picked && r.picked[revision] + DEBOUNCE_MILLIS <= at
  }

  ghost predicate WorkerTimely(r: RunState, w: Worker, now: nat) {
    && (w.Busy() ==> w.job.revision <= r.loop.pending.revision && Ripe(r, w.job.revision, now))
    && (w.Judging? ==> w.returned <= now)
    && (w.Waiting? ==> w.returned + RETRY_DELAY_MILLIS <= w.until)
    && (w.Reguarding? || w.Recleared? ==> w.returned + RETRY_DELAY_MILLIS <= now)
  }

  ghost predicate LaunchTimely(r: RunState, l: Launch, now: nat) {
    && l.worker < WORKERS && l.at <= now
    && l.job.revision <= r.loop.pending.revision
    && Ripe(r, l.job.revision, l.at)
    && (l.retry ==> l.returned + RETRY_DELAY_MILLIS <= l.at)
  }

  ghost predicate Timely(r: RunState, env: Env) {
    && (forall v | v in r.picked :: r.birth <= v <= r.loop.pending.revision)
    && (r.loop.due.Some? ==>
          r.loop.pending.revision in r.picked && r.loop.due.value
                  == r.picked[r.loop.pending.revision] + DEBOUNCE_MILLIS)
    && (r.pc.Fired? || r.loop.queue != [] ==> Ripe(r, r.loop.pending.revision, env.now))
    && (forall i | 0 <= i < |r.workers| :: WorkerTimely(r, r.workers[i], env.now))
    && (forall i | 0 <= i < |r.launches| :: LaunchTimely(r, r.launches[i], env.now))
  }

  /**
   * Conservation: first checks made, jobs ahead of theirs and checks owed never exceed the
   * snapshot, and make it up exactly while the revision is current. A retry needs a first check.
   */
  ghost predicate Conserved(r: RunState, env: Env, job: Job) {
    var made := Times(r.launches, job, false) + Holding(r.workers, Ahead, job) + Owed(r, job);
    && made <= Occurrences(env.seen, job)
    && (env.Current(job.revision) && r.loop.pending.revision == job.revision ==>
          made == Occurrences(env.seen, job))
    && Times(r.launches, job, true) + Holding(r.workers, Between, job) <= Times(r.launches, job, false)
  }

  ghost predicate RunOk(r: RunState, c: Channels, env: Env) {
    && LoopOk(r, c, env)
    && Exclusive(r, env)
    && Timely(r, env)
    && forall job :: Conserved(r, env, job)
  }

  // ----- A step of one run keeps all of it ------------------------------------------------

  function AfterToken(c: Channels, step: Step): Channels {
    if step.TakeToken? then c.(wake := false) else c
  }

  lemma FreeIsFree(l: Loop)
    requires FirstFree(l.queue, l.inFlight) < |l.queue|
    ensures l.queue[FirstFree(l.queue, l.inFlight)] !in l.inFlight
  {
    FirstFreeIsFirst(l.queue, l.inFlight);
  }

  lemma LoopStep(r: RunState, c: Channels, env: Env, step: Step)
    requires EnvOk(env) && RunOk(r, c, env) && CanStep(r, c, env, step)
    ensures LoopOk(TakeStep(r, c, env, step), AfterToken(c, step), env)
  {
  }

  /** Only worker w changes: what the workers hold changes only by what w holds. */
  lemma HeldUpdate(ws: seq<Worker>, w: nat, worker: Worker)
    requires w < |ws|
    requires forall i | 0 <= i < |ws| && i != w && ws[i].Busy()
             && ws[w].Busy() :: ws[i].job.provider != ws[w].job.provider
    ensures HeldBy(ws[w := worker])
         == HeldBy(ws) - (if ws[w].Busy() then {ws[w].job.provider} else {})
                       + (if worker.Busy() then {worker.job.provider} else {})
  {
    var ws' := ws[w := worker];
    assert forall i | 0 <= i < |ws| && i != w :: ws'[i] == ws[i];
    assert ws'[w] == worker;
  }

  lemma ExclusiveWork(r: RunState, c: Channels, env: Env, w: nat, turn: Turn)
    requires Exclusive(r, env) && CanStep(r, c, env, Work(w, turn)) && (env.live ==> !c.stopped)
    ensures Exclusive(TakeStep(r, c, env, Work(w, turn)), env)
  {
    var worker := r.workers[w];
    var current := worker.Busy() && env.Current(worker.job.revision);
    var worker' := TakeTurn(worker, turn, c.stopped, env.now, current);
    HeldUpdate(r.workers, w, worker');
    assert worker'.Busy() ==> worker.Busy() && worker'.job == worker.job;
  }

  lemma ExclusiveStep(r: RunState, c: Channels, env: Env, step: Step)
    requires Exclusive(r, env) && CanStep(r, c, env, step) && (env.live ==> !c.stopped)
    ensures Exclusive(TakeStep(r, c, env, step), env)
  {
    match step
    case Dispatch(w) =>
      FreeIsFree(r.loop);
      HeldUpdate(r.workers, w, Guarding(NextJob(r.loop)));
    case Collect(w) => HeldUpdate(r.workers, w, Resting);
    case Work(w, turn) => ExclusiveWork(r, c, env, w, turn);
    case _ =>
  }

  lemma TimelySnapshot(r: RunState, c: Channels, env: Env)
    requires EnvOk(env) && RunOk(r, c, env) && CanStep(r, c, env, TakeSnapshot)
    ensures Timely(TakeStep(r, c, env, TakeSnapshot), env)
  {
    var r' := TakeStep(r, c, env, TakeSnapshot);
    if r'.loop != r.loop {
      assert env.latest.revision > r.loop.pending.revision;
      forall i | 0 <= i < |r.workers| ensures WorkerTimely(r', r'.workers[i], env.now) {
        assert WorkerTimely(r, r.workers[i], env.now);
      }
      forall i | 0 <= i < |r.launches| ensures LaunchTimely(r', r'.launches[i], env.now) {
        assert LaunchTimely(r, r.launches[i], env.now);
      }
    }
  }

  lemma TimelyWork(r: RunState, c: Channels, env: Env, w: nat, turn: Turn)
    requires EnvOk(env) && RunOk(r, c, env) && CanStep(r, c, env, Work(w, turn))
    ensures Timely(TakeStep(r, c, env, Work(w, turn)), env)
  {
    var r' := TakeStep(r, c, env, Work(w, turn));
    assert WorkerTimely(r, r.workers[w], env.now);
    forall i | 0 <= i < |r'.workers| ensures WorkerTimely(r', r'.workers[i], env.now) {
      if i != w {
        assert WorkerTimely(r, r.workers[i], env.now);
      }
    }
    forall i | 0 <= i < |r'.launches| ensures LaunchTimely(r', r'.launches[i], env.now) {
      if i < |r.launches| {
        assert LaunchTimely(r, r.launches[i], env.now);
      }
    }
  }

  lemma TimelyStep(r: RunState, c: Channels, env: Env, step: Step)
    requires EnvOk(env) && RunOk(r, c, env) && CanStep(r, c, env, step)
    ensures Timely(TakeStep(r, c, env, step), env)
  {
    if step.TakeSnapshot? {
      TimelySnapshot(r, c, env);
    } else if step.Work? {
      TimelyWork(r, c, env, step.worker, step.turn);
    }
  }

  // Conservation, one lemma for each kind of step.

  /** What one turn does to the counts of the worker's own job. */
  lemma TurnCounts(w: Worker, turn: Turn, stopped: bool, now: nat, current: bool, job: Job)
    requires CanTurn(w, turn, stopped, now)
    ensures var w' := TakeTurn(w, turn, stopped, now, current);
            var first := One(turn.Enter? && w.Cleared? && w.job == job);
            var retry := One(turn.Enter? && w.Recleared? && w.job == job);
            && One(Holds(w', Ahead, job)) + first <= One(Holds(w, Ahead, job))
            && (current ==> One(Holds(w', Ahead, job)) + first == One(Holds(w, Ahead, job)))
            && One(Holds(w', Between, job)) + retry <= One(Holds(w, Between, job)) + first
  {
  }

  lemma WorkLaunches(r: RunState, c: Channels, env: Env, w: nat, turn: Turn, job: Job)
    requires CanStep(r, c, env, Work(w, turn))
    ensures var r' := TakeStep(r, c, env, Work(w, turn));
            && Times(r'.launches, job, false) == Times(r.launches, job, false)
                 + One(turn.Enter? && r.workers[w].Cleared? && r.workers[w].job == job)
            && Times(r'.launches, job, true) == Times(r.launches, job, true)
                 + One(turn.Enter? && r.workers[w].Recleared? && r.workers[w].job == job)
  {
    if turn.Enter? {
      var l := Entered(r.workers[w], w, env.now);
      TimesAppend(r.launches, l, job, false);
      TimesAppend(r.launches, l, job, true);
    }
  }

  lemma ConservedWork(r: RunState, c: Channels, env: Env, w: nat, turn: Turn, job: Job)
    requires EnvOk(env) && RunOk(r, c, env) && CanStep(r, c, env, Work(w, turn))
    ensures Conserved(TakeStep(r, c, env, Work(w, turn)), env, job)
  {
    var worker := r.workers[w];
    var current := worker.Busy() && env.Current(worker.job.revision);
    var worker' := TakeTurn(worker, turn, c.stopped, env.now, current);
    assert Conserved(r, env, job);
    HoldingUpdate(r.workers, w, worker', Ahead, job);
    HoldingUpdate(r.workers, w, worker', Between, job);
    TurnCounts(worker, turn, c.stopped, env.now, current, job);
    WorkLaunches(r, c, env, w, turn, job);
    assert Owed(TakeStep(r, c, env, Work(w, turn)), job) == Owed(r, job);
    assert worker.Busy() && worker.job == job && env.Current(job.revision) ==> current;
    assert !(worker.Busy() && worker.job == job) ==> !Holds(worker, Ahead, job) && !Holds(worker', Ahead, job);
  }

  lemma RemovedOne(q: seq<Provider>, i: nat, p: Provider)
    requires i < |q|
    ensures multiset(q[..i] + q[i + 1..])[p] + One(q[i] == p) == multiset(q)[p]
  {
    assert q == q[..i] + [q[i]] + q[i + 1..];
  }

  lemma DispatchOwes(r: RunState, c: Channels, env: Env, w: nat, job: Job)
    requires LoopOk(r, c, env) && CanStep(r, c, env, Dispatch(w))
    ensures Owed(TakeStep(r, c, env, Dispatch(w)), job) + One(NextJob(r.loop) == job) == Owed(r, job)
  {
    var i := FirstFree(r.loop.queue, r.loop.inFlight);
    RemovedOne(r.loop.queue, i, job.provider);
    var r' := TakeStep(r, c, env, Dispatch(w));
    assert r'.loop.queue == r.loop.queue[..i] + r.loop.queue[i + 1..] && r'.loop.pending == r.loop.pending;
  }

  lemma ConservedDispatch(r: RunState, c: Channels, env: Env, w: nat, job: Job)
    requires EnvOk(env) && RunOk(r, c, env) && CanStep(r, c, env, Dispatch(w))
    ensures Conserved(TakeStep(r, c, env, Dispatch(w)), env, job)
  {
    assert Conserved(r, env, job);
    HoldingUpdate(r.workers, w, Guarding(NextJob(r.loop)), Ahead, job);
    HoldingUpdate(r.workers, w, Guarding(NextJob(r.loop)), Between, job);
    DispatchOwes(r, c, env, w, job);
  }

  lemma ConservedCollect(r: RunState, c: Channels, env: Env, w: nat, job: Job)
    requires EnvOk(env) && RunOk(r, c, env) && CanStep(r, c, env, Collect(w))
    ensures Conserved(TakeStep(r, c, env, Collect(w)), env, job)
  {
    var r' := TakeStep(r, c, env, Collect(w));
    assert Conserved(r, env, job);
    HoldingUpdate(r.workers, w, Resting, Ahead, job);
    HoldingUpdate(r.workers, w, Resting, Between, job);
    assert Owed(r', job) == Owed(r, job);
  }

  /** A job of a revision the loop has not picked up is nowhere. */
  lemma FutureJobsAreNowhere(r: RunState, c: Channels, env: Env, job: Job)
    requires RunOk(r, c, env) && job.revision > r.loop.pending.revision
    ensures Times(r.launches, job, false) == Times(r.launches, job, true) == 0
    ensures Holding(r.workers, Ahead, job) == Holding(r.workers, Between, job) == 0
    ensures Holding(r.workers, Unjudged, job) == Holding(r.workers, Owing, job) == 0
  {
    forall i | 0 <= i < |r.launches| ensures r.launches[i].job != job {
      assert LaunchTimely(r, r.launches[i], env.now);
    }
    forall i, stage | 0 <= i < |r.workers| ensures !Holds(r.workers[i], stage, job) {
      assert WorkerTimely(r, r.workers[i], env.now);
    }
    TimesNone(r.launches, job, false);
    TimesNone(r.launches, job, true);
    HoldingNone(r.workers, Ahead, job);
    HoldingNone(r.workers, Between, job);
    HoldingNone(r.workers, Unjudged, job);
    HoldingNone(r.workers, Owing, job);
  }

  lemma ConservedLoop(r: RunState, c: Channels, env: Env, step: Step, job: Job)
    requires EnvOk(env) && RunOk(r, c, env) && CanStep(r, c, env, step)
    requires step.TakeToken? || step.TakeSnapshot? || step.Fire? || step.GuardDue? || step.LeaveLoop?
    ensures Conserved(TakeStep(r, c, env, step), env, job)
  {
    assert Conserved(r, env, job);
    if step.TakeSnapshot? && job.revision > r.loop.pending.revision {
      FutureJobsAreNowhere(r, c, env, job);
    }
  }

  lemma RunStep(r: RunState, c: Channels, env: Env, step: Step)
    requires EnvOk(env) && RunOk(r, c, env) && CanStep(r, c, env, step)
    ensures RunOk(TakeStep(r, c, env, step), AfterToken(c, step), env)
  {
    LoopStep(r, c, env, step);
    ExclusiveStep(r, c, env, step);
    TimelyStep(r, c, env, step);
    forall job ensures Conserved(TakeStep(r, c, env, step), env, job) {
      match step
      case Work(w, turn) => ConservedWork(r, c, env, w, turn, job);
      case Dispatch(w) => ConservedDispatch(r, c, env, w, job);
      case Collect(w) => ConservedCollect(r, c, env, w, job);
      case _ => ConservedLoop(r, c, env, step, job);
    }
  }

  // ----- A step of the rest of the system keeps it too ------------------------------------

  /** Time passes, or the monitor publishes one more revision; a retired run stays retired. */
  ghost predicate Moves(c: Channels, env: Env, c': Channels, env': Env) {
    && env.now <= env'.now
    && (env'.seen == env.seen
        || (env' == env.(seen := env.seen + [env'.latest], latest := env'.latest, live := env'.live)
            && (env'.live ==> c'.wake)))
    && (env'.seen == env.seen ==> env'.latest == env.latest && c' == c && env'.live == env.live)
    && (env'.live ==> env.live)
    && (env'.live ==> !c'.stopped)
  }

  lemma RunMoves(r: RunState, c: Channels, env: Env, c': Channels, env': Env)
    requires EnvOk(env) && EnvOk(env') && RunOk(r, c, env) && Moves(c, env, c', env')
    ensures RunOk(r, c', env')
  {
    forall i | 0 <= i < |r.workers| ensures WorkerTimely(r, r.workers[i], env'.now) {
      assert WorkerTimely(r, r.workers[i], env.now);
    }
    forall i | 0 <= i < |r.launches| ensures LaunchTimely(r, r.launches[i], env'.now) {
      assert LaunchTimely(r, r.launches[i], env.now);
    }
    forall job ensures Conserved(r, env', job) {
      assert Conserved(r, env, job);
      if job.revision >= |env.seen| {
        FutureJobsAreNowhere(r, c, env, job);
      }
    }
  }

  lemma NewRunOk(env: Env, c: Channels)
    requires EnvOk(env) && env.live && c == Channels(true, false) && env.latest.revision >= 1
    ensures RunOk(NewRun(env.latest.revision), c, env)
  {
    var r := NewRun(env.latest.revision);
    assert HeldBy(r.workers) == {};
    forall job ensures Conserved(r, env, job) {
      HoldingNone(r.workers, Ahead, job);
      HoldingNone(r.workers, Between, job);
    }
  }

  // ----- The whole system -----------------------------------------------------------------

  ghost predicate RunsOk(s: System)
    requires Shape(s)
  {
    forall i | 0 <= i < |s.runs| :: RunOk(s.runs[i], s.monitor.channels[i], EnvOf(s, i))
  }

  /** Runs own consecutive ranges of revisions: none picks up a revision of a later run. */
  ghost predicate Ordered(s: System) {
    forall i, j | 0 <= i < j < |s.runs| ::
      s.runs[i].birth < s.runs[j].birth && s.runs[i].loop.pending.revision < s.runs[j].birth
  }

  ghost predicate Inv(s: System) {
    && Shape(s) && WellFormed(s.monitor)
    && |s.seen| == s.monitor.revision + 1
    && EnvOk(Env(false, s.now, Observed(s.monitor), s.seen))
    && RunsOk(s)
    && Ordered(s)
  }

  lemma InitialInv()
    ensures Inv(INITIAL)
  {
  }

  lemma PublishInv(s: System, m: Monitor)
    requires Inv(s) && WellFormed(m) && m.revision == s.monitor.revision + 1 && |m.channels| == |s.monitor.channels|
    requires m.run.None? || (m.run == s.monitor.run && m.channels[m.run.value].wake)
    ensures Inv(Publish(s, m))
  {
    var s' := Publish(s, m);
    forall i | 0 <= i < |s.runs| ensures RunOk(s'.runs[i], s'.monitor.channels[i], EnvOf(s', i)) {
      RunMoves(s.runs[i], s.monitor.channels[i], EnvOf(s, i), m.channels[i], EnvOf(s', i));
    }
  }

  lemma StartedShape(m: Monitor)
    requires WellFormed(m)
    ensures var m' := Started(m);
            && WellFormed(m') && m'.revision == m.revision + 1
            && |m'.channels| == |m.channels| + 1 && m'.run == Some(|m.channels|)
            && m'.channels[|m.channels|] == Channels(true, false)
  {
  }

  lemma StartInv(s: System)
    requires Inv(s)
    ensures Inv(Apply(s, Start))
  {
    StartedShape(s.monitor);
    var s', m := Apply(s, Start), Started(s.monitor);
    StartRunsOk(s);
    StartOrdered(s);
    assert s'.monitor == m && s'.seen == s.seen + [Observed(m)];
  }

  lemma StartRunsOk(s: System)
    requires Inv(s)
    ensures RunsOk(Apply(s, Start))
  {
    StartedShape(s.monitor);
    var s', m := Apply(s, Start), Started(s.monitor);
    forall i | 0 <= i < |s'.runs| ensures RunOk(s'.runs[i], s'.monitor.channels[i], EnvOf(s', i)) {
      if i < |s.runs| {
        RunMoves(s.runs[i], s.monitor.channels[i], EnvOf(s, i), m.channels[i], EnvOf(s', i));
      } else {
        NewRunOk(EnvOf(s', i), m.channels[i]);
      }
    }
  }

  lemma StartOrdered(s: System)
    requires Inv(s)
    ensures Ordered(Apply(s, Start))
  {
    var s' := Apply(s, Start);
    forall i, j | 0 <= i < j < |s'.runs| ensures
      s'.runs[i].birth < s'.runs[j].birth && s'.runs[i].loop.pending.revision < s'.runs[j].birth
    {
      assert LoopOk(s.runs[i], s.monitor.channels[i], EnvOf(s, i));
    }
  }

  lemma StepRunsOk(s: System, run: nat, step: Step)
    requires Inv(s) && Enabled(s, At(run, step))
    ensures RunsOk(Apply(s, At(run, step)))
  {
    var s' := Apply(s, At(run, step));
    var r, c := s.runs[run], s.monitor.channels[run];
    RunStep(r, c, EnvOf(s, run), step);
    forall i | 0 <= i < |s'.runs| ensures RunOk(s'.runs[i], s'.monitor.channels[i], EnvOf(s', i)) {
      assert EnvOf(s', i) == EnvOf(s, i);
      if i == run {
        assert s'.monitor.channels[run] == AfterToken(c, step);
      } else {
        assert s'.runs[i] == s.runs[i] && s'.monitor.channels[i] == s.monitor.channels[i];
      }
    }
  }

  /** A step never changes a run's birth, and only the live, youngest run picks up a revision. */
  lemma StepKeepsOrder(r: RunState, c: Channels, env: Env, step: Step)
    requires CanStep(r, c, env, step)
    ensures TakeStep(r, c, env, step).birth == r.birth
    ensures !env.live ==> TakeStep(r, c, env, step).loop.pending == r.loop.pending
  {
  }

  lemma StepInv(s: System, run: nat, step: Step)
    requires Inv(s) && Enabled(s, At(run, step))
    ensures Inv(Apply(s, At(run, step)))
  {
    var s' := Apply(s, At(run, step));
    StepRunsOk(s, run, step);
    StepKeepsOrder(s.runs[run], s.monitor.channels[run], EnvOf(s, run), step);
    assert WellFormed(s'.monitor) && s'.seen == s.seen && Observed(s'.monitor) == Observed(s.monitor);
    assert Ordered(s');
  }

  lemma TickInv(s: System, millis: nat)
    requires Inv(s)
    ensures Inv(Apply(s, Tick(millis)))
  {
    var s' := Apply(s, Tick(millis));
    forall i | 0 <= i < |s.runs| ensures RunOk(s'.runs[i], s'.monitor.channels[i], EnvOf(s', i)) {
      RunMoves(s.runs[i], s.monitor.channels[i], EnvOf(s, i), s.monitor.channels[i], EnvOf(s', i));
    }
  }

  lemma EventInv(s: System, e: Event)
    requires Inv(s) && Enabled(s, e)
    ensures Inv(Apply(s, e))
  {
    match e
    case Update(fingerprint, available) =>
      if s.monitor.fingerprint != fingerprint {
        PublishInv(s, Updated(s.monitor, fingerprint, available));
      }
    case SetProviders(providers) => PublishInv(s, WithProviders(s.monitor, providers));
    case Start => StartInv(s);
    case Stop => PublishInv(s, Stopped(s.monitor));
    case Tick(millis) => TickInv(s, millis);
    case At(run, step) => StepInv(s, run, step);
  }

  /** Every history keeps the invariant. */
  lemma {:induction false} ExecuteInv(s: System, es: seq<Event>)
    requires Inv(s) && Possible(s, es)
    ensures Inv(Execute(s, es))
    decreases |es|
  {
    if es == [] {
    } else {
      EventInv(s, es[0]);
      ExecuteInv(Apply(s, es[0]), es[1..]);
    }
  }

  lemma ReachableInv(s: System)
    requires Reachable(s)
    ensures Inv(s)
  {
    InitialInv();
    var es :| Possible(INITIAL, es) && Execute(INITIAL, es) == s;
    ExecuteInv(INITIAL, es);
  }
}
