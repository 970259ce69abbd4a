/**
 * When a worker checks a provider again: exactly after a first check that failed while its job
 * was current, as long as the job stays so.
 */
module HealthVerdicts {
  import opened Options
  import opened HealthMonitor
  import opened HealthSystem
  import opened HealthInvariants

  /** How many first checks of the job were judged. */
  ghost function Judged(vs: seq<Verdict>, job: Job): nat {
    if vs == [] then 0 else Judged(vs[..|vs| - 1], job) + One(vs[|vs| - 1].job == job)
  }

  /** How many of them had failed while the job was current. */
  ghost function Failed(vs: seq<Verdict>, job: Job): nat {
    if vs == [] then 0
    else Failed(vs[..|vs| - 1], job) + One(vs[|vs| - 1].job == job && vs[|vs| - 1].failed && vs[|vs| - 1].current)
  }

  lemma VerdictAppend(vs: seq<Verdict>, v: Verdict, job: Job)
    ensures Judged(vs + [v], job) == Judged(vs, job) + One(v.job == job)
    ensures Failed(vs + [v], job) == Failed(vs, job) + One(v.job == job && v.failed && v.current)
  {
    assert (vs + [v])[..|vs|] == vs;
  }

  lemma {:induction false} FailedWereJudged(vs: seq<Verdict>, job: Job)
    ensures Failed(vs, job) <= Judged(vs, job)
  {
    if vs == [] {
    } else {
      FailedWereJudged(vs[..|vs| - 1], job);
    }
  }

  /** The monitor has the job's revision as that of the live run, and a network. */
  predicate Up(env: Env, job: Job) {
    env.live && env.latest.available && env.latest.revision == job.revision
  }

  /**
   * Every first check that was made was judged, or is about to be; every retry made or owed goes
   * back to a failed verdict, and while the job is current no failed verdict is without one.
   */
  ghost predicate Accounted(r: RunState, env: Env, job: Job) {
    && Times(r.launches, job, false) == Judged(r.verdicts, job) + Holding(r.workers, Unjudged, job)
    && Times(r.launches, job, true) + Holding(r.workers, Owing, job) <= Failed(r.verdicts, job)
    && (Up(env, job) ==> Times(r.launches, job, true) + Holding(r.workers, Owing, job) == Failed(r.verdicts, job))
  }

  ghost predicate RunAccounted(r: RunState, env: Env) {
    forall job :: Accounted(r, env, job)
  }

  // ----- A step of one run ------------------------------------------------------------------

  /** What a turn does to the counts of a job: one verdict for one check, one debt for one failure. */
  lemma TurnAccounts(w: Worker, turn: Turn, stopped: bool, now: nat, up: bool, job: Job)
    requires CanTurn(w, turn, stopped, now)
    ensures var w' := TakeTurn(w, turn, stopped, now, w.Busy() && up);
            var mine := w.Busy() && w.job == job;
            var first, retry := One(turn.Enter? && w.Cleared? && mine), One(turn.Enter? && w.Recleared? && mine);
            && One(Holds(w', Unjudged, job)) + One(turn.Judge? && mine) == One(Holds(w, Unjudged, job)) + first
            && One(Holds(w', Owing, job)) + retry
               <= One(Holds(w, Owing, job)) + One(turn.Judge? && turn.failed && up && mine)
            && (mine && up && !stopped ==>
                  One(Holds(w', Owing, job)) + retry
                  == One(Holds(w, Owing, job)) + One(turn.Judge? && turn.failed && mine))
            && (!mine ==> !Holds(w', Owing, job) && !Holds(w, Owing, job))
  {
  }

  lemma WorkVerdicts(r: RunState, c: Channels, env: Env, w: nat, turn: Turn, job: Job)
    requires CanStep(r, c, env, Work(w, turn))
    ensures var r' := TakeStep(r, c, env, Work(w, turn));
            var mine := turn.Judge? && r.workers[w].job == job;
            && Judged(r'.verdicts, job) == Judged(r.verdicts, job) + One(mine)
            && Failed(r'.verdicts, job) == Failed(r.verdicts, job) + One(mine && turn.failed && Up(env, job))
  {
    if turn.Judge? {
      VerdictAppend(r.verdicts, Found(r.workers[w].job, turn.failed, env), job);
    }
  }

  lemma AccountedWork(r: RunState, c: Channels, env: Env, w: nat, turn: Turn, job: Job)
    requires Accounted(r, env, job) && CanStep(r, c, env, Work(w, turn)) && (env.live ==> !c.stopped)
    ensures Accounted(TakeStep(r, c, env, Work(w, turn)), env, job)
  {
    var worker := r.workers[w];
    var up := worker.Busy() && Up(env, worker.job);
    var worker' := TakeTurn(worker, turn, c.stopped, env.now, worker.Busy() && up);
    HoldingUpdate(r.workers, w, worker', Unjudged, job);
    HoldingUpdate(r.workers, w, worker', Owing, job);
    TurnAccounts(worker, turn, c.stopped, env.now, up, job);
    WorkLaunches(r, c, env, w, turn, job);
    WorkVerdicts(r, c, env, w, turn, job);
  }

  lemma AccountedStep(r: RunState, c: Channels, env: Env, step: Step, job: Job)
    requires Accounted(r, env, job) && CanStep(r, c, env, step) && (env.live ==> !c.stopped)
    ensures Accounted(TakeStep(r, c, env, step), env, job)
  {
    match step
    case Work(w, turn) => AccountedWork(r, c, env, w, turn, job);
    case Dispatch(w) =>
      HoldingUpdate(r.workers, w, Guarding(NextJob(r.loop)), Unjudged, job);
      HoldingUpdate(r.workers, w, Guarding(NextJob(r.loop)), Owing, job);
    case Collect(w) =>
      HoldingUpdate(r.workers, w, Resting, Unjudged, job);
      HoldingUpdate(r.workers, w, Resting, Owing, job);
    case _ =>
  }

  // ----- The rest of the system --------------------------------------------------------------

  lemma AccountedMoves(r: RunState, c: Channels, env: Env, c': Channels, env': Env, job: Job)
    requires EnvOk(env) && EnvOk(env') && RunOk(r, c, env) && Moves(c, env, c', env') && Accounted(r, env, job)
    ensures Accounted(r, env', job)
  {
    if job.revision >= |env.seen| {
      FutureJobsAreNowhere(r, c, env, job);
      FailedWereJudged(r.verdicts, job);
    }
  }

  lemma NewRunAccounted(birth: nat, env: Env, job: Job)
    ensures Accounted(NewRun(birth), env, job)
  {
    HoldingNone(NewRun(birth).workers, Unjudged, job);
    HoldingNone(NewRun(birth).workers, Owing, job);
  }

  ghost predicate AllAccounted(s: System)
    requires Shape(s)
  {
    forall i | 0 <= i < |s.runs| :: RunAccounted(s.runs[i], EnvOf(s, i))
  }

  /** A caller's operation, or time: runs stay as they are, a started one is new. */
  lemma OutsideAccounts(s: System, e: Event, i: nat, job: Job)
    requires Inv(s) && AllAccounted(s) && Enabled(s, e) && !e.At? && i < |Apply(s, e).runs|
    ensures Accounted(Apply(s, e).runs[i], EnvOf(Apply(s, e), i), job)
  {
    var t := Apply(s, e);
    if i < |s.runs| {
      assert RunAccounted(s.runs[i], EnvOf(s, i)) && RunOk(s.runs[i], s.monitor.channels[i], EnvOf(s, i));
      OutsideMoves(s, e, i);
      assert Accounted(s.runs[i], EnvOf(s, i), job);
      AccountedMoves(s.runs[i], s.monitor.channels[i], EnvOf(s, i), t.monitor.channels[i], EnvOf(t, i), job);
    } else {
      NewRunAccounted(Started(s.monitor).revision, EnvOf(t, i), job);
    }
  }

  lemma OutsideMoves(s: System, e: Event, i: nat)
    requires Inv(s) && Enabled(s, e) && !e.At? && i < |s.runs|
    ensures var t := Apply(s, e);
            && t.runs[i] == s.runs[i] && EnvOk(EnvOf(t, i))
            && Moves(s.monitor.channels[i], EnvOf(s, i), t.monitor.channels[i], EnvOf(t, i))
  {
    EventInv(s, e);
    if e.Start? {
      StartedShape(s.monitor);
    }
  }

  lemma EventAccounts(s: System, e: Event)
    requires Inv(s) && AllAccounted(s) && Enabled(s, e)
    ensures AllAccounted(Apply(s, e))
  {
    var t := Apply(s, e);
    forall i, job | 0 <= i < |t.runs| ensures Accounted(t.runs[i], EnvOf(t, i), job) {
      if e.At? {
        assert RunAccounted(s.runs[i], EnvOf(s, i)) && RunOk(s.runs[i], s.monitor.channels[i], EnvOf(s, i));
        assert EnvOf(t, i) == EnvOf(s, i);
        if e.run == i {
          AccountedStep(s.runs[i], s.monitor.channels[i], EnvOf(s, i), e.step, job);
        }
      } else {
        OutsideAccounts(s, e, i, job);
      }
    }
  }

  lemma {:induction false} ExecuteAccounts(s: System, es: seq<Event>)
    requires Inv(s) && AllAccounted(s) && Possible(s, es)
    ensures AllAccounted(Execute(s, es))
    decreases |es|
  {
    if es == [] {
    } else {
      EventInv(s, es[0]);
      EventAccounts(s, es[0]);
      ExecuteAccounts(Apply(s, es[0]), es[1..]);
    }
  }

  lemma ReachableAccounts(s: System)
    requires Reachable(s)
    ensures AllAccounted(s)
  {
    InitialInv();
    var es :| Possible(INITIAL, es) && Execute(INITIAL, es) == s;
    ExecuteAccounts(INITIAL, es);
  }

  /**
   * In every reachable state and for every run: a job was retried at most as often as a first
   * check of it was found failed while it was current; and as long as it is current, every such
   * verdict has had its retry or has a worker that is on its way to it.
   */
  lemma RetriesFollowFailures(s: System, run: nat, job: Job)
    requires Reachable(s) && run < |s.runs|
    ensures var r := s.runs[run];
            && Times(r.launches, job, true) <= Failed(r.verdicts, job) <= Judged(r.verdicts, job)
            && Judged(r.verdicts, job) <= Times(r.launches, job, false)
            && (s.monitor.run == Some(run) && s.monitor.available && s.monitor.revision == job.revision ==>
                  Failed(r.verdicts, job) == Times(r.launches, job, true) + Holding(r.workers, Owing, job))
  {
    ReachableAccounts(s);
    assert RunAccounted(s.runs[run], EnvOf(s, run));
    assert Accounted(s.runs[run], EnvOf(s, run), job);
    FailedWereJudged(s.runs[run].verdicts, job);
  }
}
