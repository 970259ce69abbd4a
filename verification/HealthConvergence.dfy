/**
 * What the health monitor does when it is left alone: from any reachable state, if no caller
 * interferes and every HealthCheck returns, only finitely many steps remain, and when none
 * remains every provider of the live run's snapshot has been checked once, or twice.
 */
module HealthConvergence {
  import opened Options
  import opened HealthMonitor
  import opened HealthSystem
  import opened HealthInvariants
  import opened HealthSafety
  import opened HealthVerdicts

  // ----- A bound on the steps to come ------------------------------------------------------

  function WorkerCost(w: Worker): nat {
    match w
    case Quit => 0
    case Resting => 1
    case Reporting(_) => 2
    case Rechecking(_) => 3
    case Recleared(_, _) => 4
    case Reguarding(_, _) => 5
    case Waiting(_, _, _) => 6
    case Judging(_, _) => 7
    case Checking(_) => 8
    case Cleared(_) => 9
    case Guarding(_) => 10
  }

  function WorkersCost(ws: seq<Worker>): nat {
    if ws == [] then 0 else WorkerCost(ws[0]) + WorkersCost(ws[1..])
  }

  lemma {:induction false} WorkersCostUpdate(ws: seq<Worker>, i: nat, w: Worker)
    requires i < |ws|
    ensures WorkersCost(ws[i := w]) + WorkerCost(ws[i]) == WorkersCost(ws) + WorkerCost(w)
  {
    if i == 0 {
      assert ws[0 := w][1..] == ws[1..];
    } else {
      assert ws[i := w][1..] == ws[1..][i - 1 := w];
      WorkersCostUpdate(ws[1..], i - 1, w);
    }
  }

  /** Each queued provider may cost ten steps; a snapshot may still refill the queue. */
  function RunCost(r: RunState, c: Channels, latest: Snapshot): nat {
    var own := 10 * |r.loop.pending.providers|;
    var next := 10 * |latest.providers|;
    (if c.wake then next + 5 else 0)
     + (match r.pc case Left => 0 case Selecting => 1 case Fired => own + 2 case TokenTaken => next + 4)
     + (if r.loop.due.Some? then own + 2 else 0)
     + 10 * |r.loop.queue|
     + WorkersCost(r.workers)
  }

  lemma TurnCosts(w: Worker, turn: Turn, stopped: bool, now: nat, current: bool)
    requires CanTurn(w, turn, stopped, now)
    ensures WorkerCost(TakeTurn(w, turn, stopped, now, current)) < WorkerCost(w)
  {
  }

  lemma LoopStepCosts(r: RunState, c: Channels, env: Env, step: Step)
    requires CanStep(r, c, env, step) && (step.TakeToken? || step.TakeSnapshot? || step.Fire? || step.GuardDue?
             || step.LeaveLoop?)
    ensures RunCost(TakeStep(r, c, env, step), AfterToken(c, step), env.latest) < RunCost(r, c, env.latest)
  {
  }

  lemma StepCosts(r: RunState, c: Channels, env: Env, step: Step)
    requires CanStep(r, c, env, step)
    ensures RunCost(TakeStep(r, c, env, step), AfterToken(c, step), env.latest) < RunCost(r, c, env.latest)
  {
    match step
    case Dispatch(w) => WorkersCostUpdate(r.workers, w, Guarding(NextJob(r.loop)));
    case Collect(w) => WorkersCostUpdate(r.workers, w, Resting);
    case Work(w, turn) =>
      var worker := r.workers[w];
      var current := worker.Busy() && env.Current(worker.job.revision);
      TurnCosts(worker, turn, c.stopped, env.now, current);
      WorkersCostUpdate(r.workers, w, TakeTurn(worker, turn, c.stopped, env.now, current));
    case _ => LoopStepCosts(r, c, env, step);
  }

  /** The cost of every run, retired ones included. */
  ghost function Cost(s: System): nat
    requires Shape(s)
  {
    Sum(Costs(s))
  }

  ghost function Costs(s: System): seq<nat>
    requires Shape(s)
  {
    seq(|s.runs|, i requires 0 <= i < |s.runs| => RunCost(s.runs[i], s.monitor.channels[i], Observed(s.monitor)))
  }

  lemma {:induction false} SumUpdate(xs: seq<nat>, ys: seq<nat>, i: nat)
    requires |xs| == |ys| && i < |xs| && forall k | 0 <= k < |xs| && k != i :: xs[k] == ys[k]
    ensures Sum(xs) + ys[i] == Sum(ys) + xs[i]
  {
    var n := |xs| - 1;
    if i == n {
      assert xs[..n] == ys[..n];
    } else {
      SumUpdate(xs[..n], ys[..n], i);
    }
  }

  lemma EventCosts(s: System, run: nat, step: Step)
    requires Shape(s) && Enabled(s, At(run, step))
    ensures Cost(Apply(s, At(run, step))) < Cost(s)
  {
    var s' := Apply(s, At(run, step));
    StepCosts(s.runs[run], s.monitor.channels[run], EnvOf(s, run), step);
    assert s'.monitor.channels[run] == AfterToken(s.monitor.channels[run], step);
    SumUpdate(Costs(s), Costs(s'), run);
  }

  /** Nobody calls the monitor: runs step and time passes. */
  predicate Quiet(es: seq<Event>) {
    forall i | 0 <= i < |es| :: es[i].At? || es[i].Tick?
  }

  function Steps(es: seq<Event>): nat {
    if es == [] then 0 else (if es[0].At? then 1 else 0) + Steps(es[1..])
  }

  /** However long a quiet period, it has room for only so many steps. */
  lemma {:induction false} QuietStepsAreBounded(s: System, es: seq<Event>)
    requires Shape(s) && Possible(s, es) && Quiet(es)
    ensures Steps(es) + Cost(Execute(s, es)) <= Cost(s)
    ensures Execute(s, es).seen == s.seen && Observed(Execute(s, es).monitor) == Observed(s.monitor)
    ensures Execute(s, es).monitor.run == s.monitor.run
    decreases |es|
  {
    if es == [] {
    } else {
      var t := Apply(s, es[0]);
      if es[0].At? {
        EventCosts(s, es[0].run, es[0].step);
      } else {
        assert Costs(t) == Costs(s);
      }
      QuietStepsAreBounded(t, es[1..]);
    }
  }

  // ----- Something can happen until everything has settled ---------------------------------

  ghost predicate RunSettled(r: RunState, c: Channels, live: bool) {
    if live then
      && r.pc.Selecting? && !c.wake && r.loop.due.None? && r.loop.queue == []
      && forall i | 0 <= i < |r.workers| :: r.workers[i].Resting?
    else
      r.pc.Left? && forall i | 0 <= i < |r.workers| :: r.workers[i].Quit?
  }

  ghost predicate Settled(s: System)
    requires Shape(s)
  {
    forall i | 0 <= i < |s.runs| :: RunSettled(s.runs[i], s.monitor.channels[i], s.monitor.run == Some(i))
  }

  /** The turn of a busy worker, and how long to wait for it. */
  lemma WorkerProgress(w: Worker, stopped: bool, now: nat) returns (turn: Turn, millis: nat)
    requires !w.Quit? && (w.Resting? || w.Reporting? ==> stopped)
    ensures CanTurn(w, turn, stopped, now + millis)
  {
    millis := 0;
    match w
    case Resting => turn := Leave;
    case Guarding(_) => turn := Ask;
    case Cleared(_) => turn := Enter;
    case Checking(_) => turn := Return;
    case Judging(_, _) => turn := Judge(false);
    case Waiting(_, _, until) => turn, millis := Elapse, until;
    case Reguarding(_, _) => turn := Ask;
    case Recleared(_, _) => turn := Enter;
    case Rechecking(_) => turn := Return;
    case Reporting(_) => turn := Leave;
  }

  lemma RunProgress(r: RunState, c: Channels, env: Env) returns (step: Step, millis: nat)
    requires RunOk(r, c, env) && (c.stopped <==> !env.live) && !RunSettled(r, c, env.live)
    requires env.live ==> forall i | 0 <= i < |r.workers| :: !r.workers[i].Quit?
    ensures CanStep(r, c, env.(now := env.now + millis), step)
  {
    millis := 0;
    if r.pc.TokenTaken? {
      step := TakeSnapshot;
    } else if r.pc.Fired? {
      step := GuardDue;
    } else if r.pc.Selecting? && c.wake {
      step := TakeToken;
    } else if r.pc.Selecting? && c.stopped {
      step := LeaveLoop;
    } else if r.pc.Selecting? && r.loop.due.Some? {
      step, millis := Fire, r.loop.due.value;
    } else if w: nat :| w < |r.workers| && !r.workers[w].Quit? && (c.stopped || r.workers[w].Busy()) {
      if r.pc.Selecting? && r.workers[w].Reporting? {
        step := Collect(w);
      } else {
        var turn;
        turn, millis := WorkerProgress(r.workers[w], c.stopped, env.now);
        step := Work(w, turn);
      }
    } else {
      assert forall i | 0 <= i < |r.workers| :: r.workers[i].Resting?;
      assert r.loop.inFlight == {};
      step := Dispatch(0);
    }
  }

  /** As long as something is unsettled, some step is possible, at the latest after a wait. */
  lemma Progress(s: System) returns (run: nat, step: Step, millis: nat)
    requires Inv(s) && !Settled(s)
    ensures Enabled(Apply(s, Tick(millis)), At(run, step))
  {
    run :| run < |s.runs| && !RunSettled(s.runs[run], s.monitor.channels[run], s.monitor.run == Some(run));
    assert RunOk(s.runs[run], s.monitor.channels[run], EnvOf(s, run));
    step, millis := RunProgress(s.runs[run], s.monitor.channels[run], EnvOf(s, run));
    assert EnvOf(Apply(s, Tick(millis)), run) == EnvOf(s, run).(now := s.now + millis);
  }

  /** No step of any run is possible, now or after any wait. */
  ghost predicate Exhausted(s: System)
    requires Shape(s)
  {
    forall millis: nat, run: nat, step :: !Enabled(Apply(s, Tick(millis)), At(run, step))
  }

  /**
   * What a run has done about a provider for a revision: each occurrence in the snapshot was
   * checked once, each check was judged, and each failure found was retried once.
   */
  ghost predicate Attended(r: RunState, snapshot: Snapshot, provider: Provider) {
    var job, n := Job(snapshot.revision, provider), multiset(snapshot.providers)[provider];
    && Times(r.launches, job, false) == n
    && Judged(r.verdicts, job) == n
    && Times(r.launches, job, true) == Failed(r.verdicts, job) <= n
  }

  /** Once settled, the live run has served every provider of the snapshot. */
  lemma SettledMeansChecked(s: System, run: nat, provider: Provider)
    requires Inv(s) && AllAccounted(s) && Settled(s) && s.monitor.run == Some(run) && s.monitor.available
    ensures run < |s.runs| && s.runs[run].loop.pending == Observed(s.monitor)
    ensures Attended(s.runs[run], Observed(s.monitor), provider)
  {
    var r, c, env := s.runs[run], s.monitor.channels[run], EnvOf(s, run);
    var job := Job(s.monitor.revision, provider);
    assert RunOk(r, c, env) && RunAccounted(r, env);
    assert Conserved(r, env, job) && Accounted(r, env, job);
    assert RunSettled(r, c, true);
    HoldingNone(r.workers, Ahead, job);
    HoldingNone(r.workers, Unjudged, job);
    HoldingNone(r.workers, Owing, job);
    FailedWereJudged(r.verdicts, job);
    assert s.seen[s.monitor.revision] == Observed(s.monitor);
  }

  /**
   * Quiet-period convergence. In a quiet period from a reachable state with a live run and an
   * available network, the steps are bounded in advance; and a quiet period that leaves nothing
   * to do ends with an empty queue, idle workers, and every provider of the snapshot checked
   * once per occurrence and retried exactly once per check that was found failed.
   */
  lemma QuietPeriodConverges(s: System, es: seq<Event>, run: nat)
    requires Reachable(s) && Possible(s, es) && Quiet(es)
    requires s.monitor.run == Some(run) && s.monitor.available
    ensures Steps(es) <= Cost(s)
    ensures Exhausted(Execute(s, es)) ==>
      var s' := Execute(s, es);
      && run < |s'.runs| && RunSettled(s'.runs[run], s'.monitor.channels[run], true)
      && s'.runs[run].loop.pending == Observed(s.monitor)
      && forall provider :: Attended(s'.runs[run], Observed(s.monitor), provider)
  {
    ReachableInv(s);
    ExecuteInv(s, es);
    ReachableAccounts(s);
    ExecuteAccounts(s, es);
    QuietStepsAreBounded(s, es);
    var s' := Execute(s, es);
    if Exhausted(s') {
      if !Settled(s') {
        var r, step, millis := Progress(s');
        assert false;
      }
      forall provider ensures Attended(s'.runs[run], Observed(s.monitor), provider) {
        SettledMeansChecked(s', run, provider);
      }
    }
  }

  lemma Prepend(s: System, e: Event, es: seq<Event>)
    requires Shape(s) && Enabled(s, e) && Possible(Apply(s, e), es) && (e.At? || e.Tick?) && Quiet(es)
    ensures Possible(s, [e] + es) && Quiet([e] + es)
    ensures Execute(s, [e] + es) == Execute(Apply(s, e), es)
  {
    assert ([e] + es)[1..] == es;
  }

  lemma WaitCostsNothing(s: System, millis: nat)
    requires Shape(s)
    ensures Cost(Apply(s, Tick(millis))) == Cost(s)
  {
    assert Costs(Apply(s, Tick(millis))) == Costs(s);
  }

  /** Such an end is always within reach: a quiet period from any reachable state can settle. */
  lemma {:induction false} SomeQuietPeriodSettles(s: System) returns (es: seq<Event>)
    requires Inv(s)
    ensures Possible(s, es) && Quiet(es) && Settled(Execute(s, es))
    decreases Cost(s)
  {
    es := [];
    if !Settled(s) {
      var run, step, millis := Progress(s);
      var waited := Apply(s, Tick(millis));
      EventInv(s, Tick(millis));
      EventInv(waited, At(run, step));
      WaitCostsNothing(s, millis);
      EventCosts(waited, run, step);
      es := SomeQuietPeriodSettles(Apply(waited, At(run, step)));
      Prepend(waited, At(run, step), es);
      es := [At(run, step)] + es;
      Prepend(s, Tick(millis), es);
      es := [Tick(millis)] + es;
    }
  }
}
