/**
 * What the health monitor promises over every history: no lost wake-up, one snapshot per
 * revision, exclusive use of providers, timing, and bounds on the number of health checks.
 */
module HealthSafety {
  import opened Options
  import opened NetworkFingerprint
  import opened HealthMonitor
  import opened HealthSystem
  import opened HealthInvariants

  /**
   * No lost recovery: the live loop has picked up the monitor's revision, or a wake token is
   * waiting for it, or it has taken the token and will take the snapshot next.
   */
  lemma NoLostRecovery(s: System, run: nat)
    requires Reachable(s) && s.monitor.run == Some(run)
    ensures run < |s.runs| && |s.runs| == |s.monitor.channels|
    ensures s.runs[run].loop.pending == Observed(s.monitor)
         || s.monitor.channels[run].wake || s.runs[run].pc.TokenTaken?
  {
    ReachableInv(s);
    assert RunOk(s.runs[run], s.monitor.channels[run], EnvOf(s, run));
  }

  /** At every moment no two workers of a run hold one provider; a live loop knows exactly who holds what. */
  lemma ProvidersAreExclusive(s: System, run: nat)
    requires Reachable(s) && run < |s.runs|
    ensures var r := s.runs[run];
            && |r.workers| == WORKERS
            && (forall i, j | 0 <= i < j < WORKERS && r.workers[i].Busy() && r.workers[j].Busy() ::
                  r.workers[i].job.provider != r.workers[j].job.provider)
            && HeldBy(r.workers) <= r.loop.inFlight
            && (s.monitor.run == Some(run) ==> r.loop.inFlight == HeldBy(r.workers))
  {
    ReachableInv(s);
    assert RunOk(s.runs[run], s.monitor.channels[run], EnvOf(s, run));
  }

  // ----- Revisions ------------------------------------------------------------------------

  lemma EventHistory(s: System, e: Event)
    requires Inv(s) && Enabled(s, e)
    ensures var s' := Apply(s, e);
            && s.seen <= s'.seen && s.monitor.revision <= s'.monitor.revision
            && |s.runs| <= |s'.runs|
            && (forall i | 0 <= i < |s.runs| :: s'.runs[i].birth == s.runs[i].birth)
            && (forall i | |s.runs| <= i < |s'.runs| :: s.monitor.revision < s'.runs[i].birth)
  {
  }

  lemma {:induction false} HistoryGrows(s: System, es: seq<Event>)
    requires Inv(s) && Possible(s, es)
    ensures s.seen <= Execute(s, es).seen
    ensures |s.runs| <= |Execute(s, es).runs|
    ensures forall i | 0 <= i < |s.runs| :: Execute(s, es).runs[i].birth == s.runs[i].birth
    ensures forall i | |s.runs| <= i < |Execute(s, es).runs| :: s.monitor.revision < Execute(s, es).runs[i].birth
    decreases |es|
  {
    if es == [] {
    } else {
      EventInv(s, es[0]);
      EventHistory(s, es[0]);
      HistoryGrows(Apply(s, es[0]), es[1..]);
    }
  }

  lemma PendingIsPublished(s: System, run: nat)
    requires Inv(s) && run < |s.runs|
    ensures s.runs[run].loop.pending.revision < |s.seen|
    ensures s.runs[run].loop.pending == s.seen[s.runs[run].loop.pending.revision]
  {
    assert LoopOk(s.runs[run], s.monitor.channels[run], EnvOf(s, run));
  }

  /** What was published stays published. */
  lemma PublishedStays(s: System, es: seq<Event>)
    requires Inv(s) && Possible(s, es)
    ensures s.monitor.revision < |Execute(s, es).seen| && Execute(s, es).seen[s.monitor.revision] == Observed(s.monitor)
    ensures s.monitor.revision <= Execute(s, es).monitor.revision
  {
    HistoryGrows(s, es);
    ExecuteInv(s, es);
    LatestIsPublished(s);
    LatestIsPublished(Execute(s, es));
  }

  lemma LatestIsPublished(s: System)
    requires Inv(s)
    ensures s.monitor.revision + 1 == |s.seen| && s.seen[s.monitor.revision] == Observed(s.monitor)
  {
  }

  /** One revision names one snapshot, in the monitor and in every loop that picked it up. */
  lemma RevisionNamesOneSnapshot(s: System, es: seq<Event>)
    requires Reachable(s) && Possible(s, es)
    ensures var s' := Execute(s, es);
            && s.monitor.revision <= s'.monitor.revision
            && (s'.monitor.revision == s.monitor.revision ==> Observed(s'.monitor) == Observed(s.monitor))
            && forall i | 0 <= i < |s'.runs| && s'.runs[i].loop.pending.revision == s.monitor.revision ::
                 s'.runs[i].loop.pending == Observed(s.monitor)
  {
    ReachableInv(s);
    ExecuteInv(s, es);
    PublishedStays(s, es);
    var s' := Execute(s, es);
    LatestIsPublished(s');
    forall i | 0 <= i < |s'.runs| && s'.runs[i].loop.pending.revision == s.monitor.revision
      ensures s'.runs[i].loop.pending == Observed(s.monitor)
    {
      PendingIsPublished(s', i);
    }
  }

  // ----- Timing ---------------------------------------------------------------------------

  /**
   * Every HealthCheck was entered at least 2000 milliseconds after its run picked up the job's
   * revision, and a retry at least 1500 milliseconds after the first check returned. An
   * armed deadline is always the one of the revision picked up last.
   */
  lemma ChecksAreTimely(s: System, run: nat)
    requires Reachable(s) && run < |s.runs|
    ensures var r := s.runs[run];
            && (forall i | 0 <= i < |r.launches| ::
                  var l := r.launches[i];
                  && l.job.revision in r.picked
                  && r.picked[l.job.revision] + 2000 <= l.at
                  && (l.retry ==> l.returned + 1500 <= l.at))
            && (r.loop.due.Some? ==>
                  r.loop.pending.revision in r.picked
                  && r.loop.due.value == r.picked[r.loop.pending.revision] + 2000)
  {
    ReachableInv(s);
    assert RunOk(s.runs[run], s.monitor.channels[run], EnvOf(s, run));
    forall i | 0 <= i < |s.runs[run].launches| ensures LaunchTimely(s.runs[run], s.runs[run].launches[i], s.now) {}
  }

  /** A callback that reports the same network again changes nothing, so it moves no deadline. */
  lemma EquivalentCallbackIsIgnored(s: System, t: Text, a: NetworkInfo, b: NetworkInfo)
    requires Shape(s) && Faithful(t)
    requires a.defaultInterface == b.defaultInterface && Meanings(t, a) == Meanings(t, b)
    ensures var s' := Apply(s, Update(Fingerprint(t, a), Available(t, a)));
            Apply(s', Update(Fingerprint(t, b), Available(t, b))) == s'
  {
    FingerprintIsCanonical(t, a, b);
  }

  // ----- The availability is never stale --------------------------------------------------

  datatype Call = Info(info: NetworkInfo) | Providers(providers: seq<Provider>) | StartCall | StopCall

  ghost function After(t: Text, calls: seq<Call>): Monitor {
    if calls == [] then IDLE
    else
      var m, last := After(t, calls[..|calls| - 1]), calls[|calls| - 1];
      match last
      case Info(info) => Updated(m, Fingerprint(t, info), Available(t, info))
      case Providers(ps) => WithProviders(m, ps)
      case StartCall => Started(m)
      case StopCall => Stopped(m)
  }

  ghost function LastInfo(calls: seq<Call>): Option<NetworkInfo> {
    if calls == [] then None
    else if calls[|calls| - 1].Info? then Some(calls[|calls| - 1].info)
    else LastInfo(calls[..|calls| - 1])
  }

  /**
   * After any calls, the monitor's availability is that of the network reported last, although
   * `update` returns early whenever the fingerprint is unchanged.
   */
  lemma {:induction false} AvailabilityIsNeverStale(t: Text, calls: seq<Call>)
    requires Faithful(t)
    ensures match LastInfo(calls)
            case None => After(t, calls).fingerprint == "" && !After(t, calls).available
            case Some(info) =>
              && After(t, calls).fingerprint == Fingerprint(t, info)
              && (After(t, calls).available <==> Available(t, info))
  {
    if calls == [] {
    } else {
      var earlier, last := calls[..|calls| - 1], calls[|calls| - 1];
      AvailabilityIsNeverStale(t, earlier);
      if last.Info? && LastInfo(earlier).Some? && Fingerprint(t, last.info) == Fingerprint(t, LastInfo(earlier).value) {
        EqualFingerprintsEqualAvailability(t, last.info, LastInfo(earlier).value);
      }
    }
  }

  /** The providers set last, none after a stop. */
  ghost function LastProviders(calls: seq<Call>): seq<Provider> {
    if calls == [] then []
    else
      match calls[|calls| - 1]
      case Providers(ps) => ps
      case StopCall => []
      case _ => LastProviders(calls[..|calls| - 1])
  }

  /** How many runs were started, and whether the last of them still is one. */
  ghost function Starts(calls: seq<Call>): nat {
    if calls == [] then 0 else Starts(calls[..|calls| - 1]) + One(calls[|calls| - 1].StartCall?)
  }

  ghost predicate IsRunning(calls: seq<Call>) {
    calls != [] && (calls[|calls| - 1].StartCall? || (!calls[|calls| - 1].StopCall? && IsRunning(calls[..|calls| - 1])))
  }

  ghost predicate Follows(m: Monitor, providers: seq<Provider>, starts: nat, running: bool) {
    && m.providers == providers
    && |m.channels| == starts
    && (running ==> starts > 0)
    && m.run == (if running then Some(starts - 1) else None)
    && (forall i | 0 <= i < |m.channels| :: m.channels[i].stopped <==> m.run != Some(i))
  }

  lemma StartFollows(m: Monitor, providers: seq<Provider>, starts: nat, running: bool)
    requires Follows(m, providers, starts, running)
    ensures Follows(Started(m), providers, starts + 1, true)
  {
    StartedShape(m);
  }

  lemma OthersFollow(t: Text, m: Monitor, call: Call, providers: seq<Provider>, starts: nat, running: bool)
    requires Follows(m, providers, starts, running)
    ensures call.Info? ==>
              Follows(Updated(m, Fingerprint(t, call.info), Available(t, call.info)), providers, starts, running)
    ensures call.Providers? ==> Follows(WithProviders(m, call.providers), call.providers, starts, running)
    ensures Follows(Stopped(m), [], starts, false)
  {
  }

  /**
   * After any calls the monitor has the providers that were set last, and its live run is the one
   * started last, unless it was stopped since; the stop channel of every other run is closed.
   */
  lemma {:induction false} MonitorFollowsItsCallers(t: Text, calls: seq<Call>)
    ensures Follows(After(t, calls), LastProviders(calls), Starts(calls), IsRunning(calls))
  {
    if calls == [] {
    } else {
      var before, last := calls[..|calls| - 1], calls[|calls| - 1];
      MonitorFollowsItsCallers(t, before);
      StartFollows(After(t, before), LastProviders(before), Starts(before), IsRunning(before));
      OthersFollow(t, After(t, before), last, LastProviders(before), Starts(before), IsRunning(before));
    }
  }

  // ----- What the guards ask --------------------------------------------------------------

  /** A worker gets past its guard exactly for the live run, an available network and the current revision. */
  lemma WorkersAskTheMonitor(s: System, run: nat, w: nat)
    requires Shape(s) && Enabled(s, At(run, Work(w, Ask)))
    ensures Apply(s, At(run, Work(w, Ask))).runs[run].workers[w].PastGuard() <==>
              s.monitor.run == Some(run) && s.monitor.available
              && s.monitor.revision == s.runs[run].workers[w].job.revision
  {
    match s.runs[run].workers[w] case Guarding(job) => case Reguarding(job, at) =>
  }

  /** A fired timer fills the queue under the same condition, with the whole snapshot. */
  lemma TimersAskTheMonitor(s: System, run: nat)
    requires Shape(s) && Enabled(s, At(run, GuardDue))
    ensures var l, l' := s.runs[run].loop, Apply(s, At(run, GuardDue)).runs[run].loop;
            l'.queue == if s.monitor.run == Some(run) && s.monitor.available && s.monitor.revision == l.pending.revision
                        then l.pending.providers else l.queue
  {
  }

  /** The object's `current` is the guard of the steps. */
  lemma CurrentIsTheGuard(s: System, run: nat, revision: nat)
    ensures IsCurrent(s.monitor, run, revision) <==> EnvOf(s, run).Current(revision)
    ensures IsCurrent(s.monitor, run, revision) <==>
              s.monitor.run == Some(run) && s.monitor.available && s.monitor.revision == revision
  {
  }

  // ----- Sums over runs -------------------------------------------------------------------

  ghost function Sum(xs: seq<nat>): nat {
    if xs == [] then 0 else Sum(xs[..|xs| - 1]) + xs[|xs| - 1]
  }

  /** All but one of the numbers are zero. */
  lemma {:induction false} SumOfOne(xs: seq<nat>, i: nat)
    requires i < |xs| && forall k | 0 <= k < |xs| && k != i :: xs[k] == 0
    ensures Sum(xs) == xs[i]
  {
    var init := xs[..|xs| - 1];
    if i == |xs| - 1 {
      SumOfNone(init);
    } else {
      SumOfOne(init, i);
    }
  }

  lemma {:induction false} SumOfNone(xs: seq<nat>)
    requires forall k | 0 <= k < |xs| :: xs[k] == 0
    ensures Sum(xs) == 0
  {
    if xs == [] {
    } else {
      SumOfNone(xs[..|xs| - 1]);
    }
  }

  lemma {:induction false} SumAtLeast(xs: seq<nat>, i: nat)
    requires i < |xs|
    ensures xs[i] <= Sum(xs)
  {
    if i < |xs| - 1 {
      SumAtLeast(xs[..|xs| - 1], i);
    }
  }

  // ----- Bounded checks -------------------------------------------------------------------

  /** The run has entered a HealthCheck for this revision. */
  ghost predicate Served(r: RunState, revision: nat) {
    exists i | 0 <= i < |r.launches| :: r.launches[i].job.revision == revision
  }

  lemma ServedInRange(s: System, run: nat, revision: nat)
    requires Inv(s) && run < |s.runs| && Served(s.runs[run], revision)
    ensures s.runs[run].birth <= revision <= s.runs[run].loop.pending.revision
  {
    var r := s.runs[run];
    assert RunOk(r, s.monitor.channels[run], EnvOf(s, run));
    var i :| 0 <= i < |r.launches| && r.launches[i].job.revision == revision;
    assert LaunchTimely(r, r.launches[i], s.now);
  }

  /** A revision is served by at most one run. */
  lemma ServedOnce(s: System, i: nat, j: nat, revision: nat)
    requires Inv(s) && i < |s.runs| && j < |s.runs| && i != j
    ensures !(Served(s.runs[i], revision) && Served(s.runs[j], revision))
  {
    if Served(s.runs[i], revision) && Served(s.runs[j], revision) {
      ServedInRange(s, i, revision);
      ServedInRange(s, j, revision);
    }
  }

  /** HealthChecks of the job over all runs ever started. */
  ghost function TimesInAll(s: System, job: Job, retry: bool): nat {
    Sum(seq(|s.runs|, i requires 0 <= i < |s.runs| => Times(s.runs[i].launches, job, retry)))
  }

  /** The run, if any, that served the revision. */
  lemma OnlyServer(s: System, revision: nat) returns (server: Option<nat>)
    requires Inv(s)
    ensures server.Some? ==> server.value < |s.runs| && Served(s.runs[server.value], revision)
    ensures forall k | 0 <= k < |s.runs| && server != Some(k) :: !Served(s.runs[k], revision)
  {
    server := None;
    if run: nat :| run < |s.runs| && Served(s.runs[run], revision) {
      server := Some(run);
      forall k | 0 <= k < |s.runs| && k != run ensures !Served(s.runs[k], revision) {
        ServedOnce(s, run, k, revision);
      }
    }
  }

  lemma TimesUnserved(r: RunState, job: Job, retry: bool)
    requires !Served(r, job.revision)
    ensures Times(r.launches, job, retry) == 0
  {
    TimesNone(r.launches, job, retry);
  }

  /**
   * Over all runs, a provider is checked for a revision at most once per occurrence in that
   * revision's snapshot, and retried at most once per check.
   */
  lemma ChecksAreBounded(s: System, job: Job)
    requires Reachable(s)
    ensures TimesInAll(s, job, false) <= Occurrences(s.seen, job)
    ensures TimesInAll(s, job, true) <= TimesInAll(s, job, false)
  {
    ReachableInv(s);
    var first := seq(|s.runs|, i requires 0 <= i < |s.runs| => Times(s.runs[i].launches, job, false));
    var again := seq(|s.runs|, i requires 0 <= i < |s.runs| => Times(s.runs[i].launches, job, true));
    var server := OnlyServer(s, job.revision);
    forall k | 0 <= k < |s.runs| && server != Some(k) ensures first[k] == 0 && again[k] == 0 {
      TimesUnserved(s.runs[k], job, false);
      TimesUnserved(s.runs[k], job, true);
    }
    if server.None? {
      SumOfNone(first);
      SumOfNone(again);
    } else {
      SumOfOne(first, server.value);
      SumOfOne(again, server.value);
      assert RunOk(s.runs[server.value], s.monitor.channels[server.value], EnvOf(s, server.value));
      assert Conserved(s.runs[server.value], EnvOf(s, server.value), job);
    }
  }

  // ----- Retirement -----------------------------------------------------------------------

  /** Every revision, or one. */
  ghost predicate InScope(job: Job, scope: Option<nat>) {
    scope.None? || job.revision == scope.value
  }

  ghost predicate Poised(w: Worker, scope: Option<nat>) {
    w.PastGuard() && InScope(w.job, scope)
  }

  /** HealthChecks in scope entered by the worker, and by any worker. */
  ghost function Fires(ls: seq<Launch>, worker: nat, scope: Option<nat>): nat {
    if ls == [] then 0
    else Fires(ls[..|ls| - 1], worker, scope)
         + One(ls[|ls| - 1].worker == worker && InScope(ls[|ls| - 1].job, scope))
  }

  ghost function AllFires(ls: seq<Launch>, scope: Option<nat>): nat {
    if ls == [] then 0 else AllFires(ls[..|ls| - 1], scope) + One(InScope(ls[|ls| - 1].job, scope))
  }

  lemma {:induction false} FiresByWorker(ls: seq<Launch>, scope: Option<nat>)
    requires forall i | 0 <= i < |ls| :: ls[i].worker < WORKERS
    ensures AllFires(ls, scope) == Fires(ls, 0, scope) + Fires(ls, 1, scope) + Fires(ls, 2, scope) + Fires(ls, 3, scope)
  {
    if ls == [] {
    } else {
      FiresByWorker(ls[..|ls| - 1], scope);
    }
  }

  /** The run has been stopped or replaced, or the revision superseded, or the revision is not this run's. */
  ghost predicate Retired(s: System, run: nat, scope: Option<nat>) {
    match scope
    case None => s.monitor.run != Some(run)
    case Some(v) => v <= s.monitor.revision && !(s.monitor.run == Some(run) && s.monitor.revision == v)
  }

  lemma RetiredForGood(s: System, e: Event, run: nat, scope: Option<nat>)
    requires Inv(s) && Enabled(s, e) && run < |s.runs| && Retired(s, run, scope)
    ensures Retired(Apply(s, e), run, scope)
  {
  }

  lemma TurnPoised(w: Worker, turn: Turn, stopped: bool, now: nat, current: bool, scope: Option<nat>)
    requires CanTurn(w, turn, stopped, now) && (w.Busy() && InScope(w.job, scope) ==> !current)
    ensures One(Poised(TakeTurn(w, turn, stopped, now, current), scope)) + One(turn.Enter? && InScope(w.job, scope))
         == One(Poised(w, scope))
  {
  }

  lemma FiresAppend(ls: seq<Launch>, l: Launch, w: nat, scope: Option<nat>)
    ensures Fires(ls + [l], w, scope) == Fires(ls, w, scope) + One(l.worker == w && InScope(l.job, scope))
  {
    assert (ls + [l])[..|ls|] == ls;
  }

  lemma StepFires(r: RunState, c: Channels, env: Env, step: Step, w: nat, scope: Option<nat>)
    requires CanStep(r, c, env, step) && w < |r.workers|
    requires forall job: Job | InScope(job, scope) :: !env.Current(job.revision)
    ensures var r' := TakeStep(r, c, env, step);
            && |r'.workers| == |r.workers|
            && Fires(r'.launches, w, scope) + One(Poised(r'.workers[w], scope))
            == Fires(r.launches, w, scope) + One(Poised(r.workers[w], scope))
  {
    if step.Work? {
      var worker := r.workers[step.worker];
      var current := worker.Busy() && env.Current(worker.job.revision);
      TurnPoised(worker, step.turn, c.stopped, env.now, current, scope);
      if step.turn.Enter? {
        FiresAppend(r.launches, Entered(worker, step.worker, env.now), w, scope);
      }
    }
  }

  /** The launches of a worker so far, and the one it may be about to make. */
  ghost function Spent(r: RunState, w: nat, scope: Option<nat>): nat
    requires w < |r.workers|
  {
    Fires(r.launches, w, scope) + One(Poised(r.workers[w], scope))
  }

  lemma EventFires(s: System, e: Event, run: nat, w: nat, scope: Option<nat>)
    requires Inv(s) && Enabled(s, e) && run < |s.runs| && Retired(s, run, scope) && w < |s.runs[run].workers|
    ensures var t := Apply(s, e);
            && run < |t.runs| && w < |t.runs[run].workers|
            && Spent(t.runs[run], w, scope) == Spent(s.runs[run], w, scope)
  {
    if e.At? && e.run == run {
      StepFires(s.runs[run], s.monitor.channels[run], EnvOf(s, run), e.step, w, scope);
    } else {
      assert Apply(s, e).runs[run] == s.runs[run];
    }
  }

  /** In retirement a worker's launches are used up by its being past the guard already, and by nothing else. */
  lemma {:induction false} RetirementConserved(s: System, es: seq<Event>, run: nat, w: nat, scope: Option<nat>)
    requires Inv(s) && Possible(s, es) && run < |s.runs| && Retired(s, run, scope) && w < |s.runs[run].workers|
    ensures var s' := Execute(s, es);
            && run < |s'.runs| && w < |s'.runs[run].workers|
            && Fires(s'.runs[run].launches, w, scope) + One(Poised(s'.runs[run].workers[w], scope))
            == Fires(s.runs[run].launches, w, scope) + One(Poised(s.runs[run].workers[w], scope))
    decreases |es|
  {
    if es == [] {
    } else {
      EventInv(s, es[0]);
      RetiredForGood(s, es[0], run, scope);
      EventFires(s, es[0], run, w, scope);
      RetirementConserved(Apply(s, es[0]), es[1..], run, w, scope);
    }
  }

  /**
   * Once a run is stopped or replaced (scope None), or a revision superseded (scope Some), each
   * worker enters at most one more HealthCheck for it, only if it was past the guard already;
   * so at most four more are ever entered.
   */
  lemma RetirementBound(s: System, es: seq<Event>, run: nat, scope: Option<nat>)
    requires Reachable(s) && Possible(s, es) && run < |s.runs| && Retired(s, run, scope)
    ensures var s' := Execute(s, es);
            && |s.runs[run].workers| == WORKERS && run < |s'.runs|
            && (forall w | 0 <= w < WORKERS ::
                  Fires(s'.runs[run].launches, w, scope)
                  <= Fires(s.runs[run].launches, w, scope) + One(Poised(s.runs[run].workers[w], scope)))
            && AllFires(s'.runs[run].launches, scope) <= AllFires(s.runs[run].launches, scope) + 4
  {
    ReachableInv(s);
    ExecuteInv(s, es);
    LaunchesByWorkers(s, run);
    forall w | 0 <= w < WORKERS
      ensures run < |Execute(s, es).runs|
      ensures Fires(Execute(s, es).runs[run].launches, w, scope)
           <= Fires(s.runs[run].launches, w, scope) + One(Poised(s.runs[run].workers[w], scope))
    {
      RetirementConserved(s, es, run, w, scope);
    }
    var s' := Execute(s, es);
    HistoryGrows(s, es);
    LaunchesByWorkers(s', run);
    FiresByWorker(s.runs[run].launches, scope);
    FiresByWorker(s'.runs[run].launches, scope);
  }

  lemma LaunchesByWorkers(s: System, run: nat)
    requires Inv(s) && run < |s.runs|
    ensures |s.runs[run].workers| == WORKERS
    ensures forall i | 0 <= i < |s.runs[run].launches| :: s.runs[run].launches[i].worker < WORKERS
  {
    var r := s.runs[run];
    assert RunOk(r, s.monitor.channels[run], EnvOf(s, run));
    forall i | 0 <= i < |r.launches| ensures r.launches[i].worker < WORKERS {
      assert LaunchTimely(r, r.launches[i], s.now);
    }
  }

  /** HealthChecks for a revision over all runs ever started. */
  ghost function FiresInAll(s: System, revision: nat): nat {
    Sum(seq(|s.runs|, i requires 0 <= i < |s.runs| => AllFires(s.runs[i].launches, Some(revision))))
  }

  lemma {:induction false} UnservedFires(ls: seq<Launch>, revision: nat)
    requires forall i | 0 <= i < |ls| :: ls[i].job.revision != revision
    ensures AllFires(ls, Some(revision)) == 0
  {
    if ls == [] {
    } else {
      UnservedFires(ls[..|ls| - 1], revision);
    }
  }

  /** A superseded revision is served, if at all, by a run that exists already. */
  lemma ServerIsOld(s: System, es: seq<Event>, run: nat, revision: nat)
    requires Inv(s) && Possible(s, es) && revision < s.monitor.revision
    requires run < |Execute(s, es).runs| && Served(Execute(s, es).runs[run], revision)
    ensures run < |s.runs|
  {
    HistoryGrows(s, es);
    ExecuteInv(s, es);
    ServedInRange(Execute(s, es), run, revision);
  }

  /** All the HealthChecks for a revision are those of one run. */
  lemma FiresOfTheServer(s: System, revision: nat) returns (server: Option<nat>)
    requires Inv(s)
    ensures server.None? ==> FiresInAll(s, revision) == 0
    ensures server.Some? ==> server.value < |s.runs| && Served(s.runs[server.value], revision)
    ensures server.Some? ==> FiresInAll(s, revision) == AllFires(s.runs[server.value].launches, Some(revision))
  {
    var fires := seq(|s.runs|, i requires 0 <= i < |s.runs| => AllFires(s.runs[i].launches, Some(revision)));
    server := OnlyServer(s, revision);
    forall k | 0 <= k < |s.runs| && server != Some(k) ensures fires[k] == 0 {
      UnservedFires(s.runs[k].launches, revision);
    }
    if server.None? {
      SumOfNone(fires);
    } else {
      SumOfOne(fires, server.value);
    }
  }

  lemma FiresAtLeast(s: System, revision: nat, run: nat)
    requires run < |s.runs|
    ensures AllFires(s.runs[run].launches, Some(revision)) <= FiresInAll(s, revision)
  {
    SumAtLeast(seq(|s.runs|, i requires 0 <= i < |s.runs| => AllFires(s.runs[i].launches, Some(revision))), run);
  }

  /** Once superseded, a revision causes at most four more HealthChecks, counting every run. */
  lemma SupersededRevisionBound(s: System, es: seq<Event>, revision: nat)
    requires Reachable(s) && Possible(s, es) && revision < s.monitor.revision
    ensures FiresInAll(Execute(s, es), revision) <= FiresInAll(s, revision) + 4
  {
    ReachableInv(s);
    ExecuteInv(s, es);
    var server := FiresOfTheServer(Execute(s, es), revision);
    if server.Some? {
      ServerIsOld(s, es, server.value, revision);
      RetirementBound(s, es, server.value, Some(revision));
      FiresAtLeast(s, revision, server.value);
    }
  }
}
