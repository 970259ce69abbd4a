/**
 * The health monitor as a system of interleaved steps: callers of the monitor, the select
 * loop of every run ever started, four workers per run, and a clock in milliseconds. Taking a
 * wake token and taking the snapshot are separate steps, as are a timer firing and its guard,
 * and a guard and the HealthCheck it allows.
 */
module HealthSystem {
  import opened Options
  import opened HealthMonitor

  datatype LoopPc = Selecting | TokenTaken | Fired | Left

  /** One call of HealthCheck: by which worker, for which job, when, and whether as a retry. */
  datatype Launch = Launch(worker: nat, job: Job, at: nat, retry: bool, returned: nat)

  /** What a worker found after a first check: did it fail, and was the job still current? */
  datatype Verdict = Verdict(job: Job, failed: bool, current: bool)

  /**
   * A run. `birth`, `launches`, `verdicts` and `picked` are history: the revision at which the run
   * was started, every HealthCheck it entered, what it found after each, and when its loop picked
   * up each revision.
   */
  datatype RunState = RunState(
    pc: LoopPc, loop: Loop, workers: seq<Worker>,
    birth: nat, launches: seq<Launch>, verdicts: seq<Verdict>, picked: map<nat, nat>)

  /** The whole system; `seen[v]` is history: what the monitor published as revision v. */
  datatype System = System(now: nat, monitor: Monitor, runs: seq<RunState>, seen: seq<Snapshot>)

  const INITIAL := System(0, IDLE, [], [Snapshot(0, false, [])])

  /** A step of one run. */
  datatype Step =
    | TakeToken
    | TakeSnapshot
    | Fire
    | GuardDue
    | LeaveLoop
    | Dispatch(worker: nat)
    | Collect(worker: nat)
    | Work(worker: nat, turn: Turn)

  datatype Event =
    | Update(fingerprint: string, available: bool)
    | SetProviders(providers: seq<Provider>)
    | Start
    | Stop
    | Tick(millis: nat)
    | At(run: nat, step: Step)

  /** What a run reads of the rest of the system; `seen` is there for the history only. */
  datatype Env = Env(live: bool, now: nat, latest: Snapshot, seen: seq<Snapshot>)
  {
    predicate Current(revision: nat) {
      live && latest.available && latest.revision == revision
    }
  }

  function NewRun(birth: nat): RunState {
    RunState(Selecting, EMPTY_LOOP, [Resting, Resting, Resting, Resting], birth, [], [], map[])
  }

  predicate CanStep(r: RunState, c: Channels, env: Env, step: Step) {
    match step
    case TakeToken => r.pc.Selecting? && c.wake
    case TakeSnapshot => r.pc.TokenTaken?
    case Fire => r.pc.Selecting? && r.loop.due.Some? && env.now >= r.loop.due.value
    case GuardDue => r.pc.Fired?
    case LeaveLoop => r.pc.Selecting? && c.stopped
    case Dispatch(w) =>
      r.pc.Selecting? && FirstFree(r.loop.queue, r.loop.inFlight) < |r.loop.queue| && w < |r.workers|
              && r.workers[w].Resting?
    case Collect(w) => r.pc.Selecting? && w < |r.workers| && r.workers[w].Reporting?
    case Work(w, turn) => w < |r.workers| && CanTurn(r.workers[w], turn, c.stopped, env.now)
  }

  /** The job the loop offers next. */
  function NextJob(l: Loop): Job
    requires FirstFree(l.queue, l.inFlight) < |l.queue|
  {
    Job(l.pending.revision, l.queue[FirstFree(l.queue, l.inFlight)])
  }

  function Entered(w: Worker, index: nat, now: nat): Launch
    requires w.PastGuard()
  {
    if w.Cleared? then Launch(index, w.job, now, false, now) else Launch(index, w.job, now, true, w.returned)
  }

  /** The verdict as the event brings it, and the network as the monitor has it. */
  function Found(job: Job, failed: bool, env: Env): Verdict {
    Verdict(job, failed, env.live && env.latest.available && env.latest.revision == job.revision)
  }

  function TakeStep(r: RunState, c: Channels, env: Env, step: Step): RunState
    requires CanStep(r, c, env, step)
  {
    match step
    case TakeToken => r.(pc := TokenTaken)
    case TakeSnapshot =>
      if !env.live then r.(pc := Left)
      else if env.latest.revision == r.loop.pending.revision then r.(pc := Selecting)
      else r.(pc := Selecting, loop := Woken(r.loop, env.latest, env.now),
              picked := r.picked[env.latest.revision := env.now])
    case Fire => r.(pc := Fired, loop := r.loop.(due := None))
    case GuardDue => r.(pc := Selecting, loop := Due(r.loop, env.Current(r.loop.pending.revision)))
    case LeaveLoop => r.(pc := Left)
    case Dispatch(w) =>
      r.(loop := Dispatched(r.loop), workers := r.workers[w := Guarding(NextJob(r.loop))])
    case Collect(w) =>
      r.(loop := Completed(r.loop, r.workers[w].job.provider), workers := r.workers[w := Resting])
    case Work(w, turn) =>
      var worker := r.workers[w];
      var current := worker.Busy() && env.Current(worker.job.revision);
      r.(workers := r.workers[w := TakeTurn(worker, turn, c.stopped, env.now, current)],
         launches := if turn.Enter? then r.launches + [Entered(worker, w, env.now)] else r.launches,
         verdicts := if turn.Judge? then r.verdicts + [Found(worker.job, turn.failed, env)] else r.verdicts)
  }

  ghost predicate Shape(s: System) {
    |s.runs| == |s.monitor.channels|
  }

  function EnvOf(s: System, run: nat): Env {
    Env(s.monitor.run == Some(run), s.now, Observed(s.monitor), s.seen)
  }

  predicate Enabled(s: System, e: Event)
    requires Shape(s)
  {
    e.At? ==> e.run < |s.runs| && CanStep(s.runs[e.run], s.monitor.channels[e.run], EnvOf(s, e.run), e.step)
  }

  /** A caller's operation replaces the monitor; a bumped revision is noted in `seen`. */
  function Publish(s: System, m: Monitor): System {
    s.(monitor := m, seen := if m.revision == s.monitor.revision then s.seen else s.seen + [Observed(m)])
  }

  function TokenGone(m: Monitor, run: nat): Monitor
    requires run < |m.channels|
  {
    m.(channels := m.channels[run := m.channels[run].(wake := false)])
  }

  function Apply(s: System, e: Event): (s': System)
    requires Shape(s) && Enabled(s, e)
    ensures Shape(s')
  {
    match e
    case Update(fingerprint, available) => Publish(s, Updated(s.monitor, fingerprint, available))
    case SetProviders(providers) => Publish(s, WithProviders(s.monitor, providers))
    case Start =>
      var m := Started(s.monitor);
      Publish(s.(runs := s.runs + [NewRun(m.revision)]), m)
    case Stop => Publish(s, Stopped(s.monitor))
    case Tick(millis) => s.(now := s.now + millis)
    case At(r, step) =>
      s.(runs := s.runs[r := TakeStep(s.runs[r], s.monitor.channels[r], EnvOf(s, r), step)],
         monitor := if step.TakeToken? then TokenGone(s.monitor, r) else s.monitor)
  }

  /** The events can happen in this order. */
  ghost predicate Possible(s: System, es: seq<Event>)
    requires Shape(s)
    decreases |es|
  {
    es == [] || (Enabled(s, es[0]) && Possible(Apply(s, es[0]), es[1..]))
  }

  ghost function Execute(s: System, es: seq<Event>): (s': System)
    requires Shape(s) && Possible(s, es)
    ensures Shape(s')
    decreases |es|
  {
    if es == [] then s else Execute(Apply(s, es[0]), es[1..])
  }

  /** Some history of events leads from the initial system to this one. */
  ghost predicate Reachable(s: System) {
    exists es :: Possible(INITIAL, es) && Execute(INITIAL, es) == s
  }
}
