/**
 * The network-recovery health monitor (core/mobile/android_network_health.go): the state it
 * guards with its mutex, the select loop of one run, and one worker. Each piece is a record
 * with functions giving the new state of every operation; the classes below perform the same
 * operations by updating fields in place and are proved against those functions.
 */
module HealthMonitor {
  import opened Options
  import opened SortedText
  import opened NetworkFingerprint

  const DEBOUNCE_MILLIS := 2000
  const RETRY_DELAY_MILLIS := 1500
  const WORKERS := 4

  /** The identity of a provider object. */
  type Provider = nat

  datatype Snapshot = Snapshot(revision: nat, available: bool, providers: seq<Provider>)

  /** The two channels of a run: a one-slot wake token, and a stop channel closed at most once. */
  datatype Channels = Channels(wake: bool, stopped: bool)

  /**
   * The monitor. Runs are numbered in the order they were started, `channels[i]` belongs to
   * run i, and `run` is the live one. The revision counter does not wrap.
   */
  datatype Monitor = Monitor(
    fingerprint: string, available: bool, revision: nat, providers: seq<Provider>,
    run: Option<nat>, channels: seq<Channels>)

  const IDLE := Monitor("", false, 0, [], None, [])

  ghost predicate WellFormed(m: Monitor) {
    && (m.run.Some? ==> m.run.value + 1 == |m.channels|)
    && (forall i | 0 <= i < |m.channels| :: m.channels[i].stopped <==> m.run != Some(i))
  }

  // ----- The operations on the monitor, as functions --------------------------------------

  function Wake(m: Monitor): Monitor {
    if m.run.Some? && m.run.value < |m.channels|
    then m.(channels := m.channels[m.run.value := m.channels[m.run.value].(wake := true)])
    else m
  }

  function Updated(m: Monitor, fingerprint: string, available: bool): Monitor {
    if m.fingerprint == fingerprint then m
    else Wake(m.(fingerprint := fingerprint, available := available, revision := m.revision + 1))
  }

  function WithProviders(m: Monitor, providers: seq<Provider>): Monitor {
    Wake(m.(providers := providers, revision := m.revision + 1))
  }

  function StopRun(m: Monitor): Monitor {
    if m.run.Some? && m.run.value < |m.channels|
    then m.(run := None, channels := m.channels[m.run.value := m.channels[m.run.value].(stopped := true)])
    else m.(run := None)
  }

  function Started(m: Monitor): Monitor {
    var n := StopRun(m);
    Wake(n.(run := Some(|n.channels|), channels := n.channels + [Channels(false, false)], revision := n.revision + 1))
  }

  function Stopped(m: Monitor): Monitor {
    StopRun(m).(providers := [], revision := m.revision + 1)
  }

  function Observed(m: Monitor): Snapshot {
    Snapshot(m.revision, m.available, m.providers)
  }

  predicate IsCurrent(m: Monitor, run: nat, revision: nat) {
    m.run == Some(run) && m.available && m.revision == revision
  }

  // ----- Providers in the order of their names --------------------------------------------

  function InOrder(names: seq<string>, providers: map<string, Option<Provider>>): seq<Provider> {
    if names == [] then []
    else if names[0] in providers && providers[names[0]].Some?
    then [providers[names[0]].value] + InOrder(names[1..], providers)
    else InOrder(names[1..], providers)
  }

  lemma {:induction false} InOrderAppend(names: seq<string>, name: string, providers: map<string, Option<Provider>>)
    ensures InOrder(names + [name], providers) == InOrder(names, providers) + InOrder([name], providers)
  {
    if names == [] {
      assert names + [name] == [name];
    } else {
      assert (names + [name])[1..] == names[1..] + [name];
      InOrderAppend(names[1..], name, providers);
    }
  }

  /** Exactly the providers that are there are listed. */
  lemma {:induction false} InOrderMembers(names: seq<string>, providers: map<string, Option<Provider>>, p: Provider)
    ensures p in InOrder(names, providers) <==>
              exists i | 0 <= i < |names| :: names[i] in providers && providers[names[i]] == Some(p)
  {
    if names == [] {
    } else {
      var rest := names[1..];
      InOrderMembers(rest, providers, p);
      assert forall i | 0 <= i < |rest| :: rest[i] == names[i + 1];
      if p in InOrder(rest, providers) {
        var i :| 0 <= i < |rest| && rest[i] in providers && providers[rest[i]] == Some(p);
        assert names[i + 1] in providers && providers[names[i + 1]] == Some(p);
      }
      if i :| 0 < i < |names| && names[i] in providers && providers[names[i]] == Some(p) {
        assert rest[i - 1] in providers && providers[rest[i - 1]] == Some(p);
      }
    }
  }

  /** The keys of the map, ranged over in any order and then sorted. */
  method SortedNames(providers: map<string, Option<Provider>>) returns (names: seq<string>)
    ensures StrictlySorted(names) && Elements(names) == providers.Keys
  {
    var listed: seq<string>, rest := [], providers.Keys;
    while rest != {}
      invariant Elements(listed) + rest == providers.Keys
      decreases |rest|
    {
      var name :| name in rest;
      assert Elements(listed + [name]) == Elements(listed) + {name};
      listed, rest := listed + [name], rest - {name};
    }
    CanonicalForm(listed);
    names := Canonical(listed);
  }

  /** The snapshot of a provider map: its non-nil providers in increasing order of name. */
  method ByName(providers: map<string, Option<Provider>>) returns (snapshot: seq<Provider>)
    ensures forall names :: StrictlySorted(names) && Elements(names) == providers.Keys ==>
              snapshot == InOrder(names, providers)
    ensures exists names :: StrictlySorted(names) && Elements(names) == providers.Keys
  {
    var names := SortedNames(providers);
    snapshot := [];
    for i := 0 to |names|
      invariant snapshot == InOrder(names[..i], providers)
    {
      assert names[..i + 1] == names[..i] + [names[i]];
      InOrderAppend(names[..i], names[i], providers);
      assert names[i] in Elements(names);
      match providers[names[i]]
      case None =>
      case Some(provider) => snapshot := snapshot + [provider];
    }
    assert names[..|names|] == names;
    forall other | StrictlySorted(other) && Elements(other) == providers.Keys
      ensures other == names
    {
      StrictlySortedUnique(names, other);
    }
  }

  // ----- The monitor as the object the callers share --------------------------------------

  class Run {
    var wake: bool
    var stop: bool

    constructor ()
      ensures !wake && !stop
    {
      wake, stop := false, false;
    }

    function View(): Channels
      reads this
    {
      Channels(wake, stop)
    }
  }

  class HealthMonitor {
    var fingerprint: string
    var available: bool
    var revision: nat
    var providers: seq<Provider>
    var run: Run?
    ghost var runs: seq<Run>  // every run ever started, in order

    ghost predicate Valid()
      reads this, runs
    {
      && (run != null ==> runs != [] && run == runs[|runs| - 1])
      && (forall i, j | 0 <= i < j < |runs| :: runs[i] != runs[j])
      && (forall i | 0 <= i < |runs| :: runs[i].stop <==> runs[i] != run)
    }

    ghost function View(): Monitor
      requires Valid()
      reads this, runs
    {
      var all := runs;
      var last: nat := if run == null then 0 else |all| - 1;
      Monitor(fingerprint, available, revision, providers, if run == null then None else Some(last),
        seq(|all|, i requires 0 <= i < |all| reads all => all[i].View()))
    }

    constructor ()
      ensures Valid() && View() == IDLE && runs == []
    {
      fingerprint, available, revision, providers, run, runs := "", false, 0, [], null, [];
    }

    method WakeLocked()
      requires Valid()
      modifies run
      ensures Valid() && View() == Wake(old(View()))
    {
      if run != null && !run.wake {
        run.wake := true;
      }
    }

    method Update(t: Text, info: NetworkInfo)
      requires Valid()
      modifies this, run
      ensures Valid() && runs == old(runs)
      ensures View() == Updated(old(View()), Fingerprint(t, info), Available(t, info))
    {
      var newFingerprint, newAvailable := HealthCheckFingerprint(t, info);
      if fingerprint == newFingerprint {
        return;
      }
      fingerprint, available, revision := newFingerprint, newAvailable, revision + 1;
      WakeLocked();
    }

    method SetProviders(named: map<string, Option<Provider>>)
      requires Valid()
      modifies this, run
      ensures Valid() && runs == old(runs)
      ensures forall names :: StrictlySorted(names) && Elements(names) == named.Keys ==>
                View() == WithProviders(old(View()), InOrder(names, named))
    {
      var snapshot := ByName(named);
      providers, revision := snapshot, revision + 1;
      WakeLocked();
    }

    /** Closing the stop channel twice would panic; only the live run's channel is ever closed. */
    method Retire()
      requires Valid()
      modifies this`run, run
      ensures Valid() && View() == StopRun(old(View()))
    {
      if run != null {
        assert !run.stop;
        run.stop := true;
        run := null;
      }
    }

    method Start()
      requires Valid()
      modifies this, run
      ensures Valid() && View() == Started(old(View()))
      ensures run != null && fresh(run) && runs == old(runs) + [run]
    {
      Retire();
      var next := new Run();
      run, runs, revision := next, runs + [next], revision + 1;
      WakeLocked();
    }

    method Stop()
      requires Valid()
      modifies this, run
      ensures Valid() && runs == old(runs) && View() == Stopped(old(View()))
    {
      Retire();
      providers, revision := [], revision + 1;
    }

    method TakeSnapshot(of: Run) returns (snapshot: Snapshot, active: bool)
      requires Valid()
      ensures snapshot == Observed(View())
      ensures forall i | 0 <= i < |runs| && runs[i] == of :: active <==> View().run == Some(i)
    {
      snapshot, active := Snapshot(revision, available, providers), run == of;
    }

    method Current(of: Run, atRevision: nat) returns (current: bool)
      requires Valid()
      ensures forall i | 0 <= i < |runs| && runs[i] == of :: current <==> IsCurrent(View(), i, atRevision)
    {
      current := run == of && available && revision == atRevision;
    }
  }

  // ----- The select loop of one run -------------------------------------------------------

  datatype Loop = Loop(pending: Snapshot, queue: seq<Provider>, due: Option<nat>, inFlight: set<Provider>)

  const EMPTY_LOOP := Loop(Snapshot(0, false, []), [], None, {})

  /** The first queued provider that no worker holds, or the length of the queue. */
  function FirstFree(queue: seq<Provider>, inFlight: set<Provider>): (i: nat)
    ensures i <= |queue|
  {
    if queue == [] || queue[0] !in inFlight then 0 else 1 + FirstFree(queue[1..], inFlight)
  }

  lemma {:induction false} FirstFreeIsFirst(queue: seq<Provider>, inFlight: set<Provider>)
    ensures var i := FirstFree(queue, inFlight);
            && (forall k | 0 <= k < i :: queue[k] in inFlight)
            && (i < |queue| ==> queue[i] !in inFlight)
  {
    if queue != [] && queue[0] in inFlight {
      FirstFreeIsFirst(queue[1..], inFlight);
      var i := FirstFree(queue[1..], inFlight);
      forall k | 0 <= k < 1 + i ensures queue[k] in inFlight {
        if k > 0 {
          assert queue[k] == queue[1..][k - 1];
        }
      }
    }
  }

  function Dispatched(l: Loop): Loop
    requires FirstFree(l.queue, l.inFlight) < |l.queue|
  {
    var i := FirstFree(l.queue, l.inFlight);
    l.(inFlight := l.inFlight + {l.queue[i]}, queue := l.queue[..i] + l.queue[i + 1..])
  }

  function Completed(l: Loop, provider: Provider): Loop {
    l.(inFlight := l.inFlight - {provider})
  }

  /** A snapshot taken after a wake token; an unchanged revision leaves everything alone. */
  function Woken(l: Loop, snapshot: Snapshot, now: nat): Loop {
    if snapshot.revision == l.pending.revision then l
    else l.(pending := snapshot, queue := [],
            due := if snapshot.available && snapshot.providers != [] then Some(now + DEBOUNCE_MILLIS) else None)
  }

  /** The debounce timer fired; the queue is filled only if the revision is still current. */
  function Due(l: Loop, current: bool): Loop {
    if current then l.(due := None, queue := l.pending.providers) else l.(due := None)
  }

  /** The variables of `checkLoop` and the bodies of its select branches. */
  class CheckLoop {
    var pending: Snapshot
    var queue: seq<Provider>
    var due: Option<nat>
    var inFlight: set<Provider>

    function View(): Loop
      reads this
    {
      Loop(pending, queue, due, inFlight)
    }

    constructor ()
      ensures View() == EMPTY_LOOP
    {
      pending, queue, due, inFlight := Snapshot(0, false, []), [], None, {};
    }

    /** The scan at the head of every turn. */
    method NextFree() returns (nextIndex: nat)
      ensures nextIndex == FirstFree(queue, inFlight)
    {
      nextIndex := 0;
      while nextIndex < |queue| && queue[nextIndex] in inFlight
        invariant nextIndex <= |queue|
        invariant FirstFree(queue, inFlight) == nextIndex + FirstFree(queue[nextIndex..], inFlight)
      {
        assert queue[nextIndex..][1..] == queue[nextIndex + 1..];
        nextIndex := nextIndex + 1;
      }
    }

    method OnDispatch(nextIndex: nat)
      requires nextIndex == FirstFree(queue, inFlight) < |queue|
      modifies this
      ensures View() == Dispatched(old(View()))
    {
      inFlight := inFlight + {queue[nextIndex]};
      queue := queue[..nextIndex] + queue[nextIndex + 1..];
    }

    method OnCompleted(provider: Provider)
      modifies this
      ensures View() == Completed(old(View()), provider)
    {
      inFlight := inFlight - {provider};
    }

    method OnSnapshot(snapshot: Snapshot, now: nat)
      modifies this
      ensures View() == Woken(old(View()), snapshot, now)
    {
      if snapshot.revision == pending.revision {
        return;
      }
      pending, queue := snapshot, [];
      due := None;
      if pending.available && |pending.providers| > 0 {
        due := Some(now + DEBOUNCE_MILLIS);
      }
    }

    method OnDue(current: bool)
      modifies this
      ensures View() == Due(old(View()), current)
    {
      due := None;
      if !current {
        return;
      }
      queue := pending.providers;
    }
  }

  // ----- One worker ----------------------------------------------------------------------

  datatype Job = Job(revision: nat, provider: Provider)

  /** Where a worker stands in `checkWorker` and `checkProvider`. */
  datatype Worker =
    | Resting                                      // waiting for a job
    | Guarding(job: Job)                           // about to ask whether the job is current
    | Cleared(job: Job)                            // the guard held; HealthCheck not yet entered
    | Checking(job: Job)                           // inside HealthCheck
    | Judging(job: Job, returned: nat)             // HealthCheck returned
    | Waiting(job: Job, returned: nat, until: nat) // failed: waiting out the retry delay
    | Reguarding(job: Job, returned: nat)          // about to ask again
    | Recleared(job: Job, returned: nat)           // the second guard held
    | Rechecking(job: Job)                         // inside the retry's HealthCheck
    | Reporting(job: Job)                          // offering the provider back to the loop
    | Quit
  {
    predicate Busy() {
      !Resting? && !Quit?
    }

    predicate PastGuard() {
      Cleared? || Recleared?
    }
  }

  /** One turn of a worker; `failed` is the provider's own verdict on its proxies. */
  datatype Turn = Ask | Enter | Return | Judge(failed: bool) | Elapse | Leave

  predicate CanTurn(w: Worker, turn: Turn, stopped: bool, now: nat) {
    match turn
    case Ask => w.Guarding? || w.Reguarding?
    case Enter => w.Cleared? || w.Recleared?
    case Return => w.Checking? || w.Rechecking?
    case Judge(_) => w.Judging?
    case Elapse => w.Waiting? && now >= w.until
    case Leave => stopped && (w.Resting? || w.Waiting? || w.Reporting?)
  }

  function TakeTurn(w: Worker, turn: Turn, stopped: bool, now: nat, current: bool): Worker
    requires CanTurn(w, turn, stopped, now)
  {
    match w
    case Resting => Quit
    case Guarding(job) => if current then Cleared(job) else Reporting(job)
    case Cleared(job) => Checking(job)
    case Checking(job) => Judging(job, now)
    case Judging(job, at) =>
      if current && turn.failed then Waiting(job, at, now + RETRY_DELAY_MILLIS) else Reporting(job)
    case Waiting(job, at, _) => if turn.Leave? then Reporting(job) else Reguarding(job, at)
    case Reguarding(job, at) => if current then Recleared(job, at) else Reporting(job)
    case Recleared(job, _) => Rechecking(job)
    case Rechecking(job) => Reporting(job)
    case Reporting(_) => Quit
  }
}
