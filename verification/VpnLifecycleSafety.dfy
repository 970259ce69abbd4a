/** What the interleaved VPN service keeps, and what holds whenever it comes to rest. */
module VpnLifecycleSafety {
  import opened Options
  import opened VpnLifecycle

  // ----- Program points -------------------------------------------------------------------

  /** Past the second check of desiredRunning, before the note that the core runs. */
  predicate Committed(life: LifePc) {
    life.InStart? && (life.start.HandOver? || life.start.StartNative? || life.start.NoteRunning?)
  }

  predicate JustStarted(life: LifePc) {
    life.InStart? && (life.start.RecheckLate? || life.start.ShowConnected?)
  }

  /** The core is known not to run: nobody but this thread could change that. */
  predicate CoreDown(life: LifePc) {
    || (life.InStart? && !life.start.Check? && !life.start.CheckCore? && !JustStarted(life))
    || life.InFail? || life.InCatch?
    || (life.InStop? && (life.stop.Clean? || life.stop.ShowDisconnected?))
  }

  /** startCore has shown "connecting", and this thread nothing since. */
  predicate ShownConnecting(life: LifePc) {
    || (life.InStart? && CoreDown(life) && !life.start.ReadConfig? && !life.start.ShowConnecting?)
    || (life.InCatch? && !life.caught.ShowDisconnected?)
  }

  /** This thread will show a final state before its task ends. */
  predicate WillShow(life: LifePc) {
    || ShownConnecting(life) || life.InCancel? || life.InCatch?
    || (life.InStop? && (life.stop.Clean? || life.stop.ShowDisconnected?))
  }

  predicate MayBeRegistered(life: LifePc) {
    || (ShownConnecting(life) && !(life.InCatch? && life.caught.StopNative?))
    || (life.InCancel? && life.cancel.Clean?)
    || (life.InStop? && (life.stop.Decide? || life.stop.Unregister?))
  }

  /** requestStop or onDestroy is under way and may still queue its task. */
  predicate MayQueueStop(main: MainPc) {
    main.Stopping? || (main.Destroying? && !main.destroy.ShutDown?)
  }

  predicate WillQueueStop(main: MainPc) {
    main == Stopping(StopCommandPc.Enqueue) || main == Destroying(DestroyPc.Enqueue)
  }

  predicate StopAhead(s: Service) {
    StopComing(s) || MayQueueStop(s.main)
  }

  // ----- The invariant --------------------------------------------------------------------

  ghost predicate MainOk(s: Service) {
    && (s.main.Starting? ==> s.main.start.Promote? || s.main.start.Enqueue?)
    && (s.shutDown ==> s.main.Ready? && !s.desiredRunning)
    && (s.main.Stopping? || s.main.Destroying? || s.stranded ==> !s.desiredRunning)
    && (s.stranded ==> s.coreRunning && !StopComing(s) && (s.shutDown || s.main == Destroying(ShutDown)))
  }

  ghost predicate LifeOk(s: Service) {
    && (CoreDown(s.life) ==> !s.coreRunning)
    && (JustStarted(s.life) ==> s.coreRunning)
    && (ShownConnecting(s.life) ==> s.state.Connecting? || s.state.Disconnecting?)
    && (s.callback ==> s.coreRunning || MayBeRegistered(s.life))
    && (s.life.InStop? && !s.life.stop.Decide? && !s.life.stop.Unregister? ==> !s.callback)
  }

  ghost predicate NativeOk(s: Service) {
    && (s.native ==> s.coreRunning || s.life == InStart(NoteRunning) || s.nativeStopFailed)
    && (s.coreRunning ==> s.native || s.life == InStop(StopCorePc.NoteStopped))
    && (s.life == InStart(NoteRunning) ==> s.native)
    && (s.life == InStop(StopCorePc.NoteStopped) ==> !s.native || s.nativeStopFailed)
    && (s.coreRunning && s.life.InStop? && !s.life.stop.Decide? ==> s.needsNativeStop)
  }

  /** A running core is wanted and shown, or is being stopped, or was stranded. */
  ghost predicate CoreOk(s: Service) {
    && (s.coreRunning && !s.desiredRunning ==> StopAhead(s) || s.stranded)
    && (s.coreRunning && s.life.InCancel? ==> StopAhead(s) || s.stranded)
    && (s.coreRunning && !s.state.Connected? ==> JustStarted(s.life) || StopAhead(s) || s.stranded)
    && (Committed(s.life) && !s.desiredRunning ==> StopAhead(s))
    && (!s.coreRunning && !s.state.Disconnected? ==> StopComing(s) || WillQueueStop(s.main) || WillShow(s.life))
  }

  /** What is wanted is being started, or runs. */
  ghost predicate WantOk(s: Service) {
    s.desiredRunning && !s.main.Starting? ==>
      if s.tasks != [] then s.tasks[|s.tasks| - 1].StartTask?
      else s.life.InStart? || s.life == InFail(FailPc.ClearDesired) || s.life == InCatch(CatchPc.ClearDesired)
           || (s.coreRunning && s.state.Connected? && s.life.Free?)
  }

  /** Each descriptor is held, or was closed once, or was handed over once. */
  ghost predicate DescriptorsOk(d: Descriptors) {
    multiset(d.closed) + multiset(d.handedOver) + multiset(Listed(d.tunFd)) + multiset(Listed(d.tunPfd))
      == multiset(seq(d.obtained, i => i))
  }

  /** Where a descriptor may be held, attached in `tunPfd` or detached in `tunFd`. */
  predicate MayHoldPfd(life: LifePc) {
    life == InStart(Detach) || (life.InCatch? && !life.caught.StopNative? && !life.caught.ShowDisconnected?)
  }

  predicate MayHoldFd(life: LifePc) {
    life == InStart(Recheck) || life == InStart(HandOver)
  }

  predicate HeldInPlace(s: Service) {
    (s.fds.tunFd.Some? ==> MayHoldFd(s.life)) && (s.fds.tunPfd.Some? ==> MayHoldPfd(s.life))
  }

  ghost predicate Inv(s: Service) {
    MainOk(s) && LifeOk(s) && NativeOk(s) && CoreOk(s) && WantOk(s)
  }

  ghost predicate FdsOk(s: Service) {
    DescriptorsOk(s.fds) && HeldInPlace(s)
  }

  // ----- Every orderly step keeps it ------------------------------------------------------

  lemma QueueEnds(tasks: seq<Task>, t: Task)
    ensures StopQueued(tasks + [t]) <==> StopQueued(tasks) || !t.StartTask?
  {
    assert (tasks + [t])[|tasks|] == t;
    assert forall x :: x in tasks + [t] <==> x in tasks || x == t;
  }

  lemma QueueBegins(tasks: seq<Task>)
    requires tasks != []
    ensures StopQueued(tasks) <==> StopQueued(tasks[1..]) || !tasks[0].StartTask?
  {
    assert tasks == [tasks[0]] + tasks[1..];
    assert forall x :: x in tasks <==> x in tasks[1..] || x == tasks[0];
  }

  lemma EstablishedOk(d: Descriptors)
    requires DescriptorsOk(d) && d.tunPfd.None?
    ensures DescriptorsOk(Established(d))
  {
    assert seq(d.obtained + 1, i => i) == seq(d.obtained, i => i) + [d.obtained];
  }

  lemma ClosedOk(d: Descriptors)
    requires DescriptorsOk(d)
    ensures DescriptorsOk(Closed(d))
  {
    assert multiset(Closed(d).closed) == multiset(d.closed) + multiset(Listed(d.tunFd)) + multiset(Listed(d.tunPfd));
  }

  lemma PassedOnOk(d: Descriptors)
    requires DescriptorsOk(d)
    ensures DescriptorsOk(HandedOver(d)) && (d.tunFd.None? ==> DescriptorsOk(Detached(d)))
  {
  }

  lemma StartCommandKeeps(s: Service, at: StartCommandPc, ok: bool)
    requires Inv(s) && s.main == Starting(at) && (at.Promote? ==> ok)
    ensures Inv(StartCommandStep(s, at, ok))
  {
    QueueEnds(s.tasks, StartTask);
    match at case Promote => case Enqueue =>
  }

  lemma StopCommandKeeps(s: Service, at: StopCommandPc)
    requires Inv(s) && s.main == Stopping(at)
    ensures Inv(StopCommandStep(s, at))
  {
    QueueEnds(s.tasks, StopTask);
    match at case ReadState => case ShowDisconnecting => case Enqueue =>
  }

  lemma DestroyReadsKeeps(s: Service, at: DestroyPc)
    requires Inv(s) && s.main == Destroying(at) && (at.ReadCore? || at.ReadState?)
    ensures Inv(DestroyStep(s, at))
  {
    match at case ReadCore => case ReadState =>
  }

  lemma DestroyActsKeeps(s: Service, at: DestroyPc)
    requires Inv(s) && s.main == Destroying(at) && (at.ShowDisconnecting? || at.Enqueue? || at.ShutDown?)
    ensures Inv(DestroyStep(s, at))
  {
    QueueEnds(s.tasks, DestroyTask);
    match at case ShowDisconnecting => case Enqueue => case ShutDown =>
  }

  lemma StartDecidesKeeps(s: Service, at: StartCorePc, ok: bool)
    requires Inv(s) && s.life == InStart(at) && (at.Check? || at.CheckCore? || at.ReadConfig? || at.ShowConnecting?)
    ensures Inv(StartCoreStep(s, at, ok))
  {
    match at case Check => case CheckCore => case ReadConfig => case ShowConnecting =>
  }

  lemma StartRegistersKeeps(s: Service, at: StartCorePc, ok: bool)
    requires Inv(s) && s.life == InStart(at) && (at.Install? || at.Register?)
    ensures Inv(StartCoreStep(s, at, ok))
  {
    match at case Install => case Register =>
  }

  lemma StartEstablishesKeeps(s: Service, ok: bool)
    requires Inv(s) && s.life == InStart(Establish)
    ensures Inv(StartCoreStep(s, Establish, ok))
  {
  }

  lemma StartDetachesKeeps(s: Service, ok: bool)
    requires Inv(s) && s.life == InStart(Detach)
    ensures Inv(StartCoreStep(s, Detach, ok))
  {
  }

  lemma StartHandsOverKeeps(s: Service, at: StartCorePc, ok: bool)
    requires Inv(s) && s.life == InStart(at) && (at.Recheck? || at.HandOver?)
    ensures Inv(StartCoreStep(s, at, ok))
  {
    match at case Recheck => case HandOver =>
  }

  lemma StartRunsKeeps(s: Service, at: StartCorePc, ok: bool)
    requires Inv(s) && s.life == InStart(at)
    requires at.StartNative? || at.NoteRunning? || at.RecheckLate? || at.ShowConnected?
    ensures Inv(StartCoreStep(s, at, ok))
  {
    match at case StartNative => case NoteRunning => case RecheckLate => case ShowConnected =>
  }

  lemma EndOfStartKeeps(s: Service, ok: bool)
    requires Inv(s) && (s.life.InCancel? || s.life.InFail?)
    ensures Inv(LifeStep(s, ok))
  {
    match s.life
    case InCancel(at) => match at { case Clean => case ShowDisconnected => }
    case InFail(at) => match at { case ClearDesired => case ShowDisconnected => }
  }

  lemma CatchKeeps(s: Service, at: CatchPc, ok: bool)
    requires Inv(s) && s.life == InCatch(at)
    ensures Inv(CatchStep(s, at, ok))
  {
    match at case ClearDesired => case NoteStopped => case Clean => case StopNative => case ShowDisconnected =>
  }

  lemma StopCoreKeeps(s: Service, at: StopCorePc, ok: bool)
    requires Inv(s) && s.life == InStop(at)
    ensures Inv(StopCoreStep(s, at, ok))
  {
    match at
    case Decide => case Unregister => case StopNative => case NoteStopped => case Clean => case ShowDisconnected =>
  }

  lemma NextTaskKeeps(s: Service, ok: bool)
    requires Inv(s) && s.life.Free? && s.tasks != []
    ensures Inv(LifeStep(s, ok))
  {
    QueueBegins(s.tasks);
  }

  lemma MainKeeps(s: Service, ok: bool)
    requires Inv(s) && !s.main.Ready? && (s.main == Starting(Promote) ==> ok)
    ensures Inv(MainStep(s, ok))
  {
    match s.main
    case Starting(at) => StartCommandKeeps(s, at, ok);
    case Stopping(at) => StopCommandKeeps(s, at);
    case Destroying(at) =>
      if at.ReadCore? || at.ReadState? {
        DestroyReadsKeeps(s, at);
      } else {
        DestroyActsKeeps(s, at);
      }
  }

  lemma LifeKeeps(s: Service, ok: bool)
    requires Inv(s) && (s.life.Free? ==> s.tasks != [])
    ensures Inv(LifeStep(s, ok))
  {
    match s.life
    case Free => NextTaskKeeps(s, ok);
    case InStart(at) =>
      if at.Check? || at.CheckCore? || at.ReadConfig? || at.ShowConnecting? {
        StartDecidesKeeps(s, at, ok);
      } else if at.Install? || at.Register? {
        StartRegistersKeeps(s, at, ok);
      } else if at.Establish? {
        StartEstablishesKeeps(s, ok);
      } else if at.Detach? {
        StartDetachesKeeps(s, ok);
      } else if at.Recheck? || at.HandOver? {
        StartHandsOverKeeps(s, at, ok);
      } else {
        StartRunsKeeps(s, at, ok);
      }
    case InCatch(at) => CatchKeeps(s, at, ok);
    case InStop(at) => StopCoreKeeps(s, at, ok);
    case _ => EndOfStartKeeps(s, ok);
  }

  lemma StepKeeps(s: Service, e: Event)
    requires Inv(s) && Enabled(s, e) && Orderly(s, e)
    ensures Inv(Apply(s, e))
  {
    match e
    case Main(ok) => MainKeeps(s, ok);
    case Life(ok) => LifeKeeps(s, ok);
    case _ =>
  }

  /** One of the things a step does to the descriptors. */
  ghost predicate FdsMove(d: Descriptors, d': Descriptors) {
    || d' == d || d' == Closed(d) || d' == HandedOver(d)
    || (d.tunPfd.None? && d' == Established(d))
    || (d.tunFd.None? && d' == Detached(d))
  }

  lemma FdsMoveOk(d: Descriptors, d': Descriptors)
    requires DescriptorsOk(d) && FdsMove(d, d')
    ensures DescriptorsOk(d')
  {
    ClosedOk(d);
    PassedOnOk(d);
    if d' == Established(d) && d.tunPfd.None? {
      EstablishedOk(d);
    }
  }

  lemma EstablishFds(s: Service, ok: bool)
    requires s.life == InStart(Establish) && HeldInPlace(s)
    ensures FdsMove(s.fds, StartCoreStep(s, Establish, ok).fds) && HeldInPlace(StartCoreStep(s, Establish, ok))
  {
  }

  lemma DetachFds(s: Service, ok: bool)
    requires s.life == InStart(Detach) && HeldInPlace(s)
    ensures FdsMove(s.fds, StartCoreStep(s, Detach, ok).fds) && HeldInPlace(StartCoreStep(s, Detach, ok))
  {
  }

  lemma PassingFds(s: Service, at: StartCorePc, ok: bool)
    requires s.life == InStart(at) && HeldInPlace(s) && (at.Recheck? || at.HandOver?)
    ensures FdsMove(s.fds, StartCoreStep(s, at, ok).fds) && HeldInPlace(StartCoreStep(s, at, ok))
  {
    match at case Recheck => case HandOver =>
  }

  lemma StartFds(s: Service, at: StartCorePc, ok: bool)
    requires s.life == InStart(at) && HeldInPlace(s)
    ensures FdsMove(s.fds, StartCoreStep(s, at, ok).fds) && HeldInPlace(StartCoreStep(s, at, ok))
  {
    if at.Establish? {
      EstablishFds(s, ok);
    } else if at.Detach? {
      DetachFds(s, ok);
    } else if at.Recheck? || at.HandOver? {
      PassingFds(s, at, ok);
    }
  }

  lemma CatchFds(s: Service, at: CatchPc, ok: bool)
    requires s.life == InCatch(at) && HeldInPlace(s)
    ensures FdsMove(s.fds, CatchStep(s, at, ok).fds) && HeldInPlace(CatchStep(s, at, ok))
  {
    match at case ClearDesired => case NoteStopped => case Clean => case StopNative => case ShowDisconnected =>
  }

  lemma StopFds(s: Service, at: StopCorePc, ok: bool)
    requires s.life == InStop(at) && HeldInPlace(s)
    ensures FdsMove(s.fds, StopCoreStep(s, at, ok).fds) && HeldInPlace(StopCoreStep(s, at, ok))
  {
    match at
    case Decide => case Unregister => case StopNative => case NoteStopped => case Clean => case ShowDisconnected =>
  }

  lemma LifeFds(s: Service, ok: bool)
    requires HeldInPlace(s) && (s.life.Free? ==> s.tasks != [])
    ensures FdsMove(s.fds, LifeStep(s, ok).fds) && HeldInPlace(LifeStep(s, ok))
  {
    match s.life
    case Free =>
    case InStart(at) => StartFds(s, at, ok);
    case InCatch(at) => CatchFds(s, at, ok);
    case InStop(at) => StopFds(s, at, ok);
    case InCancel(at) => CancelFds(s, at);
    case InFail(at) => FailFds(s, at);
  }

  lemma CancelFds(s: Service, at: CancelPc)
    requires s.life == InCancel(at) && HeldInPlace(s)
    ensures FdsMove(s.fds, CancelStep(s, at).fds) && HeldInPlace(CancelStep(s, at))
  {
    match at case Clean => case ShowDisconnected =>
  }

  lemma FailFds(s: Service, at: FailPc)
    requires s.life == InFail(at) && HeldInPlace(s)
    ensures FdsMove(s.fds, FailStep(s, at).fds) && HeldInPlace(FailStep(s, at))
  {
    match at case ClearDesired => case ShowDisconnected =>
  }

  /** Every step, orderly or not, keeps each descriptor in one place. */
  lemma FdsKeep(s: Service, e: Event)
    requires FdsOk(s) && Enabled(s, e)
    ensures FdsOk(Apply(s, e))
  {
    match e
    case Life(ok) =>
      LifeFds(s, ok);
      FdsMoveOk(s.fds, LifeStep(s, ok).fds);
    case _ =>
  }

  lemma {:induction false} FdsKept(s: Service, es: seq<Event>)
    requires FdsOk(s) && Possible(s, es)
    ensures FdsOk(Execute(s, es))
    decreases |es|
  {
    if es == [] {
    } else {
      FdsKeep(s, es[0]);
      FdsKept(Apply(s, es[0]), es[1..]);
    }
  }

  lemma {:induction false} RunKeeps(s: Service, es: seq<Event>)
    requires Inv(s) && FdsOk(s) && Possible(s, es) && OrderlyRun(s, es)
    ensures Inv(Execute(s, es)) && FdsOk(Execute(s, es))
    decreases |es|
  {
    if es == [] {
    } else {
      StepKeeps(s, es[0]);
      FdsKeep(s, es[0]);
      RunKeeps(Apply(s, es[0]), es[1..]);
    }
  }

  lemma CreatedOk()
    ensures Inv(CREATED) && FdsOk(CREATED)
  {
  }

  // ----- What holds at rest ---------------------------------------------------------------

  /**
   * After every orderly history of start, stop, revoke and destroy, however the two threads
   * interleaved: whenever the executor is drained and both threads are idle, what was asked
   * for, the running core and the shown state agree, and Kotlin holds no TUN descriptor,
   * exactly unless onDestroy stranded the core.
   */
  lemma AtRestAgreesUnlessStranded(es: seq<Event>)
    requires Possible(CREATED, es) && OrderlyRun(CREATED, es) && Quiescent(Execute(CREATED, es))
    ensures Agrees(Execute(CREATED, es)) <==> !Execute(CREATED, es).stranded
  {
    CreatedOk();
    RunKeeps(CREATED, es);
    RestAgrees(Execute(CREATED, es));
  }

  lemma RestAgrees(s: Service)
    requires Inv(s) && FdsOk(s) && Quiescent(s)
    ensures Agrees(s) <==> !s.stranded
  {
  }

  // ----- When onDestroy is safe -----------------------------------------------------------

  /**
   * onDestroy arrives while a native start can no longer be cancelled, with further starts
   * queued and no stop: all three can be told before the call.
   */
  predicate Exposed(s: Service) {
    Committed(s.life) && s.tasks != [] && !StopQueued(s.tasks)
  }

  /** After onDestroy read "not running": a stop comes, nothing will run, or "disconnected" will not be shown. */
  predicate Covered(s: Service) {
    || StopComing(s)
    || (!s.coreRunning && !Committed(s.life))
    || (s.tasks == [] && !s.state.Disconnected? && (Committed(s.life) || JustStarted(s.life) || s.life.Free?))
  }

  predicate Calm(s: Service) {
    && !s.stranded
    && (s.main.Destroying? ==> !s.desiredRunning)
    && (s.main == Destroying(ReadCore) ==> !Exposed(s))
    && (s.main == Destroying(DestroyPc.ReadState) ==> Covered(s))
  }

  lemma StartCalm(s: Service, at: StartCorePc, ok: bool)
    requires Inv(s) && Calm(s) && s.life == InStart(at)
    ensures Calm(StartCoreStep(s, at, ok))
  {
    match at
    case Check => case CheckCore => case ReadConfig => case ShowConnecting => case Install => case Register =>
    case Establish => case Detach => case Recheck => case HandOver => case StartNative =>
    case NoteRunning => case RecheckLate => case ShowConnected =>
  }

  lemma StopCalm(s: Service, at: StopCorePc, ok: bool)
    requires Inv(s) && Calm(s) && s.life == InStop(at)
    ensures Calm(StopCoreStep(s, at, ok))
  {
    match at
    case Decide => case Unregister => case StopNative => case NoteStopped => case Clean => case ShowDisconnected =>
  }

  lemma CatchCalm(s: Service, at: CatchPc, ok: bool)
    requires Inv(s) && Calm(s) && s.life == InCatch(at)
    ensures Calm(CatchStep(s, at, ok))
  {
    match at case ClearDesired => case NoteStopped => case Clean => case StopNative => case ShowDisconnected =>
  }

  lemma LifeCalm(s: Service, ok: bool)
    requires Inv(s) && Calm(s) && (s.life.Free? ==> s.tasks != [])
    ensures Calm(LifeStep(s, ok))
  {
    match s.life
    case Free => QueueBegins(s.tasks);
    case InStart(at) => StartCalm(s, at, ok);
    case InStop(at) => StopCalm(s, at, ok);
    case InCatch(at) => CatchCalm(s, at, ok);
    case InCancel(at) => match at { case Clean => case ShowDisconnected => }
    case InFail(at) => match at { case ClearDesired => case ShowDisconnected => }
  }

  lemma MainCalm(s: Service, ok: bool)
    requires Inv(s) && Calm(s) && !s.main.Ready?
    ensures Calm(MainStep(s, ok))
  {
    match s.main
    case Starting(at) => StartCommandCalm(s, at, ok);
    case Stopping(at) => StopCommandCalm(s, at);
    case Destroying(at) => DestroyCalm(s, at);
  }

  lemma StartCommandCalm(s: Service, at: StartCommandPc, ok: bool)
    requires Calm(s) && s.main == Starting(at)
    ensures Calm(StartCommandStep(s, at, ok))
  {
    match at
    case Promote => case ClearDesired => case ShowDisconnected => case Enqueue => case FailClear => case FailShow =>
  }

  lemma StopCommandCalm(s: Service, at: StopCommandPc)
    requires Calm(s) && s.main == Stopping(at)
    ensures Calm(StopCommandStep(s, at))
  {
    match at case ReadState => case ShowDisconnecting => case Enqueue =>
  }

  lemma DestroyCalm(s: Service, at: DestroyPc)
    requires Inv(s) && Calm(s) && s.main == Destroying(at)
    ensures Calm(DestroyStep(s, at))
  {
    match at case ReadCore => case ReadState => case ShowDisconnecting => case Enqueue => case ShutDown =>
  }

  lemma StepCalm(s: Service, e: Event)
    requires Inv(s) && Calm(s) && Enabled(s, e) && Orderly(s, e) && (e.Destroy? ==> !Exposed(s))
    ensures Calm(Apply(s, e))
  {
    match e
    case Life(ok) => LifeCalm(s, ok);
    case Main(ok) => MainCalm(s, ok);
    case _ =>
  }

  /** Whenever onDestroy arrives during the history, the service is not exposed. */
  ghost predicate NeverExposed(s: Service, es: seq<Event>)
    requires Possible(s, es)
    decreases |es|
  {
    es == [] || ((es[0].Destroy? ==> !Exposed(s)) && NeverExposed(Apply(s, es[0]), es[1..]))
  }

  lemma {:induction false} RunCalm(s: Service, es: seq<Event>)
    requires Inv(s) && FdsOk(s) && Calm(s) && Possible(s, es) && OrderlyRun(s, es) && NeverExposed(s, es)
    ensures Calm(Execute(s, es))
    decreases |es|
  {
    if es == [] {
    } else {
      StepKeeps(s, es[0]);
      FdsKeep(s, es[0]);
      StepCalm(s, es[0]);
      RunCalm(Apply(s, es[0]), es[1..]);
    }
  }

  /**
   * After every orderly history in which onDestroy never arrives while the service is exposed,
   * whenever everything is at rest: wish, core, shown state and descriptors agree.
   */
  lemma AtRestAgrees(es: seq<Event>)
    requires Possible(CREATED, es) && OrderlyRun(CREATED, es) && NeverExposed(CREATED, es)
    requires Quiescent(Execute(CREATED, es))
    ensures Agrees(Execute(CREATED, es))
  {
    CreatedOk();
    RunCalm(CREATED, es);
    AtRestAgreesUnlessStranded(es);
  }

  /**
   * Over every history, orderly or not: each descriptor is attached, or detached, or was closed
   * once, or was handed over once, and never two of these.
   */
  lemma DescriptorsEndOnce(es: seq<Event>, fd: nat)
    requires Possible(CREATED, es)
    ensures var d := Execute(CREATED, es).fds;
            && multiset(d.closed)[fd] + multiset(d.handedOver)[fd] + multiset(Listed(d.tunFd))[fd]
                 + multiset(Listed(d.tunPfd))[fd] == if fd < d.obtained then 1 else 0
  {
    CreatedOk();
    FdsKept(CREATED, es);
    EachOnce(Execute(CREATED, es).fds.obtained, fd);
  }

  lemma {:induction false} EachOnce(n: nat, fd: nat)
    ensures multiset(seq(n, i => i))[fd] == if fd < n then 1 else 0
  {
    if n > 0 {
      EachOnce(n - 1, fd);
      assert seq(n, i => i) == seq(n - 1, i => i) + [n - 1];
    }
  }
}
