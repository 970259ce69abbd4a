/**
 * The life of the Android VPN service (ClashMiVpnService.kt): its main thread receives start,
 * stop, revoke and destroy; a single-threaded executor runs the start and stop tasks. Every
 * access to a field that both threads use is a step of its own, so the two threads interleave
 * between any two of them. The model covers one service instance.
 */
module VpnLifecycle {
  import opened Options

  datatype VpnState = Disconnected | Connecting | Connected | Disconnecting

  datatype Task = StartTask | StopTask | DestroyTask

  /** Each program counter names what its function does next. */
  datatype StartCommandPc = Promote | ClearDesired | ShowDisconnected | Enqueue | FailClear | FailShow
  datatype StopCommandPc = ReadState | ShowDisconnecting | Enqueue
  datatype DestroyPc = ReadCore | ReadState | ShowDisconnecting | Enqueue | ShutDown

  /** The main thread: idle, or inside onStartCommand(START), requestStop or onDestroy. */
  datatype MainPc = Ready | Starting(start: StartCommandPc) | Stopping(stop: StopCommandPc)
          | Destroying(destroy: DestroyPc)

  datatype StartCorePc =
    | Check | CheckCore | ReadConfig | ShowConnecting | Install | Register | Establish | Detach | Recheck
    | HandOver | StartNative | NoteRunning | RecheckLate | ShowConnected
  datatype CancelPc = Clean | ShowDisconnected
  datatype FailPc = ClearDesired | ShowDisconnected
  datatype CatchPc = ClearDesired | NoteStopped | Clean | StopNative | ShowDisconnected
  datatype StopCorePc = Decide | Unregister | StopNative | NoteStopped | Clean | ShowDisconnected

  /**
   * The lifecycle thread: between tasks, in startCore, in what startCore ends with
   * (finishCancelledStart, failStart, its catch block), or in stopCore.
   */
  datatype LifePc =
    | Free
    | InStart(start: StartCorePc)
    | InCancel(cancel: CancelPc)
    | InFail(fail: FailPc)
    | InCatch(caught: CatchPc)
    | InStop(stop: StopCorePc)

  /**
   * The TUN descriptors, numbered as they are obtained: the one in `tunPfd` until it is
   * detached, the one in `tunFd`, those Kotlin closed, and those it handed over to the core.
   */
  datatype Descriptors = Descriptors(
    tunPfd: Option<nat>, tunFd: Option<nat>, obtained: nat, closed: seq<nat>, handedOver: seq<nat>)

  /**
   * `native` says whether the Go core runs. `nativeStopFailed` and `stranded` are history: a
   * native stop threw, and onDestroy left a running core behind (see `Stranding`).
   */
  datatype Service = Service(
    desiredRunning: bool, coreRunning: bool, state: VpnState, callback: bool, tasks: seq<Task>,
    shutDown: bool, main: MainPc, life: LifePc, needsNativeStop: bool, native: bool,
    fds: Descriptors, nativeStopFailed: bool, stranded: bool)

  const CREATED := Service(false, false, Disconnected, false, [], false, Ready, Free, false, false,
    Descriptors(None, None, 0, [], []), false, false)

  /** The main thread's commands begin a handler, Main continues it; Life is the other thread. */
  datatype Event =
    | CommandStart
    | CommandStop       // a stop action, a null intent, or a revoked permission
    | Destroy
    | Main(ok: bool)    // `ok`: does the foreground promotion succeed?
    | Life(ok: bool)    // `ok`: does the foreign call of this step succeed?

  predicate Enabled(s: Service, e: Event) {
    match e
    case Main(_) => !s.main.Ready?
    case Life(_) => s.life.Free? ==> s.tasks != []
    case _ => s.main.Ready?
  }

  // ----- The descriptors ------------------------------------------------------------------

  function Established(d: Descriptors): Descriptors {
    d.(tunPfd := Some(d.obtained), obtained := d.obtained + 1)
  }

  function Detached(d: Descriptors): Descriptors {
    d.(tunPfd := None, tunFd := d.tunPfd)
  }

  function Listed(fd: Option<nat>): seq<nat> {
    if fd.Some? then [fd.value] else []
  }

  /** `closeTunFd`. */
  function Closed(d: Descriptors): Descriptors {
    d.(tunPfd := None, tunFd := None, closed := d.closed + Listed(d.tunFd) + Listed(d.tunPfd))
  }

  function HandedOver(d: Descriptors): Descriptors {
    d.(tunFd := None, handedOver := d.handedOver + Listed(d.tunFd))
  }

  // ----- What each thread leaves alone ------------------------------------------------------

  /** The main thread may withdraw the wish and queue tasks; it touches no core, callback or descriptor. */
  predicate MainOnly(s: Service, s': Service) {
    && s'.life == s.life && s'.fds == s.fds && s'.callback == s.callback
    && s'.coreRunning == s.coreRunning && s'.native == s.native
    && s.tasks <= s'.tasks && (s'.desiredRunning ==> s.desiredRunning)
  }

  /** The lifecycle thread may withdraw the wish; it queues no task and stays out of the main thread's way. */
  predicate LifeOnly(s: Service, s': Service) {
    && s'.main == s.main && s'.shutDown == s.shutDown && s'.stranded == s.stranded
    && (s'.desiredRunning ==> s.desiredRunning)
  }

  // ----- How far each thread still has to go ----------------------------------------------------

  function LifeCost(life: LifePc): nat {
    match life
    case Free => 0
    case InStart(at) => StartCost(at)
    case InCancel(at) => if at.Clean? then 3 else 2
    case InFail(at) => if at.ClearDesired? then 4 else 3
    case InCatch(at) => CatchCost(at)
    case InStop(at) => StopCost(at)
  }

  function CatchCost(at: CatchPc): nat {
    match at
    case ClearDesired => 7 case NoteStopped => 6 case Clean => 5 case StopNative => 4 case ShowDisconnected => 3
  }

  function StopCost(at: StopCorePc): nat {
    match at
    case Decide => 8 case Unregister => 7 case StopNative => 6 case NoteStopped => 5 case Clean => 4
    case ShowDisconnected => 3
  }

  function StartCost(at: StartCorePc): nat {
    match at
    case Check => 30 case CheckCore => 29 case ReadConfig => 28 case ShowConnecting => 27 case Install => 26
    case Register => 25 case Establish => 24 case Detach => 23 case Recheck => 22 case HandOver => 21
    case StartNative => 20 case NoteRunning => 19 case RecheckLate => 18 case ShowConnected => 17
  }

  /** A task that may still be queued costs as much as any task. */
  function MainCost(main: MainPc): nat {
    match main
    case Ready => 0
    case Starting(at) => StartCommandCost(at)
    case Stopping(at) => StopCommandCost(at)
    case Destroying(at) => DestroyCost(at)
  }

  function StartCommandCost(at: StartCommandPc): nat {
    match at
    case Promote => 34 case Enqueue => 33 case ClearDesired => 4 case ShowDisconnected => 3
    case FailClear => 4 case FailShow => 3
  }

  function StopCommandCost(at: StopCommandPc): nat {
    match at case ReadState => 35 case ShowDisconnecting => 34 case Enqueue => 33
  }

  function DestroyCost(at: DestroyPc): nat {
    match at
    case ReadCore => 36 case ReadState => 35 case ShowDisconnecting => 34 case Enqueue => 33 case ShutDown => 1
  }

  // ----- The main thread ------------------------------------------------------------------

  /** `onStartCommand` for a start, and `failStart` when the executor rejects the task. */
  function StartCommandStep(s: Service, at: StartCommandPc, ok: bool): (s': Service)
    ensures MainOnly(s, s') && s'.shutDown == s.shutDown
    ensures MainCost(s'.main) + 31 * |s'.tasks| < StartCommandCost(at) + 31 * |s.tasks|
  {
    match at
    case Promote => s.(main := Starting(if ok then StartCommandPc.Enqueue else StartCommandPc.ClearDesired))
    case ClearDesired => s.(desiredRunning := false, main := Starting(StartCommandPc.ShowDisconnected))
    case ShowDisconnected => s.(state := Disconnected, main := Ready)
    case Enqueue =>
      if s.shutDown then s.(main := Starting(FailClear)) else s.(tasks := s.tasks + [StartTask], main := Ready)
    case FailClear => s.(desiredRunning := false, main := Starting(FailShow))
    case FailShow => s.(state := Disconnected, main := Ready)
  }

  /** `requestStop`. */
  function StopCommandStep(s: Service, at: StopCommandPc): (s': Service)
    ensures MainOnly(s, s') && s'.shutDown == s.shutDown
    ensures MainCost(s'.main) + 31 * |s'.tasks| < StopCommandCost(at) + 31 * |s.tasks|
  {
    match at
    case ReadState =>
      s.(main := Stopping(if s.state != Disconnected then StopCommandPc.ShowDisconnecting else StopCommandPc.Enqueue))
    case ShowDisconnecting => s.(state := Disconnecting, main := Stopping(StopCommandPc.Enqueue))
    case Enqueue => if s.shutDown then s.(main := Ready) else s.(tasks := s.tasks + [StopTask], main := Ready)
  }

  predicate StopQueued(tasks: seq<Task>) {
    StopTask in tasks || DestroyTask in tasks
  }

  /** stopCore is queued, or under way and has not noted yet that the core is stopped. */
  predicate StopComing(s: Service) {
    StopQueued(s.tasks) || (s.life.InStop? && !s.life.stop.Clean? && !s.life.stop.ShowDisconnected?)
  }

  /**
   * onDestroy finds nothing to clean up although the core runs and no stop is coming. It can:
   * it reads `coreRunning` before a native start finishes, and the state after a queued second
   * start, cancelled because nothing is desired any more, has shown "disconnected".
   */
  predicate Stranding(s: Service) {
    s.coreRunning && !StopComing(s)
  }

  /** `onDestroy`: its condition reads two fields, one after the other. */
  function DestroyStep(s: Service, at: DestroyPc): (s': Service)
    ensures MainOnly(s, s') && (s'.main.Destroying? || s'.shutDown)
    ensures MainCost(s'.main) + 31 * |s'.tasks| < DestroyCost(at) + 31 * |s.tasks|
  {
    match at
    case ReadCore => s.(main := Destroying(if s.coreRunning then DestroyPc.ShowDisconnecting else DestroyPc.ReadState))
    case ReadState =>
      if s.state != Disconnected then s.(main := Destroying(DestroyPc.ShowDisconnecting))
      else s.(main := Destroying(ShutDown), stranded := Stranding(s))
    case ShowDisconnecting => s.(state := Disconnecting, main := Destroying(DestroyPc.Enqueue))
    case Enqueue => s.(tasks := if s.shutDown then s.tasks else s.tasks + [DestroyTask], main := Destroying(ShutDown))
    case ShutDown => s.(shutDown := true, main := Ready)
  }

  function MainStep(s: Service, ok: bool): (s': Service)
    requires !s.main.Ready?
    ensures MainOnly(s, s')
    ensures s.main.Destroying? || s.shutDown ==> s'.main.Destroying? || s'.shutDown
  {
    match s.main
    case Starting(at) => StartCommandStep(s, at, ok)
    case Stopping(at) => StopCommandStep(s, at)
    case Destroying(at) => DestroyStep(s, at)
  }

  // ----- The lifecycle thread -------------------------------------------------------------

  /** What a step of `startCore` changes, apart from where the thread goes on. */
  function StartEffect(s: Service, at: StartCorePc, ok: bool): (s': Service)
    ensures LifeOnly(s, s') && s'.tasks == s.tasks && s'.desiredRunning == s.desiredRunning
    ensures at.Establish? || at.Detach? || at.Recheck? || at.HandOver? || s'.fds == s.fds
  {
    match at
    case ShowConnecting => s.(state := Connecting)
    case Register => s.(callback := s.callback || ok)
    case Establish => if ok then s.(fds := Established(s.fds)) else s
    case Detach => if ok then s.(fds := Detached(s.fds)) else s
    case Recheck => if s.desiredRunning then s else s.(fds := Closed(s.fds))
    case HandOver => s.(fds := HandedOver(s.fds))
    case StartNative => s.(native := ok)
    case NoteRunning => s.(coreRunning := true)
    case ShowConnected => s.(state := Connected)
    case _ => s
  }

  /**
   * Where `startCore` goes on. Install stands for what may throw before the callback is
   * registered; a failed registration is only logged, and the start goes on without a callback.
   */
  function StartNext(s: Service, at: StartCorePc, ok: bool): (next: LifePc)
    ensures LifeCost(next) < StartCost(at)
  {
    match at
    case Check => if s.desiredRunning then InStart(CheckCore) else InCancel(CancelPc.Clean)
    case CheckCore => if s.coreRunning then Free else InStart(ReadConfig)
    case ReadConfig => if ok then InStart(ShowConnecting) else InFail(FailPc.ClearDesired)
    case ShowConnecting => InStart(Install)
    case Install => if ok then InStart(Register) else InCatch(CatchPc.ClearDesired)
    case Register => InStart(Establish)
    case Establish => if ok then InStart(Detach) else InCatch(CatchPc.ClearDesired)
    case Detach => if ok then InStart(Recheck) else InCatch(CatchPc.ClearDesired)
    case Recheck => if s.desiredRunning then InStart(HandOver) else InCancel(CancelPc.Clean)
    case HandOver => InStart(StartCorePc.StartNative)
    case StartNative => if ok then InStart(NoteRunning) else InCatch(CatchPc.ClearDesired)
    case NoteRunning => InStart(RecheckLate)
    case RecheckLate => if s.desiredRunning then InStart(ShowConnected) else Free
    case ShowConnected => Free
  }

  /** `startCore`. */
  function StartCoreStep(s: Service, at: StartCorePc, ok: bool): (s': Service)
    ensures LifeOnly(s, s') && s'.tasks == s.tasks && s'.desiredRunning == s.desiredRunning
    ensures at.Establish? || at.Detach? || at.Recheck? || at.HandOver? || s'.fds == s.fds
  {
    StartEffect(s, at, ok).(life := StartNext(s, at, ok))
  }

  function CancelStep(s: Service, at: CancelPc): (s': Service)
    ensures LifeOnly(s, s') && s'.tasks == s.tasks
  {
    match at
    case Clean => s.(fds := Closed(s.fds), callback := false, life := InCancel(CancelPc.ShowDisconnected))
    case ShowDisconnected => s.(state := Disconnected, life := Free)
  }

  function FailStep(s: Service, at: FailPc): (s': Service)
    ensures LifeOnly(s, s') && s'.tasks == s.tasks
  {
    match at
    case ClearDesired => s.(desiredRunning := false, life := InFail(FailPc.ShowDisconnected))
    case ShowDisconnected => s.(state := Disconnected, life := Free)
  }

  function CatchStep(s: Service, at: CatchPc, ok: bool): (s': Service)
    ensures LifeOnly(s, s') && s'.tasks == s.tasks
  {
    match at
    case ClearDesired => s.(desiredRunning := false, life := InCatch(CatchPc.NoteStopped))
    case NoteStopped => s.(coreRunning := false, life := InCatch(CatchPc.Clean))
    case Clean => s.(fds := Closed(s.fds), callback := false, life := InCatch(CatchPc.StopNative))
    case StopNative => s.(native := if ok then false else s.native, life := InCatch(CatchPc.ShowDisconnected))
    case ShowDisconnected => s.(state := Disconnected, life := Free)
  }

  function StopCoreStep(s: Service, at: StopCorePc, ok: bool): (s': Service)
    ensures LifeOnly(s, s') && s'.tasks == s.tasks
  {
    match at
    case Decide =>
      s.(needsNativeStop := s.coreRunning || s.fds.tunFd.Some? || s.fds.tunPfd.Some? || s.state != Disconnected,
         life := InStop(Unregister))
    case Unregister => s.(callback := false, life := InStop(StopCorePc.StopNative))
    case StopNative =>
      s.(native := if s.needsNativeStop && ok then false else s.native,
         nativeStopFailed := s.nativeStopFailed || (s.needsNativeStop && !ok),
         life := InStop(StopCorePc.NoteStopped))
    case NoteStopped => s.(coreRunning := false, life := InStop(StopCorePc.Clean))
    case Clean => s.(fds := Closed(s.fds), life := InStop(StopCorePc.ShowDisconnected))
    case ShowDisconnected => s.(state := Disconnected, life := Free)
  }

  function LifeStep(s: Service, ok: bool): (s': Service)
    requires s.life.Free? ==> s.tasks != []
    ensures LifeOnly(s, s') && (!s.life.Free? ==> s'.tasks == s.tasks)
  {
    match s.life
    case Free => s.(tasks := s.tasks[1..], life := if s.tasks[0].StartTask? then InStart(Check) else InStop(Decide))
    case InStart(at) => StartCoreStep(s, at, ok)
    case InCancel(at) => CancelStep(s, at)
    case InFail(at) => FailStep(s, at)
    case InCatch(at) => CatchStep(s, at, ok)
    case InStop(at) => StopCoreStep(s, at, ok)
  }

  // ----- Histories ------------------------------------------------------------------------

  function Apply(s: Service, e: Event): Service
    requires Enabled(s, e)
  {
    match e
    case CommandStart => s.(desiredRunning := true, main := Starting(Promote))
    case CommandStop => s.(desiredRunning := false, main := Stopping(StopCommandPc.ReadState))
    case Destroy => s.(desiredRunning := false, main := Destroying(ReadCore))
    case Main(ok) => MainStep(s, ok)
    case Life(ok) => LifeStep(s, ok)
  }

  ghost predicate Possible(s: Service, es: seq<Event>)
    decreases |es|
  {
    es == [] || (Enabled(s, es[0]) && Possible(Apply(s, es[0]), es[1..]))
  }

  ghost function Execute(s: Service, es: seq<Event>): Service
    requires Possible(s, es)
    decreases |es|
  {
    if es == [] then s else Execute(Apply(s, es[0]), es[1..])
  }

  /** Android delivers nothing after onDestroy, and foreground promotion succeeds. */
  predicate Orderly(s: Service, e: Event) {
    && (e.CommandStart? || e.CommandStop? || e.Destroy? ==> !s.shutDown)
    && (e.Main? && s.main == Starting(Promote) ==> e.ok)
  }

  ghost predicate OrderlyRun(s: Service, es: seq<Event>)
    requires Possible(s, es)
    decreases |es|
  {
    es == [] || (Orderly(s, es[0]) && OrderlyRun(Apply(s, es[0]), es[1..]))
  }

  /** The executor is drained and both threads are idle. */
  predicate Quiescent(s: Service) {
    s.main.Ready? && s.life.Free? && s.tasks == []
  }

  /** What was asked for, what runs and what is shown are one thing; nothing is left over. */
  predicate Agrees(s: Service) {
    && s.desiredRunning == s.coreRunning
    && s.state == (if s.coreRunning then Connected else Disconnected)
    && s.fds.tunFd.None? && s.fds.tunPfd.None?
    && (!s.coreRunning ==> !s.callback)
    && (!s.nativeStopFailed ==> s.native == s.coreRunning)
  }
}
