/**
 * The plugin and the service together: Flutter's calls become intents, the service's two threads
 * answer them, and the two callback slots stand in between (ClashmiVpnServicePlugin.kt,
 * ClashmiVpnRuntime.kt, ClashMiVpnService.kt). The plugin runs on the service's main thread.
 */
module ServiceCalls {
  import opened Options
  import opened VpnLifecycle
  import Bridge = CallbackBridge

  /** What a thread does right after the step that leads to it, and before its next step. */
  datatype Answer = StartAnswer(outcome: Bridge.Outcome) | StopAnswer(outcome: Bridge.Outcome)

  /** `stopError` is stopCore's local variable: did its native stop throw? */
  datatype World = World(
    service: Service, bridge: Bridge.State, mainOwes: Option<Answer>, lifeOwes: Option<Answer>, stopError: bool)

  const LAUNCHED := World(CREATED, Bridge.ATTACHED, None, None, false)

  datatype Happening =
    | Call(e: Bridge.Event) // a Flutter call, the user's permission, a timeout, or time
    | SendIntent(start: bool)               // anybody else asks the service
    | Revoke                                // or a null intent
    | Destroyed
    | Inner(step: Step)

  /** What goes on without anybody asking, timing out or waiting. */
  datatype Step =
    | DeliverStart
    | DeliverStop
    | RunPosted(android: Bridge.Android)
    | MainGoesOn(ok: bool)
    | MainAnswers
    | LifeGoesOn(ok: bool)
    | LifeAnswers

  // ----- What is owed -----------------------------------------------------------------------

  /** The answer that follows a step of the main thread. */
  function MainOwes(s: Service): Option<Answer> {
    if s.main == Starting(StartCommandPc.ShowDisconnected) || s.main == Starting(FailShow)
    then Some(StartAnswer(Bridge.Error))
    else if s.main == Stopping(StopCommandPc.Enqueue) && s.shutDown then Some(StopAnswer(Bridge.Error))
    else None
  }

  function LifeOwes(s: Service, stopError: bool): Option<Answer> {
    match s.life
    case InStart(CheckCore) => if s.coreRunning then Some(StartAnswer(Bridge.Done)) else None
    case InStart(ShowConnected) => Some(StartAnswer(Bridge.Done))
    case InFail(ShowDisconnected) => Some(StartAnswer(Bridge.Error))
    case InCatch(ShowDisconnected) => Some(StartAnswer(Bridge.Error))
    case InStop(ShowDisconnected) => Some(StopAnswer(if stopError then Bridge.Error else Bridge.Done))
    case _ => None
  }

  function StopErrorAfter(w: World, ok: bool): bool {
    if w.service.life == InStop(Decide) then false
    else if w.service.life == InStop(StopCorePc.StopNative) then w.stopError || (w.service.needsNativeStop && !ok)
    else w.stopError
  }

  function Answered(b: Bridge.State, a: Answer): Bridge.State {
    match a
    case StartAnswer(outcome) => Bridge.StartCompleted(b, outcome)
    case StopAnswer(outcome) => Bridge.StopCompleted(b, outcome)
  }

  // ----- Steps ------------------------------------------------------------------------------

  predicate MainFree(w: World) {
    w.service.main.Ready? && w.mainOwes.None?
  }

  predicate CanStep(w: World, step: Step) {
    match step
    case DeliverStart => MainFree(w) && w.bridge.startIntents > 0
    case DeliverStop => MainFree(w) && w.bridge.stopIntents > 0
    case RunPosted(_) => MainFree(w) && w.bridge.posted != []
    case MainGoesOn(_) => !w.service.main.Ready? && w.mainOwes.None?
    case MainAnswers => w.mainOwes.Some?
    case LifeGoesOn(_) => w.lifeOwes.None? && (w.service.life.Free? ==> w.service.tasks != [])
    case LifeAnswers => w.lifeOwes.Some?
  }

  predicate CanHappen(w: World, e: Happening) {
    match e
    case Call(e) =>
      && Bridge.Enabled(w.bridge, e) && (e.Tick? || MainFree(w))
      && !e.ServiceEndsStart? && !e.ServiceEndsStop? && !e.RunPosted?
    case Inner(step) => CanStep(w, step)
    case SendIntent(_) => true
    case _ => MainFree(w)
  }

  /** Intents sent, or delivered when the numbers are negative. */
  function Intents(b: Bridge.State, starts: int, stops: int): Bridge.State
    requires b.startIntents + starts >= 0 && b.stopIntents + stops >= 0
  {
    b.(startIntents := b.startIntents + starts, stopIntents := b.stopIntents + stops)
  }

  /** A command whose handler first clears the start slot. */
  function Commanded(w: World, command: VpnLifecycle.Event): World
    requires VpnLifecycle.Enabled(w.service, command)
  {
    w.(service := VpnLifecycle.Apply(w.service, command), mainOwes := Some(StartAnswer(Bridge.Error)))
  }

  function TakeStep(w: World, step: Step): World
    requires CanStep(w, step)
  {
    match step
    case DeliverStart =>
      w.(bridge := Intents(w.bridge, -1, 0), service := VpnLifecycle.Apply(w.service, CommandStart))
    case DeliverStop => Commanded(w.(bridge := Intents(w.bridge, 0, -1)), CommandStop)
    case RunPosted(android) => w.(bridge := Bridge.MessageRun(w.bridge, android))
    case MainGoesOn(ok) => w.(service := MainStep(w.service, ok), mainOwes := MainOwes(w.service))
    case MainAnswers => w.(bridge := Answered(w.bridge, w.mainOwes.value), mainOwes := None)
    case LifeGoesOn(ok) =>
      w.(service := LifeStep(w.service, ok), lifeOwes := LifeOwes(w.service, w.stopError),
         stopError := StopErrorAfter(w, ok))
    case LifeAnswers => w.(bridge := Answered(w.bridge, w.lifeOwes.value), lifeOwes := None)
  }

  function After(w: World, e: Happening): World
    requires CanHappen(w, e)
  {
    match e
    case Call(e) => w.(bridge := Bridge.Apply(w.bridge, e))
    case SendIntent(start) => w.(bridge := if start then Intents(w.bridge, 1, 0) else Intents(w.bridge, 0, 1))
    case Revoke => Commanded(w, CommandStop)
    case Destroyed => Commanded(w, Destroy)
    case Inner(step) => TakeStep(w, step)
  }

  ghost predicate PossibleHistory(w: World, es: seq<Happening>)
    decreases |es|
  {
    es == [] || (CanHappen(w, es[0]) && PossibleHistory(After(w, es[0]), es[1..]))
  }

  ghost function RunHistory(w: World, es: seq<Happening>): World
    requires PossibleHistory(w, es)
    decreases |es|
  {
    if es == [] then w else RunHistory(After(w, es[0]), es[1..])
  }

  // ----- Who will answer ----------------------------------------------------------------------

  predicate OwesStart(owes: Option<Answer>) {
    owes.Some? && owes.value.StartAnswer?
  }

  predicate OwesStop(owes: Option<Answer>) {
    owes.Some? && owes.value.StopAnswer?
  }

  /** The main thread is about to fail a start; or, if the start is still wanted, to queue it. */
  predicate MainFailsStart(main: MainPc) {
    main.Starting? && !main.start.Promote? && !main.start.Enqueue?
  }

  predicate StartWillRun(s: Service) {
    s.desiredRunning && (s.main.Starting? || StartTask in s.tasks || s.life.InStart?)
  }

  predicate StartCovered(w: World) {
    w.bridge.pendingStart.Some? ==>
      || w.bridge.startIntents > 0 || w.bridge.pendingPermission
      || OwesStart(w.mainOwes) || OwesStart(w.lifeOwes)
      || MainFailsStart(w.service.main) || w.service.life.InFail? || w.service.life.InCatch?
      || StartWillRun(w.service)
  }

  predicate StopWillRun(s: Service) {
    s.main.Stopping? || StopQueued(s.tasks) || s.life.InStop?
  }

  predicate StopCovered(w: World) {
    w.bridge.pendingStop.Some? ==>
      || w.bridge.stopIntents > 0
      || OwesStop(w.mainOwes) || OwesStop(w.lifeOwes) || StopWillRun(w.service)
  }

  ghost predicate Inv(w: World) {
    StartCovered(w) && StopCovered(w) && Bridge.Inv(w.bridge)
  }
}
