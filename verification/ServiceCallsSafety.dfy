/**
 * No step of the plugin or of the service's two threads loses sight of a waiting call, so at
 * rest nobody waits but for the user.
 */
module ServiceCallsSafety {
  import opened Options
  import opened VpnLifecycle
  import Bridge = CallbackBridge
  import opened ServiceCalls

  // ----- The lifecycle thread keeps sight of both calls ---------------------------------------

  predicate LifeFails(life: LifePc) {
    life.InFail? || life.InCatch?
  }

  predicate StartSeen(s: Service) {
    StartWillRun(s) || LifeFails(s.life)
  }

  /** Up to the registration of the callback. */
  predicate Early(at: StartCorePc) {
    at.Check? || at.CheckCore? || at.ReadConfig? || at.ShowConnecting? || at.Install? || at.Register?
  }

  lemma EarlyStartSees(s: Service, at: StartCorePc, ok: bool, stopError: bool)
    requires s.life == InStart(at) && StartSeen(s) && Early(at)
    ensures StartSeen(StartCoreStep(s, at, ok)) || OwesStart(LifeOwes(s, stopError))
  {
    match at
    case Check => case CheckCore => case ReadConfig => case ShowConnecting => case Install => case Register =>
  }

  lemma LateStartSees(s: Service, at: StartCorePc, ok: bool, stopError: bool)
    requires s.life == InStart(at) && StartSeen(s) && !Early(at)
    ensures StartSeen(StartCoreStep(s, at, ok)) || OwesStart(LifeOwes(s, stopError))
  {
    match at
    case Establish => case Detach => case Recheck => case HandOver => case StartNative => case NoteRunning =>
    case RecheckLate => case ShowConnected =>
  }

  lemma StartCoreSees(s: Service, at: StartCorePc, ok: bool, stopError: bool)
    requires s.life == InStart(at) && StartSeen(s)
    ensures StartSeen(StartCoreStep(s, at, ok)) || OwesStart(LifeOwes(s, stopError))
  {
    if Early(at) {
      EarlyStartSees(s, at, ok, stopError);
    } else {
      LateStartSees(s, at, ok, stopError);
    }
  }

  lemma CatchSees(s: Service, at: CatchPc, ok: bool, stopError: bool)
    requires s.life == InCatch(at)
    ensures LifeFails(CatchStep(s, at, ok).life) || OwesStart(LifeOwes(s, stopError))
  {
    match at case ClearDesired => case NoteStopped => case Clean => case StopNative => case ShowDisconnected =>
  }

  lemma FailSees(s: Service, at: FailPc, stopError: bool)
    requires s.life == InFail(at)
    ensures LifeFails(FailStep(s, at).life) || OwesStart(LifeOwes(s, stopError))
  {
    match at case ClearDesired => case ShowDisconnected =>
  }

  lemma StopCoreSeesStart(s: Service, at: StopCorePc, ok: bool)
    requires s.life == InStop(at) && StartSeen(s)
    ensures StartSeen(StopCoreStep(s, at, ok))
  {
    match at
    case Decide => case Unregister => case StopNative => case NoteStopped => case Clean => case ShowDisconnected =>
  }

  lemma StopCoreSeesStop(s: Service, at: StopCorePc, ok: bool, stopError: bool)
    requires s.life == InStop(at)
    ensures StopWillRun(StopCoreStep(s, at, ok)) || OwesStop(LifeOwes(s, stopError))
  {
    match at
    case Decide => case Unregister => case StopNative => case NoteStopped => case Clean => case ShowDisconnected =>
  }

  lemma CancelSees(s: Service, at: CancelPc)
    requires s.life == InCancel(at) && StartSeen(s)
    ensures StartSeen(CancelStep(s, at))
  {
    match at case Clean => case ShowDisconnected =>
  }

  lemma TaskSees(s: Service, ok: bool)
    requires s.life.Free? && s.tasks != []
    ensures StartSeen(s) ==> StartSeen(LifeStep(s, ok))
    ensures StopWillRun(s) ==> StopWillRun(LifeStep(s, ok))
  {
    assert s.tasks == [s.tasks[0]] + s.tasks[1..];
  }

  lemma LifeSeesStart(s: Service, ok: bool, stopError: bool)
    requires StartSeen(s) && (s.life.Free? ==> s.tasks != [])
    ensures StartSeen(LifeStep(s, ok)) || OwesStart(LifeOwes(s, stopError))
  {
    match s.life
    case Free => TaskSees(s, ok);
    case InStart(at) => StartCoreSees(s, at, ok, stopError);
    case InCancel(at) => CancelSees(s, at);
    case InFail(at) => FailSees(s, at, stopError);
    case InCatch(at) => CatchSees(s, at, ok, stopError);
    case InStop(at) => StopCoreSeesStart(s, at, ok);
  }

  /** Between tasks nothing about stops changes but what the task does. */
  lemma LifeSeesStop(s: Service, ok: bool, stopError: bool)
    requires StopWillRun(s) && (s.life.Free? ==> s.tasks != [])
    ensures StopWillRun(LifeStep(s, ok)) || OwesStop(LifeOwes(s, stopError))
  {
    match s.life
    case Free => TaskSees(s, ok);
    case InStop(at) => StopCoreSeesStop(s, at, ok, stopError);
    case _ =>
  }

  // ----- So does the main thread --------------------------------------------------------------

  lemma StartCommandSees(s: Service, at: StartCommandPc, ok: bool)
    requires s.main == Starting(at)
    ensures MainFailsStart(s.main) || StartSeen(s) ==>
              var s' := StartCommandStep(s, at, ok);
              MainFailsStart(s'.main) || StartSeen(s') || OwesStart(MainOwes(s))
    ensures StopWillRun(s) ==> StopWillRun(StartCommandStep(s, at, ok))
  {
    match at
    case Promote => case ClearDesired => case ShowDisconnected => case Enqueue => case FailClear => case FailShow =>
  }

  lemma StopCommandSees(s: Service, at: StopCommandPc)
    requires s.main == Stopping(at)
    ensures StartSeen(s) ==> StartSeen(StopCommandStep(s, at))
    ensures StopWillRun(StopCommandStep(s, at)) || OwesStop(MainOwes(s))
  {
    match at case ReadState => case ShowDisconnecting => case Enqueue =>
  }

  lemma DestroySeesStart(s: Service, at: DestroyPc)
    requires s.main == Destroying(at) && StartSeen(s)
    ensures StartSeen(DestroyStep(s, at))
  {
    match at case ReadCore => case ReadState => case ShowDisconnecting => case Enqueue => case ShutDown =>
  }

  lemma DestroySeesStop(s: Service, at: DestroyPc)
    requires s.main == Destroying(at) && StopWillRun(s)
    ensures StopWillRun(DestroyStep(s, at))
  {
    match at case ReadCore => case ReadState => case ShowDisconnecting => case Enqueue => case ShutDown =>
  }

  lemma MainSees(s: Service, ok: bool)
    requires !s.main.Ready?
    ensures MainFailsStart(s.main) || StartSeen(s) ==>
              var s' := MainStep(s, ok);
              MainFailsStart(s'.main) || StartSeen(s') || OwesStart(MainOwes(s))
    ensures StopWillRun(s) ==> StopWillRun(MainStep(s, ok)) || OwesStop(MainOwes(s))
  {
    match s.main
    case Starting(at) => StartCommandSees(s, at, ok);
    case Stopping(at) => StopCommandSees(s, at);
    case Destroying(at) =>
      if StartSeen(s) {
        DestroySeesStart(s, at);
      }
      if StopWillRun(s) {
        DestroySeesStop(s, at);
      }
  }

  // ----- So does the plugin -------------------------------------------------------------------

  /** A call that waits after a plugin event waits for the intent it sent, for the user, or as before. */
  lemma PluginSees(b: Bridge.State, e: Bridge.Event)
    requires Bridge.Enabled(b, e) && !e.ServiceEndsStart? && !e.ServiceEndsStop? && !e.RunPosted?
    ensures var b' := Bridge.Apply(b, e);
            && (b'.pendingStart.Some? ==>
                  b'.startIntents > 0 || b'.pendingPermission || (b.pendingStart.Some? && !b.pendingPermission))
            && (b'.pendingStop.Some? ==> b'.stopIntents > 0 || b.pendingStop.Some?)
            && b'.startIntents >= b.startIntents && b'.stopIntents >= b.stopIntents
  {
    match e
    case Prepare =>
    case CallStart(asked, android) =>
    case CallStop(asked, restart, sent) =>
    case PermissionResult(granted, sent) =>
    case StartTimeout(due, sent) =>
    case StopTimeout(due) =>
    case Tick(millis) =>
  }

  lemma PostedSees(b: Bridge.State, android: Bridge.Android)
    requires b.posted != []
    ensures var b' := Bridge.MessageRun(b, android);
            && (b'.pendingStart.Some? ==>
                  b'.startIntents > 0 || b'.pendingPermission || (b.pendingStart.Some? && !b.pendingPermission))
            && b'.pendingStop == b.pendingStop
            && b'.startIntents >= b.startIntents && b'.stopIntents >= b.stopIntents
  {
  }

  // ----- Every step keeps every waiting call in sight -----------------------------------------

  lemma AnswerKeeps(w: World, owes: Option<Answer>)
    requires owes.Some?
    ensures var b := Answered(w.bridge, owes.value);
            && b.pendingPermission == w.bridge.pendingPermission
            && (b.pendingStart.Some? ==> !OwesStart(owes) && w.bridge.pendingStart.Some?)
            && (b.pendingStop.Some? ==> !OwesStop(owes) && w.bridge.pendingStop.Some?)
  {
  }

  lemma LifeStepKeeps(w: World, ok: bool)
    requires StartCovered(w) && StopCovered(w) && CanStep(w, LifeGoesOn(ok))
    ensures StartCovered(TakeStep(w, LifeGoesOn(ok))) && StopCovered(TakeStep(w, LifeGoesOn(ok)))
  {
    if StartSeen(w.service) {
      LifeSeesStart(w.service, ok, w.stopError);
    }
    if StopWillRun(w.service) {
      LifeSeesStop(w.service, ok, w.stopError);
    }
  }

  lemma StepCovers(w: World, step: Step)
    requires StartCovered(w) && StopCovered(w) && CanStep(w, step)
    ensures StartCovered(TakeStep(w, step)) && StopCovered(TakeStep(w, step))
  {
    match step
    case DeliverStart =>
    case DeliverStop =>
    case RunPosted(android) => PostedSees(w.bridge, android);
    case MainGoesOn(ok) => MainSees(w.service, ok);
    case MainAnswers => AnswerKeeps(w, w.mainOwes);
    case LifeGoesOn(ok) => LifeStepKeeps(w, ok);
    case LifeAnswers => AnswerKeeps(w, w.lifeOwes);
  }

  lemma EventCovers(w: World, e: Happening)
    requires StartCovered(w) && StopCovered(w) && CanHappen(w, e)
    ensures StartCovered(After(w, e)) && StopCovered(After(w, e))
  {
    match e
    case Call(call) => PluginSees(w.bridge, call);
    case SendIntent(start) =>
    case Revoke =>
    case Destroyed =>
    case Inner(step) => StepCovers(w, step);
  }

  lemma BridgeAnswers(b: Bridge.State, a: Answer)
    requires Bridge.Inv(b)
    ensures Bridge.Inv(Answered(b, a))
  {
    match a
    case StartAnswer(outcome) => Bridge.StepKeeps(b, Bridge.ServiceEndsStart(outcome));
    case StopAnswer(outcome) => Bridge.StepKeeps(b, Bridge.ServiceEndsStop(outcome));
  }

  lemma IntentsKeep(b: Bridge.State, starts: int, stops: int)
    requires Bridge.Inv(b) && b.startIntents + starts >= 0 && b.stopIntents + stops >= 0
    ensures Bridge.Inv(Intents(b, starts, stops))
  {
    var b' := Intents(b, starts, stops);
    forall id: nat ensures Bridge.Places(b', id) == if id < b'.calls then 1 else 0 {
      assert Bridge.Places(b, id) == if id < b.calls then 1 else 0;
    }
  }

  lemma EventKeeps(w: World, e: Happening)
    requires Inv(w) && CanHappen(w, e)
    ensures Inv(After(w, e))
  {
    EventCovers(w, e);
    match e
    case Call(call) => Bridge.StepKeeps(w.bridge, call);
    case SendIntent(start) => IntentsKeep(w.bridge, if start then 1 else 0, if start then 0 else 1);
    case Inner(DeliverStart) => IntentsKeep(w.bridge, -1, 0);
    case Inner(DeliverStop) => IntentsKeep(w.bridge, 0, -1);
    case Inner(RunPosted(android)) => Bridge.StepKeeps(w.bridge, Bridge.RunPosted(android));
    case Inner(MainAnswers) => BridgeAnswers(w.bridge, w.mainOwes.value);
    case Inner(LifeAnswers) => BridgeAnswers(w.bridge, w.lifeOwes.value);
    case _ =>
  }

  lemma {:induction false} HistoryKeeps(w: World, es: seq<Happening>)
    requires Inv(w) && PossibleHistory(w, es)
    ensures Inv(RunHistory(w, es))
    decreases |es|
  {
    if es == [] {
    } else {
      EventKeeps(w, es[0]);
      HistoryKeeps(After(w, es[0]), es[1..]);
    }
  }

  lemma LaunchedOk()
    ensures Inv(LAUNCHED)
  {
    Bridge.AttachedOk();
  }

  /**
   * Whenever the main thread is idle, an intent that was sent can arrive, and Android can revoke
   * the permission or destroy the service: the wish is set or withdrawn at once and the command
   * begins; the latter three also cancel a start that waits.
   */
  lemma CommandsReachTheService(w: World, e: Happening)
    requires w.service.main.Ready? && w.mainOwes.None?
    requires e == Revoke || e == Destroyed || (e == Inner(DeliverStart) && w.bridge.startIntents > 0)
             || (e == Inner(DeliverStop) && w.bridge.stopIntents > 0)
    ensures CanHappen(w, e)
    ensures var w', start := After(w, e), e == Inner(DeliverStart);
            && w'.service.desiredRunning == start
            && w'.service == w.service.(desiredRunning := start, main := w'.service.main)
            && w'.service.main == (if start then Starting(Promote) else if e.Destroyed? then Destroying(ReadCore)
                                   else Stopping(StopCommandPc.ReadState))
            && w'.mainOwes == (if start then None else Some(StartAnswer(Bridge.Error)))
            && w'.lifeOwes == w.lifeOwes && w'.stopError == w.stopError
            && w'.bridge == w.bridge.(startIntents := w.bridge.startIntents - (if start then 1 else 0),
                 stopIntents := w.bridge.stopIntents - (if e == Inner(DeliverStop) then 1 else 0))
  {
    match e
    case Revoke => case Destroyed => case Inner(_) =>
  }

  // ----- At rest ------------------------------------------------------------------------------

  /** No step is left: both threads idle, no task, no intent under way, nothing posted or owed. */
  predicate AtRest(w: World) {
    && Quiescent(w.service) && w.bridge.startIntents == 0 && w.bridge.stopIntents == 0
    && w.mainOwes.None? && w.lifeOwes.None? && w.bridge.posted == []
  }

  lemma RestLeavesNobody(w: World)
    requires Inv(w) && AtRest(w)
    ensures w.bridge.pendingStop.None? && (w.bridge.pendingStart.Some? ==> w.bridge.pendingPermission)
    ensures !w.bridge.pendingPermission ==> forall id: nat | id < w.bridge.calls ::
            Bridge.Count(w.bridge.answered, id) == 1
  {
    if !w.bridge.pendingPermission {
      forall id: nat | id < w.bridge.calls ensures Bridge.Count(w.bridge.answered, id) == 1 {
        assert Bridge.Places(w.bridge, id) == 1;
      }
    }
  }

  /**
   * After any history, with or without timeouts, failures, revocation and destruction: at rest no
   * stop waits, a start waits only while the user is being asked for permission, and otherwise
   * every call has been answered exactly once.
   */
  lemma NobodyWaitsAtRest(es: seq<Happening>)
    requires PossibleHistory(LAUNCHED, es) && AtRest(RunHistory(LAUNCHED, es))
    ensures var b := RunHistory(LAUNCHED, es).bridge;
            && b.pendingStop.None?
            && (b.pendingStart.Some? ==> b.pendingPermission)
            && (!b.pendingPermission ==> forall id: nat | id < b.calls :: Bridge.Count(b.answered, id) == 1)
  {
    LaunchedOk();
    HistoryKeeps(LAUNCHED, es);
    RestLeavesNobody(RunHistory(LAUNCHED, es));
  }
}
