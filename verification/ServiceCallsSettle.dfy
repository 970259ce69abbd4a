/**
 * Every call of Flutter is answered by the service itself: left alone, the plugin and the service
 * take a bounded number of steps, and when none is left nobody waits but for the user.
 */
module ServiceCallsSettle {
  import opened Options
  import opened VpnLifecycle
  import Bridge = CallbackBridge
  import opened ServiceCalls
  import opened ServiceCallsSafety

  /** The main thread and what it queued. */
  function CommandCost(s: Service): nat {
    MainCost(s.main) + 31 * |s.tasks|
  }

  function ServiceCost(s: Service): nat {
    CommandCost(s) + LifeCost(s.life)
  }

  /** The answer to a stop may turn into another start. */
  function PostedCost(posted: seq<Bridge.Message>): nat {
    if posted == [] then 0 else (if posted[0].AnswerStop? then 37 else 1) + PostedCost(posted[1..])
  }

  lemma {:induction false} PostedCostAppend(posted: seq<Bridge.Message>, m: Bridge.Message)
    ensures PostedCost(posted + [m]) == PostedCost(posted) + if m.AnswerStop? then 37 else 1
  {
    if posted == [] {
      assert posted + [m] == [m];
    } else {
      assert (posted + [m])[1..] == posted[1..] + [m];
      PostedCostAppend(posted[1..], m);
    }
  }

  function BridgeCost(b: Bridge.State): nat {
    (if b.pendingStart.Some? then 1 else 0) + (if b.pendingStop.Some? then 37 else 0) + PostedCost(b.posted)
    + 35 * b.startIntents + 37 * b.stopIntents
  }

  function OwesCost(owes: Option<Answer>): nat {
    if owes.Some? then 1 else 0
  }

  function Cost(w: World): nat {
    ServiceCost(w.service) + BridgeCost(w.bridge) + OwesCost(w.mainOwes) + OwesCost(w.lifeOwes)
  }

  lemma StartCoreCosts(s: Service, at: StartCorePc, ok: bool, stopError: bool)
    requires s.life == InStart(at)
    ensures LifeCost(StartCoreStep(s, at, ok).life) + OwesCost(LifeOwes(s, stopError)) < LifeCost(s.life)
  {
    assert LifeCost(StartNext(s, at, ok)) < StartCost(at);
    assert LifeOwes(s, stopError).Some? ==> StartNext(s, at, ok).Free? && StartCost(at) > 1;
  }

  lemma CatchCosts(s: Service, at: CatchPc, ok: bool, stopError: bool)
    requires s.life == InCatch(at)
    ensures LifeCost(CatchStep(s, at, ok).life) + OwesCost(LifeOwes(s, stopError)) < LifeCost(s.life)
  {
    match at case ClearDesired => case NoteStopped => case Clean => case StopNative => case ShowDisconnected =>
  }

  lemma StopCoreCosts(s: Service, at: StopCorePc, ok: bool, stopError: bool)
    requires s.life == InStop(at)
    ensures LifeCost(StopCoreStep(s, at, ok).life) + OwesCost(LifeOwes(s, stopError)) < LifeCost(s.life)
  {
    match at
    case Decide => case Unregister => case StopNative => case NoteStopped => case Clean => case ShowDisconnected =>
  }

  lemma FailCosts(s: Service, at: FailPc, stopError: bool)
    requires s.life == InFail(at)
    ensures LifeCost(FailStep(s, at).life) + OwesCost(LifeOwes(s, stopError)) < LifeCost(s.life)
  {
    match at case ClearDesired => case ShowDisconnected =>
  }

  lemma CancelCosts(s: Service, at: CancelPc, stopError: bool)
    requires s.life == InCancel(at)
    ensures LifeCost(CancelStep(s, at).life) + OwesCost(LifeOwes(s, stopError)) < LifeCost(s.life)
  {
    match at case Clean => case ShowDisconnected =>
  }

  lemma LifeCosts(s: Service, ok: bool, stopError: bool)
    requires s.life.Free? ==> s.tasks != []
    ensures ServiceCost(LifeStep(s, ok)) + OwesCost(LifeOwes(s, stopError)) < ServiceCost(s)
  {
    match s.life
    case Free =>
    case InStart(at) => StartCoreCosts(s, at, ok, stopError);
    case InCancel(at) => CancelCosts(s, at, stopError);
    case InFail(at) => FailCosts(s, at, stopError);
    case InCatch(at) => CatchCosts(s, at, ok, stopError);
    case InStop(at) => StopCoreCosts(s, at, ok, stopError);
  }

  lemma StartCommandCosts(s: Service, at: StartCommandPc, ok: bool)
    requires s.main == Starting(at)
    ensures CommandCost(StartCommandStep(s, at, ok)) + OwesCost(MainOwes(s)) < CommandCost(s)
  {
    if at.ShowDisconnected? || at.FailShow? {
      match at case ShowDisconnected => case FailShow =>
    }
  }

  lemma StopCommandCosts(s: Service, at: StopCommandPc)
    requires s.main == Stopping(at)
    ensures CommandCost(StopCommandStep(s, at)) + OwesCost(MainOwes(s)) < CommandCost(s)
  {
    if at.Enqueue? {
      assert s.shutDown ==> StopCommandStep(s, at).main.Ready?;
    }
  }

  lemma MainCosts(s: Service, ok: bool)
    requires !s.main.Ready?
    ensures ServiceCost(MainStep(s, ok)) + OwesCost(MainOwes(s)) < ServiceCost(s)
  {
    match s.main
    case Starting(at) => StartCommandCosts(s, at, ok);
    case Stopping(at) => StopCommandCosts(s, at);
    case Destroying(at) =>
  }

  lemma StartCompletedCosts(b: Bridge.State, outcome: Bridge.Outcome)
    ensures BridgeCost(Bridge.StartCompleted(b, outcome)) == BridgeCost(b)
  {
    if b.pendingStart.Some? {
      PostedCostAppend(b.posted, Bridge.AnswerStart(b.pendingStart.value, outcome));
    }
  }

  lemma AnswerCosts(b: Bridge.State, a: Answer)
    ensures BridgeCost(Answered(b, a)) == BridgeCost(b)
  {
    match a
    case StartAnswer(outcome) => StartCompletedCosts(b, outcome);
    case StopAnswer(outcome) =>
      if b.pendingStop.Some? {
        PostedCostAppend(b.posted, Bridge.AnswerStop(b.pendingStop.value, outcome));
      }
  }

  lemma StartCalledCosts(b: Bridge.State, id: nat, asked: int, android: Bridge.Android)
    ensures BridgeCost(Bridge.StartCalled(b, id, asked, android)) <= BridgeCost(b) + 36
  {
    if b.prepared && b.pendingStart.None? {
      var begun := Bridge.StartBegun(b, Bridge.Call(id, b.now, Bridge.WaitOf(asked), asked, false));
      assert BridgeCost(begun) == BridgeCost(b) + 1;
      StartCompletedCosts(begun, Bridge.Error);
    }
  }

  lemma PostedCosts(b: Bridge.State, android: Bridge.Android)
    requires b.posted != []
    ensures BridgeCost(Bridge.MessageRun(b, android)) < BridgeCost(b)
  {
    var m, t := b.posted[0], b.(posted := b.posted[1..]);
    if m.AnswerStop? && m.call.restart && m.outcome.Done? {
      StartCalledCosts(t, m.call.id, m.call.asked, android);
    }
  }

  lemma StepCosts(w: World, step: Step)
    requires CanStep(w, step)
    ensures Cost(TakeStep(w, step)) < Cost(w)
  {
    match step
    case DeliverStart =>
    case DeliverStop =>
    case RunPosted(android) => PostedCosts(w.bridge, android);
    case MainGoesOn(ok) => MainCosts(w.service, ok);
    case MainAnswers => AnswerCosts(w.bridge, w.mainOwes.value);
    case LifeGoesOn(ok) => LifeCosts(w.service, ok, w.stopError);
    case LifeAnswers => AnswerCosts(w.bridge, w.lifeOwes.value);
  }

  /** As long as something is left to do, some step can do it. */
  lemma SomeStepUntilRest(w: World) returns (step: Step)
    requires !AtRest(w)
    ensures CanStep(w, step)
  {
    if w.mainOwes.Some? {
      step := MainAnswers;
    } else if w.lifeOwes.Some? {
      step := LifeAnswers;
    } else if !w.service.main.Ready? {
      step := MainGoesOn(true);
    } else if !w.service.life.Free? || w.service.tasks != [] {
      step := LifeGoesOn(true);
    } else if w.bridge.startIntents > 0 {
      step := DeliverStart;
    } else if w.bridge.stopIntents > 0 {
      step := DeliverStop;
    } else {
      step := RunPosted(Bridge.Android(false, true, true));
    }
  }

  /** Nobody calls, nothing times out: only what is under way goes on. */
  predicate Undisturbed(es: seq<Happening>) {
    forall i | 0 <= i < |es| :: es[i].Inner?
  }

  lemma {:induction false} UndisturbedStepsAreBounded(w: World, es: seq<Happening>)
    requires PossibleHistory(w, es) && Undisturbed(es)
    ensures |es| + Cost(RunHistory(w, es)) <= Cost(w)
    decreases |es|
  {
    if es == [] {
    } else {
      StepCosts(w, es[0].step);
      UndisturbedStepsAreBounded(After(w, es[0]), es[1..]);
    }
  }

  /**
   * After any history, if nobody calls and nothing times out: the steps to come are bounded in
   * advance, and once none is possible every call has been answered exactly once, or the user is
   * still being asked for permission. So no call depends on its timeout.
   */
  lemma EveryCallIsAnswered(es: seq<Happening>, more: seq<Happening>)
    requires PossibleHistory(LAUNCHED, es)
    requires PossibleHistory(RunHistory(LAUNCHED, es), more) && Undisturbed(more)
    ensures var w := RunHistory(LAUNCHED, es);
            var end := RunHistory(w, more);
            && |more| <= Cost(w)
            && ((forall step :: !CanStep(end, step)) && !end.bridge.pendingPermission ==>
                  forall id: nat | id < end.bridge.calls :: Bridge.Count(end.bridge.answered, id) == 1)
  {
    var w := RunHistory(LAUNCHED, es);
    var end := RunHistory(w, more);
    LaunchedOk();
    HistoryKeeps(LAUNCHED, es);
    HistoryKeeps(w, more);
    UndisturbedStepsAreBounded(w, more);
    if forall step :: !CanStep(end, step) {
      if !AtRest(end) {
        var step := SomeStepUntilRest(end);
        assert false;
      }
      RestLeavesNobody(end);
    }
  }
}
