/**
 * What Flutter is told is true: a start is answered with "done" just when the core ran as the
 * lifecycle thread ended it, a stop just when its native stop did not throw, and a restart just
 * when both happened; over every history of the plugin and the service.
 */
module ServiceCallsTruth {
  import opened Options
  import opened VpnLifecycle
  import Safety = VpnLifecycleSafety
  import Bridge = CallbackBridge
  import opened ServiceCalls
  import opened ServiceCallsSafety

  // ----- The answers know the core ------------------------------------------------------------

  /** Only this thread changes whether the core runs, so between its steps it knows. */
  predicate CoreKnown(s: Service) {
    (Safety.CoreDown(s.life) ==> !s.coreRunning) && (Safety.JustStarted(s.life) ==> s.coreRunning)
  }

  lemma StartCoreKnows(s: Service, at: StartCorePc, ok: bool)
    requires s.life == InStart(at) && CoreKnown(s)
    ensures CoreKnown(StartCoreStep(s, at, ok))
  {
    match at
    case Check => case CheckCore => case ReadConfig => case ShowConnecting => case Install => case Register =>
    case Establish => case Detach => case Recheck => case HandOver => case StartNative => case NoteRunning =>
    case RecheckLate => case ShowConnected =>
  }

  lemma CancelKnows(s: Service, at: CancelPc)
    requires s.life == InCancel(at)
    ensures CoreKnown(CancelStep(s, at))
  {
  }

  lemma FailKnows(s: Service, at: FailPc)
    requires s.life == InFail(at) && CoreKnown(s)
    ensures CoreKnown(FailStep(s, at))
  {
  }

  lemma CatchKnows(s: Service, at: CatchPc, ok: bool)
    requires s.life == InCatch(at) && CoreKnown(s)
    ensures CoreKnown(CatchStep(s, at, ok))
  {
    match at case ClearDesired => case NoteStopped => case Clean => case StopNative => case ShowDisconnected =>
  }

  lemma StopCoreKnows(s: Service, at: StopCorePc, ok: bool)
    requires s.life == InStop(at) && CoreKnown(s)
    ensures CoreKnown(StopCoreStep(s, at, ok))
  {
    match at
    case Decide => case Unregister => case StopNative => case NoteStopped => case Clean => case ShowDisconnected =>
  }

  lemma LifeKnows(s: Service, ok: bool)
    requires CoreKnown(s) && (s.life.Free? ==> s.tasks != [])
    ensures CoreKnown(LifeStep(s, ok))
  {
    match s.life
    case Free =>
    case InStart(at) => StartCoreKnows(s, at, ok);
    case InCancel(at) => CancelKnows(s, at);
    case InFail(at) => FailKnows(s, at);
    case InCatch(at) => CatchKnows(s, at, ok);
    case InStop(at) => StopCoreKnows(s, at, ok);
  }

  /** What the lifecycle thread is about to answer, once it is through with the core. */
  predicate LifeTrue(w: World) {
    match w.lifeOwes
    case None => true
    case Some(StartAnswer(o)) => o == if w.service.coreRunning then Bridge.Done else Bridge.Error
    case Some(StopAnswer(o)) => !w.service.coreRunning && o == if w.stopError then Bridge.Error else Bridge.Done
  }

  /** The main thread has only errors to report: it cancels starts, and stops only after onDestroy. */
  predicate MainTrue(w: World) {
    match w.mainOwes
    case None => true
    case Some(StartAnswer(o)) => o == Bridge.Error
    case Some(StopAnswer(o)) => o == Bridge.Error && w.service.shutDown
  }

  predicate AnswersTrue(w: World) {
    CoreKnown(w.service) && LifeTrue(w) && MainTrue(w)
  }

  lemma LifeStepTrue(w: World, ok: bool)
    requires AnswersTrue(w) && CanStep(w, LifeGoesOn(ok))
    ensures AnswersTrue(TakeStep(w, LifeGoesOn(ok)))
  {
    LifeKnows(w.service, ok);
    match w.service.life
    case Free => case InStart(_) => case InCancel(_) => case InFail(_) => case InCatch(_) => case InStop(_) =>
  }

  lemma MainStepTrue(w: World, ok: bool)
    requires AnswersTrue(w) && CanStep(w, MainGoesOn(ok))
    ensures AnswersTrue(TakeStep(w, MainGoesOn(ok)))
  {
    match w.service.main
    case Starting(_) => case Stopping(_) => case Destroying(_) =>
  }

  lemma EventTrue(w: World, e: Happening)
    requires AnswersTrue(w) && CanHappen(w, e)
    ensures AnswersTrue(After(w, e))
  {
    match e
    case Call(_) => case SendIntent(_) => case Revoke => case Destroyed =>
    case Inner(step) =>
      match step
      case MainGoesOn(ok) => MainStepTrue(w, ok);
      case LifeGoesOn(ok) => LifeStepTrue(w, ok);
      case DeliverStart => case DeliverStop => case RunPosted(_) => case MainAnswers => case LifeAnswers =>
  }

  // ----- What has really happened -------------------------------------------------------------

  datatype Kind = Starts | Stops | Restarts

  /**
   * The calls by number; whether the native stop of the latest stopCore threw; the calls whose
   * wait to start the lifecycle thread ended while the core ran; and those whose wait to stop it
   * ended with the core down after a native stop that did not throw.
   */
  datatype Story = Story(kinds: seq<Kind>, threw: bool, started: set<nat>, stopped: set<nat>)

  const UNTOLD := Story([], false, {}, {})

  /** The call that leaves a slot. */
  function Leaving(slot: Option<Bridge.Call>, slot': Option<Bridge.Call>): set<nat> {
    if slot.Some? && slot'.None? then {slot.value.id} else {}
  }

  function Told(h: Story, w: World, e: Happening): Story
    requires CanHappen(w, e)
  {
    var (s, b, b') := (w.service, w.bridge, After(w, e).bridge);
    match e
    case Call(CallStart(_, _)) => h.(kinds := h.kinds + [Starts])
    case Call(CallStop(_, restart, _)) => h.(kinds := h.kinds + [if restart then Restarts else Stops])
    case Inner(LifeGoesOn(ok)) =>
      if s.life == InStop(Decide) then h.(threw := false)
      else if s.life == InStop(StopCorePc.StopNative) && s.needsNativeStop && !ok then h.(threw := true)
      else h
    case Inner(LifeAnswers) =>
      if s.coreRunning then h.(started := h.started + Leaving(b.pendingStart, b'.pendingStart))
      else if !h.threw then h.(stopped := h.stopped + Leaving(b.pendingStop, b'.pendingStop))
      else h
    case _ => h
  }

  ghost function StoryOf(w: World, es: seq<Happening>, h: Story): Story
    requires PossibleHistory(w, es)
    decreases |es|
  {
    if es == [] then h else StoryOf(After(w, es[0]), es[1..], Told(h, w, es[0]))
  }

  // ----- One answer posted by one step --------------------------------------------------------

  /** The messages posted before, but for the one that the handler runs now. */
  function Remaining(b: Bridge.State, e: Happening): seq<Bridge.Message>
    requires e.Inner? && e.step.RunPosted? ==> b.posted != []
  {
    if e.Inner? && e.step.RunPosted? then b.posted[1..] else b.posted
  }

  predicate TimesOut(e: Happening, start: bool) {
    e.Call? && if start then e.e.StartTimeout? else e.e.StopTimeout?
  }

  /** Whose answer it is, and that it says what happened. */
  predicate Truthful(w: World, e: Happening, m: Bridge.Message) {
    match m
    case AnswerStart(call, o) =>
      && (w.bridge.pendingStart.Some? ==> call == w.bridge.pendingStart.value)
      && (o.Done? <==> e == Inner(LifeAnswers) && w.service.coreRunning)
      && (o.Timeout? <==> TimesOut(e, true))
    case AnswerStop(call, o) =>
      && (w.bridge.pendingStop.Some? ==> call == w.bridge.pendingStop.value)
      && (o.Done? <==> e == Inner(LifeAnswers) && !w.service.coreRunning && !w.stopError)
      && (o.Timeout? <==> TimesOut(e, false))
  }

  predicate OneTruthfulMessage(w: World, e: Happening, before: seq<Bridge.Message>, after: seq<Bridge.Message>) {
    after == before || (|after| == |before| + 1 && before <= after && Truthful(w, e, after[|before|]))
  }

  /** A call that fails at once finds its slot free. */
  lemma StartCallPosts(w: World, e: Happening, b: Bridge.State, id: nat, asked: int, android: Bridge.Android)
    requires !TimesOut(e, true) && e != Inner(LifeAnswers) && b.pendingStart == w.bridge.pendingStart
    ensures OneTruthfulMessage(w, e, b.posted, Bridge.StartCalled(b, id, asked, android).posted)
  {
  }

  lemma StopCallPosts(w: World, e: Bridge.Event)
    requires e.CallStop?
    ensures OneTruthfulMessage(w, Call(e), w.bridge.posted, Bridge.Apply(w.bridge, e).posted)
  {
  }

  lemma PermissionPosts(w: World, e: Bridge.Event)
    requires CanHappen(w, Call(e)) && e.PermissionResult?
    ensures OneTruthfulMessage(w, Call(e), w.bridge.posted, Bridge.Apply(w.bridge, e).posted)
  {
  }

  lemma StartTimerPosts(w: World, e: Bridge.Event)
    requires CanHappen(w, Call(e)) && e.StartTimeout?
    ensures OneTruthfulMessage(w, Call(e), w.bridge.posted, Bridge.Apply(w.bridge, e).posted)
  {
  }

  lemma StopTimerPosts(w: World, e: Bridge.Event)
    requires CanHappen(w, Call(e)) && e.StopTimeout?
    ensures OneTruthfulMessage(w, Call(e), w.bridge.posted, Bridge.Apply(w.bridge, e).posted)
  {
  }

  lemma CallsPost(w: World, e: Bridge.Event)
    requires CanHappen(w, Call(e))
    ensures OneTruthfulMessage(w, Call(e), w.bridge.posted, Bridge.Apply(w.bridge, e).posted)
  {
    var b := w.bridge;
    match e
    case CallStart(asked, android) =>
      StartCallPosts(w, Call(e), b.(calls := b.calls + 1), b.calls, asked, android);
    case CallStop(_, _, _) => StopCallPosts(w, e);
    case Prepare =>
    case Tick(_) =>
    case PermissionResult(_, _) => PermissionPosts(w, e);
    case StartTimeout(_, _) => StartTimerPosts(w, e);
    case StopTimeout(_) => StopTimerPosts(w, e);
  }

  lemma RunningPosts(w: World, android: Bridge.Android)
    requires CanStep(w, RunPosted(android))
    ensures OneTruthfulMessage(w, Inner(RunPosted(android)), w.bridge.posted[1..],
                               Bridge.MessageRun(w.bridge, android).posted)
  {
  }

  lemma StepPosts(w: World, e: Happening)
    requires AnswersTrue(w) && CanHappen(w, e)
    ensures OneTruthfulMessage(w, e, Remaining(w.bridge, e), After(w, e).bridge.posted)
  {
    match e
    case Call(call) => CallsPost(w, call);
    case Inner(RunPosted(android)) => RunningPosts(w, android);
    case _ =>
  }

  // ----- What is known of each call by the place where it is ------------------------------------

  predicate KnownStart(h: Story, id: nat) {
    id < |h.kinds| && !h.kinds[id].Stops? && (h.kinds[id].Restarts? ==> id in h.stopped)
  }

  predicate KnownStop(h: Story, call: Bridge.Call) {
    call.id < |h.kinds| && h.kinds[call.id] == if call.restart then Restarts else Stops
  }

  predicate KnownMessage(h: Story, m: Bridge.Message) {
    match m
    case AnswerStart(call, o) => KnownStart(h, call.id) && (o.Done? ==> call.id in h.started)
    case AnswerStop(call, o) => KnownStop(h, call) && (o.Done? ==> call.id in h.stopped)
  }

  predicate KnownReply(h: Story, r: Bridge.Reply) {
    && r.id < |h.kinds|
    && (r.outcome.Done? ==>
          && (!h.kinds[r.id].Stops? ==> r.id in h.started)
          && (!h.kinds[r.id].Starts? ==> r.id in h.stopped))
  }

  ghost predicate Known(h: Story, b: Bridge.State) {
    && (b.pendingStart.Some? ==> KnownStart(h, b.pendingStart.value.id))
    && (b.pendingStop.Some? ==> KnownStop(h, b.pendingStop.value))
    && (forall m | m in b.posted :: KnownMessage(h, m))
    && (forall r | r in b.answered :: KnownReply(h, r))
  }

  /** A story may only go on. */
  predicate GoesOn(h: Story, h': Story) {
    h.kinds <= h'.kinds && h.started <= h'.started && h.stopped <= h'.stopped
  }

  lemma StillKnown(h: Story, h': Story, b: Bridge.State)
    requires Known(h, b) && GoesOn(h, h')
    ensures Known(h', b)
  {
    forall m | m in b.posted ensures KnownMessage(h', m) {
      assert KnownMessage(h, m);
    }
    forall r | r in b.answered ensures KnownReply(h', r) {
      assert KnownReply(h, r);
    }
  }

  lemma ToldGoesOn(h: Story, w: World, e: Happening)
    requires CanHappen(w, e)
    ensures GoesOn(h, Told(h, w, e))
  {
  }

  lemma CompletedStartKnown(h: Story, b: Bridge.State, o: Bridge.Outcome)
    requires Known(h, b) && (o.Done? && b.pendingStart.Some? ==> b.pendingStart.value.id in h.started)
    ensures Known(h, Bridge.StartCompleted(b, o))
  {
  }

  lemma CompletedStopKnown(h: Story, b: Bridge.State, o: Bridge.Outcome)
    requires Known(h, b) && (o.Done? && b.pendingStop.Some? ==> b.pendingStop.value.id in h.stopped)
    ensures Known(h, Bridge.StopCompleted(b, o))
  {
  }

  lemma RepliedKnown(h: Story, b: Bridge.State, id: nat, o: Bridge.Outcome)
    requires Known(h, b) && KnownReply(h, Bridge.Reply(id, o))
    ensures Known(h, Bridge.Answered(b, id, o))
  {
  }

  lemma CalledStartKnown(h: Story, b: Bridge.State, id: nat, asked: int, android: Bridge.Android)
    requires Known(h, b) && KnownStart(h, id)
    ensures Known(h, Bridge.StartCalled(b, id, asked, android))
  {
    if b.prepared && b.pendingStart.None? {
      var t := Bridge.StartBegun(b, Bridge.Call(id, b.now, Bridge.WaitOf(asked), asked, false));
      assert Known(h, t);
      CompletedStartKnown(h, t, Bridge.Error);
    } else {
      RepliedKnown(h, b, id, Bridge.Error);
    }
  }

  lemma CalledStopKnown(h: Story, b: Bridge.State, id: nat, asked: int, restart: bool, sent: bool)
    requires Known(h, b) && id < |h.kinds| && h.kinds[id] == if restart then Restarts else Stops
    ensures Known(h, Bridge.StopCalled(b, id, asked, restart, sent))
  {
    if b.pendingStop.None? {
      var t := Bridge.StopBegun(b, Bridge.Call(id, b.now, Bridge.WaitOf(asked), asked, restart));
      assert Known(h, t);
      CompletedStopKnown(h, t, Bridge.Error);
    } else {
      RepliedKnown(h, b, id, Bridge.Error);
    }
  }

  lemma RunMessageKnown(h: Story, b: Bridge.State, android: Bridge.Android)
    requires Known(h, b) && b.posted != []
    ensures Known(h, Bridge.MessageRun(b, android))
  {
    var m, t := b.posted[0], b.(posted := b.posted[1..]);
    assert KnownMessage(h, m);
    assert Known(h, t);
    if m.AnswerStop? && m.call.restart && m.outcome.Done? {
      CalledStartKnown(h, t, m.call.id, m.call.asked, android);
    } else {
      RepliedKnown(h, t, m.call.id, m.outcome);
    }
  }

  ghost predicate StoryFits(h: Story, w: World) {
    && AnswersTrue(w) && w.stopError == h.threw && |h.kinds| == w.bridge.calls
    && Known(h, w.bridge)
  }

  lemma CallsKnown(h: Story, w: World, e: Bridge.Event)
    requires StoryFits(h, w) && CanHappen(w, Call(e))
    ensures Known(Told(h, w, Call(e)), Bridge.Apply(w.bridge, e))
  {
    var b, h' := w.bridge, Told(h, w, Call(e));
    ToldGoesOn(h, w, Call(e));
    StillKnown(h, h', b);
    match e
    case CallStart(asked, android) =>
      CalledStartKnown(h', b.(calls := b.calls + 1), b.calls, asked, android);
    case CallStop(asked, restart, sent) =>
      CalledStopKnown(h', b.(calls := b.calls + 1), b.calls, asked, restart, sent);
    case PermissionResult(_, _) => CompletedStartKnown(h', b.(pendingPermission := false), Bridge.Error);
    case StartTimeout(due, _) =>
      CompletedStartKnown(h', b.(startTimers := b.startTimers - multiset{due}), Bridge.Timeout);
    case StopTimeout(due) =>
      CompletedStopKnown(h', b.(stopTimers := b.stopTimers - multiset{due}), Bridge.Timeout);
    case Prepare =>
    case Tick(_) =>
  }

  lemma AnswersKnown(h: Story, w: World, step: Step)
    requires StoryFits(h, w) && CanStep(w, step) && (step.MainAnswers? || step.LifeAnswers?)
    ensures Known(Told(h, w, Inner(step)), TakeStep(w, step).bridge)
  {
    var h' := Told(h, w, Inner(step));
    ToldGoesOn(h, w, Inner(step));
    StillKnown(h, h', w.bridge);
    var answer := if step.MainAnswers? then w.mainOwes.value else w.lifeOwes.value;
    match answer
    case StartAnswer(o) => CompletedStartKnown(h', w.bridge, o);
    case StopAnswer(o) => CompletedStopKnown(h', w.bridge, o);
  }

  lemma EventKnown(h: Story, w: World, e: Happening)
    requires StoryFits(h, w) && CanHappen(w, e)
    ensures Known(Told(h, w, e), After(w, e).bridge)
  {
    ToldGoesOn(h, w, e);
    StillKnown(h, Told(h, w, e), w.bridge);
    match e
    case Call(call) => CallsKnown(h, w, call);
    case Inner(RunPosted(android)) => RunMessageKnown(h, w.bridge, android);
    case Inner(MainAnswers) => AnswersKnown(h, w, MainAnswers);
    case Inner(LifeAnswers) => AnswersKnown(h, w, LifeAnswers);
    case _ =>
  }

  /** Each call is numbered, and the native stop's failure is noted. */
  lemma EventNotes(h: Story, w: World, e: Happening)
    requires StoryFits(h, w) && CanHappen(w, e)
    ensures After(w, e).stopError == Told(h, w, e).threw && |Told(h, w, e).kinds| == After(w, e).bridge.calls
  {
    match e
    case Call(call) => Bridge.StepCounts(w.bridge, call);
    case Inner(RunPosted(android)) => Bridge.StepCounts(w.bridge, Bridge.RunPosted(android));
    case _ =>
  }

  lemma EventFits(h: Story, w: World, e: Happening)
    requires StoryFits(h, w) && CanHappen(w, e)
    ensures StoryFits(Told(h, w, e), After(w, e))
  {
    EventTrue(w, e);
    EventKnown(h, w, e);
    EventNotes(h, w, e);
  }

  lemma {:induction false} HistoryFits(h: Story, w: World, es: seq<Happening>)
    requires StoryFits(h, w) && PossibleHistory(w, es)
    ensures StoryFits(StoryOf(w, es, h), RunHistory(w, es))
    decreases |es|
  {
    if es == [] {
    } else {
      EventFits(h, w, es[0]);
      HistoryFits(Told(h, w, es[0]), After(w, es[0]), es[1..]);
    }
  }

  // ----- What happened is told ------------------------------------------------------------------

  /** The call has been told "done", or the handler is going to tell it. */
  ghost predicate Reaches(b: Bridge.State, id: nat, start: bool) {
    || Bridge.Reply(id, Bridge.Done) in b.answered
    || exists m | m in b.posted :: m.AnswerStart? == start && m.call.id == id && m.outcome.Done?
  }

  ghost predicate Heard(h: Story, b: Bridge.State) {
    && (forall id | id in h.started :: Reaches(b, id, true))
    && (forall id | id in h.stopped :: id < |h.kinds| && (h.kinds[id].Stops? ==> Reaches(b, id, false)))
  }

  lemma CallsLeaveReplies(b: Bridge.State, e: Bridge.Event)
    requires Bridge.Enabled(b, e) && !e.RunPosted?
    ensures b.answered <= Bridge.Apply(b, e).answered
  {
    match e
    case Prepare => case CallStart(_, _) => case CallStop(_, _, _) => case PermissionResult(_, _) =>
    case StartTimeout(_, _) => case StopTimeout(_) => case Tick(_) =>
    case ServiceEndsStart(_) => case ServiceEndsStop(_) =>
  }

  lemma StepsLeaveReplies(w: World, step: Step)
    requires CanStep(w, step)
    ensures w.bridge.answered <= TakeStep(w, step).bridge.answered
  {
    match step
    case RunPosted(_) => case MainAnswers => case LifeAnswers => case DeliverStart => case DeliverStop =>
    case MainGoesOn(_) => case LifeGoesOn(_) =>
  }

  lemma RepliesStay(w: World, e: Happening)
    requires CanHappen(w, e)
    ensures w.bridge.answered <= After(w, e).bridge.answered
  {
    match e
    case Call(call) => CallsLeaveReplies(w.bridge, call);
    case Inner(step) => StepsLeaveReplies(w, step);
    case _ =>
  }

  /** The message that the handler runs reaches its call, unless it was a restart's stop. */
  lemma HeadReaches(h: Story, b: Bridge.State, android: Bridge.Android)
    requires b.posted != [] && KnownMessage(h, b.posted[0]) && b.posted[0].outcome.Done?
    requires b.posted[0].AnswerStart? || h.kinds[b.posted[0].call.id].Stops?
    ensures Bridge.Reply(b.posted[0].call.id, Bridge.Done) in Bridge.MessageRun(b, android).answered
  {
  }

  lemma ReachesOn(h: Story, w: World, e: Happening, id: nat, start: bool)
    requires StoryFits(h, w) && CanHappen(w, e) && Reaches(w.bridge, id, start)
    requires id < |h.kinds| && (start || h.kinds[id].Stops?)
    ensures Reaches(After(w, e).bridge, id, start)
  {
    var b, b' := w.bridge, After(w, e).bridge;
    RepliesStay(w, e);
    StepPosts(w, e);
    if Bridge.Reply(id, Bridge.Done) !in b.answered {
      var m :| m in b.posted && m.AnswerStart? == start && m.call.id == id && m.outcome.Done?;
      if m in Remaining(b, e) {
        assert m in b'.posted;
      } else {
        assert m == b.posted[0];
        HeadReaches(h, b, e.step.android);
      }
    }
  }

  /** A call newly known to be started or stopped has its answer posted. */
  lemma NewsReach(h: Story, w: World, e: Happening, id: nat)
    requires StoryFits(h, w) && CanHappen(w, e)
    ensures id in Told(h, w, e).started && id !in h.started ==> Reaches(After(w, e).bridge, id, true)
    ensures id in Told(h, w, e).stopped && id !in h.stopped ==>
              id < |h.kinds| && Reaches(After(w, e).bridge, id, false)
  {
    StepPosts(w, e);
    if e == Inner(LifeAnswers) {
      var b, b' := w.bridge, After(w, e).bridge;
      if b'.posted != b.posted {
        assert b'.posted[|b.posted|] in b'.posted;
      }
    }
  }

  lemma EventHeard(h: Story, w: World, e: Happening)
    requires StoryFits(h, w) && Heard(h, w.bridge) && CanHappen(w, e)
    ensures Heard(Told(h, w, e), After(w, e).bridge)
  {
    var h', b' := Told(h, w, e), After(w, e).bridge;
    ToldGoesOn(h, w, e);
    forall id | id in h'.started ensures Reaches(b', id, true) {
      NewsReach(h, w, e, id);
      if id in h.started {
        ReachesOn(h, w, e, id, true);
      }
    }
    forall id | id in h'.stopped ensures id < |h'.kinds| && (h'.kinds[id].Stops? ==> Reaches(b', id, false)) {
      NewsReach(h, w, e, id);
      if id in h.stopped && h.kinds[id].Stops? {
        ReachesOn(h, w, e, id, false);
      }
    }
  }

  lemma {:induction false} HistoryHeard(h: Story, w: World, es: seq<Happening>)
    requires StoryFits(h, w) && Heard(h, w.bridge) && PossibleHistory(w, es)
    ensures Heard(StoryOf(w, es, h), RunHistory(w, es).bridge)
    decreases |es|
  {
    if es == [] {
    } else {
      EventFits(h, w, es[0]);
      EventHeard(h, w, es[0]);
      HistoryHeard(Told(h, w, es[0]), After(w, es[0]), es[1..]);
    }
  }

  // ----- The main results -----------------------------------------------------------------------

  /**
   * After any history: whatever one more step posts is the answer to the call waiting, or to the
   * one that comes in and fails. It says "done" just when the lifecycle thread answers, with the
   * core running for a start, and with the core down for a stop whose native stop did not throw;
   * "timeout" just when its timer ran out; and in all other cases, refused permission, an intent
   * that cannot be sent, a failed promotion, a rejected task or a stop in between, an error.
   */
  lemma EveryAnswerIsTrue(es: seq<Happening>, e: Happening)
    requires PossibleHistory(LAUNCHED, es) && CanHappen(RunHistory(LAUNCHED, es), e)
    ensures var w := RunHistory(LAUNCHED, es);
            && OneTruthfulMessage(w, e, Remaining(w.bridge, e), After(w, e).bridge.posted)
            && w.stopError == StoryOf(LAUNCHED, es, UNTOLD).threw
  {
    HistoryFits(UNTOLD, LAUNCHED, es);
    StepPosts(RunHistory(LAUNCHED, es), e);
  }

  lemma {:induction false} AnsweredOnce(replies: seq<Bridge.Reply>, r: Bridge.Reply, q: Bridge.Reply)
    requires r in replies && q in replies && r.id == q.id
    ensures Bridge.Count(replies, r.id) >= if r == q then 1 else 2
  {
    var last, rest := replies[|replies| - 1], replies[..|replies| - 1];
    assert replies == rest + [last];
    if last == r || last == q {
      if r != q {
        var other := if last == r then q else r;
        AnsweredOnce(rest, other, other);
      }
    } else {
      AnsweredOnce(rest, r, q);
    }
  }

  lemma {:induction false} PostedOnce(posted: seq<Bridge.Message>, m: Bridge.Message)
    requires m in posted
    ensures Bridge.InPosted(posted, m.call.id) >= 1
  {
    if posted[0] != m {
      PostedOnce(posted[1..], m);
    }
  }

  /** A call that was told something else than "done" is neither told so as well nor going to be. */
  lemma OneAnswerOnly(b: Bridge.State, r: Bridge.Reply, start: bool)
    requires Bridge.Inv(b) && r in b.answered && Reaches(b, r.id, start)
    ensures r.outcome.Done?
  {
    assert Bridge.Places(b, r.id) <= 1;
    AnsweredOnce(b.answered, r, r);
    if Bridge.Reply(r.id, Bridge.Done) in b.answered {
      AnsweredOnce(b.answered, r, Bridge.Reply(r.id, Bridge.Done));
    } else {
      var m :| m in b.posted && m.AnswerStart? == start && m.call.id == r.id && m.outcome.Done?;
      PostedOnce(b.posted, m);
    }
  }

  /**
   * Over every history, Flutter is told "done" of a call if and only if it is so: of a start, that
   * the lifecycle thread ended its wait while the core ran; of a stop, that it ended its wait with
   * the core down and no error from the native stop; of a restart, both, one wait after the other.
   */
  lemma DoneMeansDone(es: seq<Happening>, r: Bridge.Reply)
    requires PossibleHistory(LAUNCHED, es) && r in RunHistory(LAUNCHED, es).bridge.answered
    ensures var h := StoryOf(LAUNCHED, es, UNTOLD);
            && r.id < |h.kinds|
            && (r.outcome.Done? <==>
                  match h.kinds[r.id]
                  case Starts => r.id in h.started
                  case Stops => r.id in h.stopped
                  case Restarts => r.id in h.stopped && r.id in h.started)
  {
    var h, w := StoryOf(LAUNCHED, es, UNTOLD), RunHistory(LAUNCHED, es);
    HistoryFits(UNTOLD, LAUNCHED, es);
    HistoryHeard(UNTOLD, LAUNCHED, es);
    LaunchedOk();
    HistoryKeeps(LAUNCHED, es);
    assert KnownReply(h, r);
    if h.kinds[r.id].Stops? && r.id in h.stopped {
      OneAnswerOnly(w.bridge, r, false);
    } else if !h.kinds[r.id].Stops? && r.id in h.started {
      OneAnswerOnly(w.bridge, r, true);
    }
  }
}
