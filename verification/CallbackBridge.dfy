/**
 * How Flutter's calls to start, stop and restart get their answers: the two callback slots of
 * ClashmiVpnRuntime.kt, and the plugin and its main handler (ClashmiVpnServicePlugin.kt). A
 * Result is known by the number of the call that brought it.
 */
module CallbackBridge {
  import opened Options

  const DEFAULT_TIMEOUT_MILLIS := 60000

  datatype Outcome = Done | Error | Timeout

  /** A call waiting in a slot; `wait` is its timeout after defaulting, `asked` as it came. */
  datatype Call = Call(id: nat, registered: nat, wait: nat, asked: int, restart: bool)

  /** A runnable posted to the main handler when a slot is completed. */
  datatype Message = AnswerStart(call: Call, outcome: Outcome) | AnswerStop(call: Call, outcome: Outcome)

  /** What Flutter gets to know of a call. */
  datatype Reply = Reply(id: nat, outcome: Outcome)

  /**
   * The due times of the timeouts posted with a delay and not run yet, every answer given, and
   * how many intents to start and to stop the service were sent and not delivered yet.
   */
  datatype State = State(
    now: nat, prepared: bool, pendingStart: Option<Call>, pendingStop: Option<Call>, pendingPermission: bool,
    posted: seq<Message>, startTimers: multiset<nat>, stopTimers: multiset<nat>,
    answered: seq<Reply>, calls: nat, startIntents: nat, stopIntents: nat)

  const ATTACHED := State(0, false, None, None, false, [], multiset{}, multiset{}, [], 0, 0, 0)

  /** What Android says during a start: is permission missing, is there an Activity, does the intent go out? */
  datatype Android = Android(needsPermission: bool, hasActivity: bool, intentSent: bool)

  function WaitOf(asked: int): nat {
    if asked > 0 then asked else DEFAULT_TIMEOUT_MILLIS
  }

  // ----- The slots, as functions ----------------------------------------------------------

  function Answered(s: State, id: nat, outcome: Outcome): State {
    s.(answered := s.answered + [Reply(id, outcome)])
  }

  function StartCompleted(s: State, outcome: Outcome): State {
    if s.pendingStart.None? then s
    else s.(pendingStart := None, posted := s.posted + [AnswerStart(s.pendingStart.value, outcome)])
  }

  function StopCompleted(s: State, outcome: Outcome): State {
    if s.pendingStop.None? then s
    else s.(pendingStop := None, posted := s.posted + [AnswerStop(s.pendingStop.value, outcome)])
  }

  // ----- The plugin, as functions ---------------------------------------------------------

  function ServiceStarted(s: State, intentSent: bool): State {
    if intentSent then s.(startIntents := s.startIntents + 1) else StartCompleted(s, Error)
  }

  /** The call takes the slot and schedules its own timeout. */
  function StartBegun(s: State, call: Call): State {
    s.(pendingStart := Some(call), startTimers := s.startTimers + multiset{s.now + call.wait})
  }

  function StopBegun(s: State, call: Call): State {
    s.(pendingStop := Some(call), stopTimers := s.stopTimers + multiset{s.now + call.wait})
  }

  /** The second half of `start`: the service starts at once, or the user is asked, or cannot be. */
  function StartPermitted(s: State, android: Android): State {
    if !android.needsPermission then ServiceStarted(s, android.intentSent)
    else if !android.hasActivity then StartCompleted(s, Error)
    else s.(pendingPermission := true)
  }

  /** `start`: also run for the stop half of a restart. */
  function StartCalled(s: State, id: nat, asked: int, android: Android): State {
    if !s.prepared || s.pendingStart.Some? then Answered(s, id, Error)
    else
      StartPermitted(StartBegun(s, Call(id, s.now, WaitOf(asked), asked, false)), android)
  }

  function StopCalled(s: State, id: nat, asked: int, restart: bool, intentSent: bool): State {
    if s.pendingStop.Some? then Answered(s, id, Error)
    else
      StopRequested(StopBegun(s, Call(id, s.now, WaitOf(asked), asked, restart)), intentSent)
  }

  function StopRequested(s: State, intentSent: bool): State {
    if intentSent then s.(stopIntents := s.stopIntents + 1) else StopCompleted(s, Error)
  }

  /** A start that times out has the service stopped. */
  function StartTimedOut(s: State, due: nat, intentSent: bool): State {
    var t := StartCompleted(s.(startTimers := s.startTimers - multiset{due}), Timeout);
    if s.pendingStart.Some? && intentSent then t.(stopIntents := t.stopIntents + 1) else t
  }

  function StopTimedOut(s: State, due: nat): State {
    StopCompleted(s.(stopTimers := s.stopTimers - multiset{due}), Timeout)
  }

  function PermissionAnswered(s: State, granted: bool, intentSent: bool): State {
    if !s.pendingPermission then s
    else
      var t := s.(pendingPermission := false);
      if granted then ServiceStarted(t, intentSent) else StartCompleted(t, Error)
  }

  /** The main handler runs the oldest posted runnable. */
  function MessageRun(s: State, android: Android): State
    requires s.posted != []
  {
    var m, t := s.posted[0], s.(posted := s.posted[1..]);
    if m.AnswerStop? && m.call.restart && m.outcome.Done?
    then StartCalled(t, m.call.id, m.call.asked, android)
    else Answered(t, m.call.id, m.outcome)
  }

  // ----- The same operations on the objects -----------------------------------------------

  class Plugin {
    var now: nat
    var prepared: bool
    var pendingStart: Option<Call>
    var pendingStop: Option<Call>
    var pendingPermission: bool
    var posted: seq<Message>
    var startTimers: multiset<nat>
    var stopTimers: multiset<nat>
    var answered: seq<Reply>
    var calls: nat
    var startIntents: nat
    var stopIntents: nat

    function View(): State
      reads this
    {
      State(now, prepared, pendingStart, pendingStop, pendingPermission, posted, startTimers, stopTimers,
            answered, calls, startIntents, stopIntents)
    }

    constructor ()
      ensures View() == ATTACHED
    {
      now, prepared, pendingStart, pendingStop, pendingPermission := 0, false, None, None, false;
      posted, startTimers, stopTimers, answered, calls := [], multiset{}, multiset{}, [], 0;
      startIntents, stopIntents := 0, 0;
    }

    method Succeed(id: nat, outcome: Outcome)
      modifies this
      ensures View() == Answered(old(View()), id, outcome)
    {
      answered := answered + [Reply(id, outcome)];
    }

    method BeginStart(call: Call) returns (begun: bool)
      modifies this
      ensures begun <==> old(pendingStart).None?
      ensures View() == if begun then old(View()).(pendingStart := Some(call)) else old(View())
    {
      if pendingStart.Some? {
        return false;
      }
      pendingStart := Some(call);
      return true;
    }

    method CompleteStart(outcome: Outcome) returns (completed: bool)
      modifies this
      ensures completed <==> old(pendingStart).Some?
      ensures View() == StartCompleted(old(View()), outcome)
    {
      match pendingStart
      case None => return false;
      case Some(call) =>
        pendingStart := None;
        posted := posted + [AnswerStart(call, outcome)];
        return true;
    }

    /** A stop answers a start that is still waiting. */
    method ClearPendingStart()
      modifies this
      ensures View() == StartCompleted(old(View()), Error)
    {
      if pendingStart.None? {
        return;
      }
      var call := pendingStart.value;
      pendingStart := None;
      posted := posted + [AnswerStart(call, Error)];
    }

    method BeginStop(call: Call) returns (begun: bool)
      modifies this
      ensures begun <==> old(pendingStop).None?
      ensures View() == if begun then old(View()).(pendingStop := Some(call)) else old(View())
    {
      if pendingStop.Some? {
        return false;
      }
      pendingStop := Some(call);
      return true;
    }

    method CompleteStop(outcome: Outcome) returns (completed: bool)
      modifies this
      ensures completed <==> old(pendingStop).Some?
      ensures View() == StopCompleted(old(View()), outcome)
    {
      match pendingStop
      case None => return false;
      case Some(call) =>
        pendingStop := None;
        posted := posted + [AnswerStop(call, outcome)];
        return true;
    }

    method StartVpnService(intentSent: bool)
      modifies this
      ensures View() == ServiceStarted(old(View()), intentSent)
    {
      if intentSent {
        startIntents := startIntents + 1;
      } else {
        var _ := CompleteStart(Error);
      }
    }

    method StopService(intentSent: bool) returns (sent: bool)
      modifies this
      ensures sent == intentSent
      ensures View() == if sent then old(View()).(stopIntents := old(stopIntents) + 1) else old(View())
    {
      if intentSent {
        stopIntents := stopIntents + 1;
      }
      return intentSent;
    }

    method StartIfPermitted(android: Android)
      modifies this
      ensures View() == StartPermitted(old(View()), android)
    {
      if android.needsPermission {
        if !android.hasActivity {
          var _ := CompleteStart(Error);
          return;
        }
        pendingPermission := true;
        return;
      }
      StartVpnService(android.intentSent);
    }

    method Start(id: nat, asked: int, android: Android)
      modifies this
      ensures View() == StartCalled(old(View()), id, asked, android)
    {
      if !prepared {
        Succeed(id, Error);
        return;
      }
      var wait: nat := if asked > 0 then asked else DEFAULT_TIMEOUT_MILLIS;
      var begun := BeginStart(Call(id, now, wait, asked, false));
      if !begun {
        Succeed(id, Error);
        return;
      }
      startTimers := startTimers + multiset{now + wait};
      assert View() == StartBegun(old(View()), Call(id, now, wait, asked, false));
      StartIfPermitted(android);
    }

    method StopServiceOrFail(intentSent: bool)
      modifies this
      ensures View() == StopRequested(old(View()), intentSent)
    {
      var sent := StopService(intentSent);
      if !sent {
        var _ := CompleteStop(Error);
      }
    }

    method Stop(id: nat, asked: int, restart: bool, intentSent: bool)
      modifies this
      ensures View() == StopCalled(old(View()), id, asked, restart, intentSent)
    {
      var wait: nat := if asked > 0 then asked else DEFAULT_TIMEOUT_MILLIS;
      ghost var s := View();
      var begun := BeginStop(Call(id, now, wait, asked, restart));
      if !begun {
        Succeed(id, Error);
        return;
      }
      stopTimers := stopTimers + multiset{now + wait};
      assert View() == StopBegun(s, Call(id, s.now, WaitOf(asked), asked, restart));
      StopServiceOrFail(intentSent);
    }

    /** The timeout of a start is due; a stop that cannot be sent then is only logged. */
    method RunStartTimeout(due: nat, intentSent: bool)
      requires due in startTimers
      modifies this
      ensures View() == StartTimedOut(old(View()), due, intentSent)
    {
      startTimers := startTimers - multiset{due};
      var completed := CompleteStart(Timeout);
      if completed {
        var _ := StopService(intentSent);
      }
    }

    method RunStopTimeout(due: nat)
      requires due in stopTimers
      modifies this
      ensures View() == StopTimedOut(old(View()), due)
    {
      stopTimers := stopTimers - multiset{due};
      var _ := CompleteStop(Timeout);
    }

    method OnActivityResult(granted: bool, intentSent: bool)
      modifies this
      ensures View() == PermissionAnswered(old(View()), granted, intentSent)
    {
      if !pendingPermission {
        return;
      }
      pendingPermission := false;
      if granted {
        StartVpnService(intentSent);
      } else {
        var _ := CompleteStart(Error);
      }
    }

    method RunMessage(android: Android)
      requires posted != []
      modifies this
      ensures View() == MessageRun(old(View()), android)
    {
      var m := posted[0];
      posted := posted[1..];
      if m.AnswerStop? && m.call.restart && m.outcome.Done? {
        Start(m.call.id, m.call.asked, android);
      } else {
        Succeed(m.call.id, m.outcome);
      }
    }
  }

  // ----- Histories ------------------------------------------------------------------------

  datatype Event =
    | Prepare
    | CallStart(asked: int, android: Android)
    | CallStop(asked: int, restart: bool, intentSent: bool)
    | PermissionResult(granted: bool, intentSent: bool)
    | ServiceEndsStart(outcome: Outcome)  // completeStart or clearPendingStart, from either thread
    | ServiceEndsStop(outcome: Outcome)
    | StartTimeout(due: nat, intentSent: bool)
    | StopTimeout(due: nat)
    | RunPosted(android: Android)
    | Tick(millis: nat)

  predicate Enabled(s: State, e: Event) {
    match e
    case StartTimeout(due, _) => due in s.startTimers && due <= s.now
    case StopTimeout(due) => due in s.stopTimers && due <= s.now
    case RunPosted(_) => s.posted != []
    case _ => true
  }

  /** A new call brings a new Result; everything else is one of the operations above. */
  function Apply(s: State, e: Event): State
    requires Enabled(s, e)
  {
    match e
    case Prepare => s.(prepared := true)
    case CallStart(asked, android) => StartCalled(s.(calls := s.calls + 1), s.calls, asked, android)
    case CallStop(asked, restart, intentSent) => StopCalled(s.(calls := s.calls + 1), s.calls, asked, restart,
            intentSent)
    case PermissionResult(granted, intentSent) => PermissionAnswered(s, granted, intentSent)
    case ServiceEndsStart(outcome) => StartCompleted(s, outcome)
    case ServiceEndsStop(outcome) => StopCompleted(s, outcome)
    case StartTimeout(due, intentSent) => StartTimedOut(s, due, intentSent)
    case StopTimeout(due) => StopTimedOut(s, due)
    case RunPosted(android) => MessageRun(s, android)
    case Tick(millis) => s.(now := s.now + millis)
  }

  ghost predicate Possible(s: State, es: seq<Event>)
    decreases |es|
  {
    es == [] || (Enabled(s, es[0]) && Possible(Apply(s, es[0]), es[1..]))
  }

  ghost function Execute(s: State, es: seq<Event>): State
    requires Possible(s, es)
    decreases |es|
  {
    if es == [] then s else Execute(Apply(s, es[0]), es[1..])
  }

  // ----- Conservation ---------------------------------------------------------------------

  /** How often the call was answered. */
  function Count(replies: seq<Reply>, id: nat): nat {
    if replies == [] then 0
    else Count(replies[..|replies| - 1], id) + (if replies[|replies| - 1].id == id then 1 else 0)
  }

  lemma AnswerCounts(s: State, call: nat, outcome: Outcome, id: nat)
    ensures Places(Answered(s, call, outcome), id) == Places(s, id) + Own(call, id)
  {
    var r := Reply(call, outcome);
    assert (s.answered + [r])[..|s.answered|] == s.answered;
  }

  function InSlot(slot: Option<Call>, id: nat): nat {
    if slot.Some? && slot.value.id == id then 1 else 0
  }

  function InPosted(posted: seq<Message>, id: nat): nat {
    if posted == [] then 0 else (if posted[0].call.id == id then 1 else 0) + InPosted(posted[1..], id)
  }

  lemma {:induction false} PostedAppend(posted: seq<Message>, m: Message, id: nat)
    ensures InPosted(posted + [m], id) == InPosted(posted, id) + (if m.call.id == id then 1 else 0)
  {
    if posted == [] {
      assert posted + [m] == [m];
    } else {
      assert (posted + [m])[1..] == posted[1..] + [m];
      PostedAppend(posted[1..], m, id);
    }
  }

  /** In how many places the Result is: answered, in a slot, or in the handler's queue. */
  function Places(s: State, id: nat): nat {
    Count(s.answered, id) + InSlot(s.pendingStart, id) + InSlot(s.pendingStop, id) + InPosted(s.posted, id)
  }

  ghost predicate Conserved(s: State) {
    forall id: nat :: Places(s, id) == if id < s.calls then 1 else 0
  }

  /** An occupied slot has its own timeout scheduled still. */
  predicate SlotOk(slot: Option<Call>, timers: multiset<nat>) {
    slot.Some? ==>
      && slot.value.wait == WaitOf(slot.value.asked)
      && slot.value.registered + slot.value.wait in timers
  }

  ghost predicate Inv(s: State) {
    Conserved(s) && SlotsOk(s)
  }

  lemma CompletingStartConserves(s: State, outcome: Outcome, id: nat)
    ensures Places(StartCompleted(s, outcome), id) == Places(s, id)
  {
    if s.pendingStart.Some? {
      PostedAppend(s.posted, AnswerStart(s.pendingStart.value, outcome), id);
    }
  }

  lemma CompletingStopConserves(s: State, outcome: Outcome, id: nat)
    ensures Places(StopCompleted(s, outcome), id) == Places(s, id)
  {
    if s.pendingStop.Some? {
      PostedAppend(s.posted, AnswerStop(s.pendingStop.value, outcome), id);
    }
  }

  function Own(call: nat, id: nat): nat {
    if id == call then 1 else 0
  }

  /** A call puts its own Result into one place and moves no other. */
  lemma StartConserves(s: State, call: nat, asked: int, android: Android, id: nat)
    ensures Places(StartCalled(s, call, asked, android), id) == Places(s, id) + Own(call, id)
  {
    var t := StartBegun(s, Call(call, s.now, WaitOf(asked), asked, false));
    if s.prepared && s.pendingStart.None? {
      assert Places(t, id) == Places(s, id) + Own(call, id);
      CompletingStartConserves(t, Error, id);
    } else {
      AnswerCounts(s, call, Error, id);
    }
  }

  lemma StopConserves(s: State, call: nat, asked: int, restart: bool, intentSent: bool, id: nat)
    ensures Places(StopCalled(s, call, asked, restart, intentSent), id) == Places(s, id) + Own(call, id)
  {
    var t := StopBegun(s, Call(call, s.now, WaitOf(asked), asked, restart));
    if s.pendingStop.None? {
      assert Places(t, id) == Places(s, id) + Own(call, id);
      CompletingStopConserves(t, Error, id);
    } else {
      AnswerCounts(s, call, Error, id);
    }
  }

  /** Running a posted runnable takes one Result out of the queue and puts it into one place. */
  lemma RunningConserves(s: State, android: Android, id: nat)
    requires s.posted != []
    ensures Places(MessageRun(s, android), id) == Places(s, id)
  {
    var m, t := s.posted[0], s.(posted := s.posted[1..]);
    assert Places(t, id) + Own(m.call.id, id) == Places(s, id);
    StartConserves(t, m.call.id, m.call.asked, android, id);
    AnswerCounts(t, m.call.id, m.outcome, id);
  }

  lemma EndingConserves(s: State, e: Event, id: nat)
    requires Enabled(s, e) && (e.PermissionResult? || e.ServiceEndsStart? || e.ServiceEndsStop?
             || e.StartTimeout? || e.StopTimeout?)
    ensures Places(Apply(s, e), id) == Places(s, id)
  {
    match e
    case PermissionResult(_, _) => CompletingStartConserves(s.(pendingPermission := false), Error, id);
    case ServiceEndsStart(outcome) => CompletingStartConserves(s, outcome, id);
    case ServiceEndsStop(outcome) => CompletingStopConserves(s, outcome, id);
    case StartTimeout(due, _) =>
      CompletingStartConserves(s.(startTimers := s.startTimers - multiset{due}), Timeout, id);
    case StopTimeout(due) => CompletingStopConserves(s.(stopTimers := s.stopTimers - multiset{due}), Timeout, id);
  }

  lemma CallConserves(s: State, e: Event, id: nat)
    requires e.CallStart? || e.CallStop?
    ensures Places(Apply(s, e), id) == Places(s, id) + Own(s.calls, id)
  {
    var t := s.(calls := s.calls + 1);
    Recounted(s, id);
    match e
    case CallStart(asked, android) =>
      assert Apply(s, e) == StartCalled(t, s.calls, asked, android);
      StartConserves(t, s.calls, asked, android, id);
    case CallStop(asked, restart, sent) =>
      assert Apply(s, e) == StopCalled(t, s.calls, asked, restart, sent);
      StopConserves(t, s.calls, asked, restart, sent, id);
  }

  lemma Recounted(s: State, id: nat)
    ensures Places(s.(calls := s.calls + 1), id) == Places(s, id)
  {
  }

  lemma StepConserves(s: State, e: Event, id: nat)
    requires Enabled(s, e)
    ensures Places(Apply(s, e), id) == Places(s, id) + (if e.CallStart? || e.CallStop? then Own(s.calls, id) else 0)
  {
    if e.CallStart? || e.CallStop? {
      CallConserves(s, e, id);
    } else if e.RunPosted? {
      RunningConserves(s, e.android, id);
    } else if !e.Prepare? && !e.Tick? {
      EndingConserves(s, e, id);
    }
  }

  lemma StepCounts(s: State, e: Event)
    requires Enabled(s, e)
    ensures Apply(s, e).calls == s.calls + if e.CallStart? || e.CallStop? then 1 else 0
  {
  }

  ghost predicate SlotsOk(s: State) {
    && SlotOk(s.pendingStart, s.startTimers)
    && SlotOk(s.pendingStop, s.stopTimers)
  }

  lemma CallGuards(s: State, id: nat, asked: int, android: Android, restart: bool)
    requires SlotsOk(s)
    ensures SlotsOk(StartCalled(s, id, asked, android))
    ensures SlotsOk(StopCalled(s, id, asked, restart, android.intentSent))
  {
    assert SlotsOk(StartBegun(s, Call(id, s.now, WaitOf(asked), asked, false)));
    assert SlotsOk(StopBegun(s, Call(id, s.now, WaitOf(asked), asked, restart)));
  }

  lemma StepGuards(s: State, e: Event)
    requires SlotsOk(s) && Enabled(s, e)
    ensures SlotsOk(Apply(s, e))
  {
    match e
    case CallStart(asked, android) => CallGuards(s.(calls := s.calls + 1), s.calls, asked, android, false);
    case CallStop(asked, restart, sent) => CallGuards(s.(calls := s.calls + 1), s.calls, asked, Android(false,
            false, sent), restart);
    case RunPosted(android) => CallGuards(s.(posted := s.posted[1..]), s.posted[0].call.id,
            s.posted[0].call.asked, android, false);
    case _ =>
  }

  lemma StepKeeps(s: State, e: Event)
    requires Inv(s) && Enabled(s, e)
    ensures Inv(Apply(s, e))
  {
    StepGuards(s, e);
    StepCounts(s, e);
    forall id: nat ensures Places(Apply(s, e), id) == if id < Apply(s, e).calls then 1 else 0 {
      assert Places(s, id) == if id < s.calls then 1 else 0;
      StepConserves(s, e, id);
    }
  }

  lemma {:induction false} HistoryKeeps(s: State, es: seq<Event>)
    requires Inv(s) && Possible(s, es)
    ensures Inv(Execute(s, es))
    decreases |es|
  {
    if es == [] {
    } else {
      StepKeeps(s, es[0]);
      HistoryKeeps(Apply(s, es[0]), es[1..]);
    }
  }

  lemma AttachedOk()
    ensures Inv(ATTACHED)
  {
  }

  /**
   * Over any history, restarts included, every Result given out is in exactly one place: it has
   * been answered once, or it waits in the start slot, the stop slot or the handler's queue.
   */
  lemma EveryResultIsInOnePlace(es: seq<Event>, id: nat)
    requires Possible(ATTACHED, es)
    ensures var s := Execute(ATTACHED, es);
            && Count(s.answered, id) + InSlot(s.pendingStart, id) + InSlot(s.pendingStop, id) + InPosted(s.posted, id)
               == (if id < s.calls then 1 else 0)
            && Count(s.answered, id) <= 1
  {
    AttachedOk();
    HistoryKeeps(ATTACHED, es);
    assert Places(Execute(ATTACHED, es), id) == if id < Execute(ATTACHED, es).calls then 1 else 0;
  }

  // ----- What becomes of a call -----------------------------------------------------------

  predicate Waits(slot: Option<Call>, id: nat) {
    slot.Some? && slot.value.id == id
  }

  /** The call got an error at once, and nothing else happened. */
  predicate Refused(b: State, b': State, id: nat) {
    b' == b.(answered := b.answered + [Reply(id, Error)])
  }

  /** An error is on its way to the call, which waits no longer. */
  predicate StartFailed(b: State, b': State, id: nat) {
    && b'.pendingStart.None? && b'.startIntents == b.startIntents
    && |b'.posted| == |b.posted| + 1 && b.posted <= b'.posted
    && b'.posted[|b.posted|].AnswerStart? && b'.posted[|b.posted|].call.id == id
    && b'.posted[|b.posted|].outcome.Error?
  }

  /** The call waits in the start slot: its intent is out, or the user is being asked. */
  predicate StartUnderWay(b: State, b': State, id: nat, asks: bool) {
    && Waits(b'.pendingStart, id) && b'.posted == b.posted
    && b'.startIntents == b.startIntents + (if asks then 0 else 1)
    && (asks ==> b'.pendingPermission)
  }

  /** A call to start with the slot free: under way, unless the user or the service cannot be reached. */
  predicate StartTaken(b: State, b': State, id: nat, android: Android) {
    && b'.answered == b.answered && b'.pendingStop == b.pendingStop && b'.stopIntents == b.stopIntents
    && (android.needsPermission && android.hasActivity ==> StartUnderWay(b, b', id, true))
    && (!android.needsPermission && android.intentSent ==> StartUnderWay(b, b', id, false))
    && (android.needsPermission && !android.hasActivity ==> StartFailed(b, b', id))
    && (!android.needsPermission && !android.intentSent ==> StartFailed(b, b', id))
  }

  /**
   * The oldest posted answer: a restart whose stop is done becomes a start, taken if the plugin
   * is prepared and nobody waits to start, and refused otherwise; all others reach their call.
   */
  lemma FinishedStopsRestart(b: State, android: Android)
    requires b.posted != []
    ensures var m, t, b' := b.posted[0], b.(posted := b.posted[1..]), Apply(b, RunPosted(android));
            if m.AnswerStop? && m.call.restart && m.outcome == Done
            then if b.prepared && b.pendingStart.None? then StartTaken(t, b', m.call.id, android)
                 else Refused(t, b', m.call.id)
            else b' == t.(answered := b.answered + [Reply(m.call.id, m.outcome)])
  {
  }

  lemma StartsAreTaken(b: State, asked: int, android: Android)
    ensures var t, b' := b.(calls := b.calls + 1), Apply(b, CallStart(asked, android));
            if b.prepared && b.pendingStart.None? then StartTaken(t, b', b.calls, android) else Refused(t, b', b.calls)
  {
  }

  /** A stop that is taken waits for its intent, or gets an error if the intent cannot be sent. */
  lemma StopsAreTaken(b: State, asked: int, restart: bool, intentSent: bool)
    ensures var t, b' := b.(calls := b.calls + 1), Apply(b, CallStop(asked, restart, intentSent));
            var call := Call(b.calls, b.now, if asked > 0 then asked else DEFAULT_TIMEOUT_MILLIS, asked, restart);
            && (b.pendingStop.Some? ==> Refused(t, b', b.calls))
            && (b.pendingStop.None? ==>
                  && b'.answered == b.answered && b'.pendingStart == b.pendingStart
                  && b'.pendingStop == (if intentSent then Some(call) else None)
                  && b'.posted == b.posted + (if intentSent then [] else [AnswerStop(call, Error)])
                  && b'.startIntents == b.startIntents && b'.stopIntents == b.stopIntents + if intentSent then 1 else 0)
  {
  }

  /** The user's answer counts once: the intent goes out, or the start gets an error. */
  lemma PermissionDecides(b: State, granted: bool, intentSent: bool)
    ensures var b' := Apply(b, PermissionResult(granted, intentSent));
            && (!b.pendingPermission ==> b' == b)
            && (b.pendingPermission && granted && intentSent ==>
                  b' == b.(pendingPermission := false, startIntents := b.startIntents + 1))
            && (b.pendingPermission && !(granted && intentSent) ==>
                  && !b'.pendingPermission && b'.answered == b.answered
                  && if b.pendingStart.Some? then StartFailed(b, b', b.pendingStart.value.id)
                     else b' == b.(pendingPermission := false))
  {
  }

  /**
   * Start intents go out just for the calls that take the start slot without asking the user, and
   * when the user agrees; stop intents for the calls that take the stop slot, and after a start
   * that timed out.
   */
  lemma IntentsFollowCalls(b: State, e: Event)
    requires Enabled(b, e)
    ensures var b' := Apply(b, e);
            var takes := b.pendingStart.None? && b'.pendingStart.Some?;
            var sends := match e
              case CallStart(_, android) => takes && !android.needsPermission
              case RunPosted(android) => takes && !android.needsPermission
              case PermissionResult(granted, sent) => b.pendingPermission && granted && sent
              case _ => false;
            var stops := match e
              case CallStop(_, _, _) => b.pendingStop.None? && b'.pendingStop.Some?
              case StartTimeout(_, sent) => b.pendingStart.Some? && sent
              case _ => false;
            && b'.startIntents == b.startIntents + (if sends then 1 else 0)
            && b'.stopIntents == b.stopIntents + (if stops then 1 else 0)
  {
    match e
    case Prepare => case CallStart(_, _) => case CallStop(_, _, _) => case PermissionResult(_, _) =>
    case ServiceEndsStart(_) => case ServiceEndsStop(_) => case StartTimeout(_, _) => case StopTimeout(_) =>
    case RunPosted(_) => case Tick(_) =>
  }

  /** A call waiting in a slot can be timed out once its time is up, and that posts its answer. */
  lemma WaitingIsBounded(es: seq<Event>)
    requires Possible(ATTACHED, es)
    ensures var s := Execute(ATTACHED, es);
            && (s.pendingStart.Some? ==>
                  var due := s.pendingStart.value.registered + WaitOf(s.pendingStart.value.asked);
                  && due in s.startTimers
                  && (due <= s.now ==> forall sent: bool ::
                        && Enabled(s, StartTimeout(due, sent)) && Apply(s, StartTimeout(due, sent)).pendingStart.None?
                        && Apply(s, StartTimeout(due, sent)).stopIntents == s.stopIntents + (if sent then 1 else 0)
                        && Apply(s, StartTimeout(due, sent)).posted
                                == s.posted + [AnswerStart(s.pendingStart.value, Timeout)]))
            && (s.pendingStop.Some? ==>
                  var due := s.pendingStop.value.registered + WaitOf(s.pendingStop.value.asked);
                  && due in s.stopTimers
                  && (due <= s.now ==>
                        && Enabled(s, StopTimeout(due)) && Apply(s, StopTimeout(due)).pendingStop.None?
                        && Apply(s, StopTimeout(due)).posted == s.posted + [AnswerStop(s.pendingStop.value, Timeout)]))
  {
    AttachedOk();
    HistoryKeeps(ATTACHED, es);
  }
}
