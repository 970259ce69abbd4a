/**
 * How long a call really gets: the delayed timeouts of ClashmiVpnServicePlugin.kt are never taken
 * back, so one left over from an answered call can end the wait of a later one.
 */
module CallbackTimeouts {
  import opened Options
  import opened CallbackBridge

  /** When the waiting call's own time is up. */
  function Own(slot: Option<Call>): int
    requires slot.Some?
  {
    slot.value.registered + slot.value.wait
  }

  // ----- Starts -------------------------------------------------------------------------------

  /** The same call waits to start all along. */
  ghost predicate StartWaits(s: State, es: seq<Event>)
    requires Possible(s, es)
    decreases |es|
  {
    es == [] || (Apply(s, es[0]).pendingStart == s.pendingStart && StartWaits(Apply(s, es[0]), es[1..]))
  }

  /** After these events a timeout ends the wait of the start before its time. */
  ghost predicate StartCutShort(s: State, es: seq<Event>, timeout: Event)
    requires s.pendingStart.Some?
  {
    && Possible(s, es) && StartWaits(s, es)
    && timeout.StartTimeout? && Enabled(Execute(s, es), timeout) && Execute(s, es).now < Own(s.pendingStart)
  }

  /** While a start waits, no timeout of a start is scheduled and none runs. */
  lemma StartTimersStay(s: State, e: Event)
    requires Enabled(s, e) && s.pendingStart.Some? && Apply(s, e).pendingStart == s.pendingStart
    ensures Apply(s, e).startTimers == s.startTimers && Apply(s, e).now >= s.now
  {
    match e
    case Prepare => case CallStart(_, _) => case CallStop(_, _, _) => case PermissionResult(_, _) =>
    case ServiceEndsStart(_) => case ServiceEndsStop(_) => case StartTimeout(_, _) => case StopTimeout(_) =>
    case RunPosted(_) => case Tick(_) =>
  }

  lemma {:induction false} StartTimersStayOn(s: State, es: seq<Event>)
    requires Possible(s, es) && s.pendingStart.Some? && StartWaits(s, es)
    ensures Execute(s, es).startTimers == s.startTimers && Execute(s, es).now >= s.now
    decreases |es|
  {
    if es == [] {
    } else {
      StartTimersStay(s, es[0]);
      StartTimersStayOn(Apply(s, es[0]), es[1..]);
    }
  }

  /**
   * A waiting start can be timed out before its time if and only if its time is not up yet and a
   * timeout is scheduled that is due earlier than its own: one of a start answered before.
   */
  lemma StartGetsItsTimeIff(s: State)
    requires s.pendingStart.Some?
    ensures (exists es, timeout :: StartCutShort(s, es, timeout)) <==>
            s.now < Own(s.pendingStart) && exists due | due in s.startTimers :: due < Own(s.pendingStart)
  {
    if es, timeout :| StartCutShort(s, es, timeout) {
      StartTimersStayOn(s, es);
      assert timeout.due in s.startTimers && timeout.due < Own(s.pendingStart);
    }
    if s.now < Own(s.pendingStart) && exists due | due in s.startTimers :: due < Own(s.pendingStart) {
      var due :| due in s.startTimers && due < Own(s.pendingStart);
      var es := [Tick(if due > s.now then due - s.now else 0)];
      StartAfterTick(s, es[0]);
      assert StartCutShort(s, es, StartTimeout(due, true));
    }
  }

  lemma StartAfterTick(s: State, e: Event)
    requires e.Tick?
    ensures Possible(s, [e]) && StartWaits(s, [e]) && Execute(s, [e]) == s.(now := s.now + e.millis)
  {
    assert [e][1..] == [];
    assert Execute(Apply(s, e), []) == Apply(s, e);
  }

  // ----- Stops --------------------------------------------------------------------------------

  ghost predicate StopWaits(s: State, es: seq<Event>)
    requires Possible(s, es)
    decreases |es|
  {
    es == [] || (Apply(s, es[0]).pendingStop == s.pendingStop && StopWaits(Apply(s, es[0]), es[1..]))
  }

  ghost predicate StopCutShort(s: State, es: seq<Event>, timeout: Event)
    requires s.pendingStop.Some?
  {
    && Possible(s, es) && StopWaits(s, es)
    && timeout.StopTimeout? && Enabled(Execute(s, es), timeout) && Execute(s, es).now < Own(s.pendingStop)
  }

  lemma StopTimersStay(s: State, e: Event)
    requires Enabled(s, e) && s.pendingStop.Some? && Apply(s, e).pendingStop == s.pendingStop
    ensures Apply(s, e).stopTimers == s.stopTimers && Apply(s, e).now >= s.now
  {
    match e
    case Prepare => case CallStart(_, _) => case CallStop(_, _, _) => case PermissionResult(_, _) =>
    case ServiceEndsStart(_) => case ServiceEndsStop(_) => case StartTimeout(_, _) => case StopTimeout(_) =>
    case RunPosted(_) => case Tick(_) =>
  }

  lemma {:induction false} StopTimersStayOn(s: State, es: seq<Event>)
    requires Possible(s, es) && s.pendingStop.Some? && StopWaits(s, es)
    ensures Execute(s, es).stopTimers == s.stopTimers && Execute(s, es).now >= s.now
    decreases |es|
  {
    if es == [] {
    } else {
      StopTimersStay(s, es[0]);
      StopTimersStayOn(Apply(s, es[0]), es[1..]);
    }
  }

  /** The same of a waiting stop or restart. */
  lemma StopGetsItsTimeIff(s: State)
    requires s.pendingStop.Some?
    ensures (exists es, timeout :: StopCutShort(s, es, timeout)) <==>
            s.now < Own(s.pendingStop) && exists due | due in s.stopTimers :: due < Own(s.pendingStop)
  {
    if es, timeout :| StopCutShort(s, es, timeout) {
      StopTimersStayOn(s, es);
      assert timeout.due in s.stopTimers && timeout.due < Own(s.pendingStop);
    }
    if s.now < Own(s.pendingStop) && exists due | due in s.stopTimers :: due < Own(s.pendingStop) {
      var due :| due in s.stopTimers && due < Own(s.pendingStop);
      var es := [Tick(if due > s.now then due - s.now else 0)];
      StartAfterTick(s, es[0]);
      assert StopWaits(s, es);
      assert StopCutShort(s, es, StopTimeout(due));
    }
  }

  // ----- It does happen -----------------------------------------------------------------------

  lemma {:induction false} Extend(s: State, es: seq<Event>, e: Event)
    requires Possible(s, es) && Enabled(Execute(s, es), e)
    ensures Possible(s, es + [e]) && Execute(s, es + [e]) == Apply(Execute(s, es), e)
    decreases |es|
  {
    if es == [] {
      assert es + [e] == [e] && [e][1..] == [];
    } else {
      assert (es + [e])[1..] == es[1..] + [e];
      Extend(Apply(s, es[0]), es[1..], e);
    }
  }

  /**
   * A start with 60 seconds of time is answered after one second. Another one comes half a minute
   * later: after half of its own 60 seconds the first one's timeout answers it, and sends a stop.
   */
  lemma LaterStartCutShort() returns (es: seq<Event>, s: State)
    ensures Possible(ATTACHED, es) && Execute(ATTACHED, es) == s
    ensures s.pendingStart.Some? && s.pendingStart.value.registered == 30000 && s.pendingStart.value.wait == 60000
    ensures s.now == 60000 && Enabled(s, StartTimeout(60000, true))
    ensures Apply(s, StartTimeout(60000, true)).posted[|s.posted|..] == [AnswerStart(s.pendingStart.value, Timeout)]
    ensures Apply(s, StartTimeout(60000, true)).stopIntents == s.stopIntents + 1
  {
    var prepared := Prepared();
    es, s := StartUnderWay(0, [Prepare], prepared);
    es, s := Do(es, s, Tick(1000));
    es, s := Do(es, s, ServiceEndsStart(Done));
    es, s := Do(es, s, Tick(29000));
    es, s := StartUnderWay(30000, es, s);
    es, s := Do(es, s, Tick(30000));
  }

  lemma Prepared() returns (s: State)
    ensures Possible(ATTACHED, [Prepare]) && Execute(ATTACHED, [Prepare]) == s && s == ATTACHED.(prepared := true)
  {
    assert [Prepare][1..] == [];
    s := Apply(ATTACHED, Prepare);
    assert Execute(s, []) == s;
  }

  /** Another start, with the time it gets if none is asked for. */
  lemma StartUnderWay(now: nat, es: seq<Event>, s: State) returns (more: seq<Event>, s': State)
    requires Possible(ATTACHED, es) && Execute(ATTACHED, es) == s
    requires s.prepared && s.pendingStart.None? && s.now == now
    ensures Possible(ATTACHED, more) && Execute(ATTACHED, more) == s'
    ensures s' == s.(calls := s.calls + 1, pendingStart := Some(Call(s.calls, now, 60000, 0, false)),
                  startTimers := s.startTimers + multiset{now + 60000}, startIntents := s.startIntents + 1)
  {
    var ready := Android(false, true, true);
    StartAccepted(s, ready);
    more, s' := Do(es, s, CallStart(0, ready));
  }

  lemma StartAccepted(s: State, android: Android)
    requires s.prepared && s.pendingStart.None? && !android.needsPermission && android.intentSent
    ensures Apply(s, CallStart(0, android))
         == s.(calls := s.calls + 1, pendingStart := Some(Call(s.calls, s.now, 60000, 0, false)),
               startTimers := s.startTimers + multiset{s.now + 60000}, startIntents := s.startIntents + 1)
  {
    var begun := StartBegun(s.(calls := s.calls + 1), Call(s.calls, s.now, 60000, 0, false));
    assert Apply(s, CallStart(0, android)) == StartPermitted(begun, android);
  }

  lemma Do(es: seq<Event>, s: State, e: Event) returns (more: seq<Event>, s': State)
    requires Possible(ATTACHED, es) && Execute(ATTACHED, es) == s && Enabled(s, e)
    ensures more == es + [e] && Possible(ATTACHED, more) && Execute(ATTACHED, more) == s' && s' == Apply(s, e)
  {
    Extend(ATTACHED, es, e);
    more, s' := es + [e], Apply(s, e);
  }
}
