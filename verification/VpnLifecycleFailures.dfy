/**
 * Histories of the VPN service that end at rest in disagreement: the one onDestroy can cause
 * by itself, and one each for a failed promotion and for a request delivered after onDestroy.
 */
module VpnLifecycleFailures {
  import opened Options
  import opened VpnLifecycle

  /** Some history leads from one state to the other; an orderly one, if so asked. */
  ghost predicate Reached(from: Service, s: Service, orderly: bool) {
    exists es :: Possible(from, es) && (orderly ==> OrderlyRun(from, es)) && Execute(from, es) == s
  }

  lemma {:induction false} Extend(s: Service, es: seq<Event>, e: Event)
    requires Possible(s, es) && Enabled(Execute(s, es), e)
    ensures Possible(s, es + [e]) && Execute(s, es + [e]) == Apply(Execute(s, es), e)
    ensures OrderlyRun(s, es) && Orderly(Execute(s, es), e) ==> OrderlyRun(s, es + [e])
    decreases |es|
  {
    if es == [] {
      assert es + [e] == [e];
    } else {
      assert (es + [e])[1..] == es[1..] + [e];
      Extend(Apply(s, es[0]), es[1..], e);
    }
  }

  lemma Created(orderly: bool) returns (s: Service)
    ensures s == CREATED && Reached(CREATED, s, orderly)
  {
    s := CREATED;
    assert Execute(CREATED, []) == CREATED;
  }

  lemma Do(from: Service, s: Service, e: Event, orderly: bool) returns (s': Service)
    requires Reached(from, s, orderly) && Enabled(s, e) && (orderly ==> Orderly(s, e))
    ensures s' == Apply(s, e) && Reached(from, s', orderly)
  {
    s' := Apply(s, e);
    var es :| Possible(from, es) && (orderly ==> OrderlyRun(from, es)) && Execute(from, es) == s;
    Extend(from, es, e);
    assert Execute(from, es + [e]) == s';
  }

  predicate HoldsNothing(d: Descriptors) {
    d.tunFd.None? && d.tunPfd.None?
  }

  lemma ClosingNothing(d: Descriptors)
    requires HoldsNothing(d)
    ensures Closed(d) == d
  {
    assert d.closed + [] + [] == d.closed;
  }

  // Stretches of a history, each from the state it needs.

  lemma StartQueued(from: Service, s: Service, orderly: bool) returns (s': Service)
    requires Reached(from, s, orderly) && s.main.Ready? && !s.shutDown
    ensures Reached(from, s', orderly) && s' == s.(desiredRunning := true, tasks := s.tasks + [StartTask])
  {
    s' := Do(from, s, CommandStart, orderly);
    s' := Do(from, s', Main(true), orderly);
    s' := Do(from, s', Main(true), orderly);
  }

  lemma StartDecided(from: Service, s: Service, orderly: bool) returns (s': Service)
    requires Reached(from, s, orderly) && s.life.Free? && s.tasks == [StartTask] && s.desiredRunning && !s.coreRunning
    ensures Reached(from, s', orderly) && s' == s.(tasks := [], life := InStart(ShowConnecting))
  {
    s' := Do(from, s, Life(true), orderly);
    s' := Do(from, s', Life(true), orderly);
    s' := Do(from, s', Life(true), orderly);
    s' := Do(from, s', Life(true), orderly);
  }

  lemma CallbackRegistered(from: Service, s: Service, orderly: bool) returns (s': Service)
    requires Reached(from, s, orderly) && s.life == InStart(ShowConnecting)
    ensures Reached(from, s', orderly)
    ensures s' == s.(state := Connecting, callback := true, life := InStart(Establish))
  {
    s' := Do(from, s, Life(true), orderly);
    s' := Do(from, s', Life(true), orderly);
    s' := Do(from, s', Life(true), orderly);
  }

  lemma TunOpened(from: Service, s: Service, orderly: bool) returns (s': Service)
    requires Reached(from, s, orderly) && s.life == InStart(Establish)
    ensures Reached(from, s', orderly)
    ensures s' == s.(life := InStart(Recheck), fds := Detached(Established(s.fds)))
  {
    s' := Do(from, s, Life(true), orderly);
    s' := Do(from, s', Life(true), orderly);
  }

  lemma TunHandedOver(from: Service, s: Service, orderly: bool) returns (s': Service)
    requires Reached(from, s, orderly) && s.life == InStart(Recheck) && s.desiredRunning
    ensures Reached(from, s', orderly)
    ensures s' == s.(life := InStart(StartCorePc.StartNative), fds := HandedOver(s.fds))
  {
    s' := Do(from, s, Life(true), orderly);
    s' := Do(from, s', Life(true), orderly);
  }

  lemma CoreNoted(from: Service, s: Service, orderly: bool) returns (s': Service)
    requires Reached(from, s, orderly) && s.life == InStart(StartCorePc.StartNative)
    ensures Reached(from, s', orderly) && s' == s.(native := true, coreRunning := true, life := InStart(RecheckLate))
  {
    s' := Do(from, s, Life(true), orderly);
    s' := Do(from, s', Life(true), orderly);
  }

  lemma StartCancelled(from: Service, s: Service, orderly: bool) returns (s': Service)
    requires Reached(from, s, orderly) && s.life.Free? && s.tasks != [] && s.tasks[0].StartTask?
    requires !s.desiredRunning && HoldsNothing(s.fds)
    ensures Reached(from, s', orderly) && s' == s.(tasks := s.tasks[1..], callback := false, state := Disconnected)
  {
    ClosingNothing(s.fds);
    s' := Do(from, s, Life(true), orderly);
    s' := Do(from, s', Life(true), orderly);
    s' := Do(from, s', Life(true), orderly);
    s' := Do(from, s', Life(true), orderly);
  }

  lemma StopDecided(from: Service, s: Service, orderly: bool) returns (s': Service)
    requires Reached(from, s, orderly) && s.life.Free? && s.tasks == [DestroyTask] && s.coreRunning
    ensures Reached(from, s', orderly)
    ensures s' == s.(tasks := [], needsNativeStop := true, callback := false, life := InStop(StopCorePc.StopNative))
  {
    s' := Do(from, s, Life(true), orderly);
    s' := Do(from, s', Life(true), orderly);
    s' := Do(from, s', Life(true), orderly);
  }

  lemma StopDone(from: Service, s: Service, orderly: bool) returns (s': Service)
    requires Reached(from, s, orderly) && s.life == InStop(StopCorePc.StopNative) && s.needsNativeStop
    requires HoldsNothing(s.fds)
    ensures Reached(from, s', orderly)
    ensures s' == s.(native := false, coreRunning := false, state := Disconnected, life := Free)
  {
    ClosingNothing(s.fds);
    s' := Do(from, s, Life(true), orderly);
    s' := Do(from, s', Life(true), orderly);
    s' := Do(from, s', Life(true), orderly);
    s' := Do(from, s', Life(true), orderly);
  }

  /** From creation to the native start of a first start task. */
  lemma StartUnderWay(orderly: bool) returns (s: Service)
    ensures Reached(CREATED, s, orderly) && s == CREATED.(desiredRunning := true, state := Connecting, callback := true,
      life := InStart(StartCorePc.StartNative), fds := Descriptors(None, None, 1, [], [0]))
  {
    s := Created(orderly);
    s := StartQueued(CREATED, s, orderly);
    s := StartDecided(CREATED, s, orderly);
    s := CallbackRegistered(CREATED, s, orderly);
    s := TunOpened(CREATED, s, orderly);
    s := TunHandedOver(CREATED, s, orderly);
  }

  /** The same, until the service is connected and at rest. */
  lemma Running(orderly: bool) returns (s: Service)
    ensures Reached(CREATED, s, orderly) && s == CREATED.(desiredRunning := true, coreRunning := true,
            state := Connected,
      callback := true, native := true, fds := Descriptors(None, None, 1, [], [0]))
  {
    s := StartUnderWay(orderly);
    s := CoreNoted(CREATED, s, orderly);
    s := Do(CREATED, s, Life(true), orderly);
    s := Do(CREATED, s, Life(true), orderly);
  }

  /**
   * An orderly history that strands the core: a second start is queued while the native start
   * runs, onDestroy reads coreRunning just before the native start returns, the second start
   * is cancelled and shows "disconnected", and onDestroy reads that.
   */
  lemma DestroyCanStrandTheCore() returns (s: Service)
    ensures Reached(CREATED, s, true) && Quiescent(s) && s.shutDown
    ensures s.coreRunning && s.native && !s.desiredRunning && s.state == Disconnected && s.stranded
  {
    s := StartUnderWay(true);
    s := StartQueued(CREATED, s, true);
    s := Do(CREATED, s, Destroy, true);
    s := Do(CREATED, s, Main(true), true);
    s := CoreNoted(CREATED, s, true);
    s := Do(CREATED, s, Life(true), true);
    s := StartCancelled(CREATED, s, true);
    s := Do(CREATED, s, Main(true), true);
    s := Do(CREATED, s, Main(true), true);
  }

  /** A promotion that fails while the core runs: "disconnected" is shown and nothing stops the core. */
  lemma FailedPromotionLeavesCoreRunning() returns (s: Service)
    ensures Reached(CREATED, s, false) && Quiescent(s) && !s.shutDown
    ensures s.coreRunning && s.native && !s.desiredRunning && s.state == Disconnected
  {
    s := Running(false);
    s := Do(CREATED, s, CommandStart, false);
    s := Do(CREATED, s, Main(false), false);
    s := Do(CREATED, s, Main(false), false);
    s := Do(CREATED, s, Main(false), false);
  }

  /** onDestroy while the core runs, up to the shutdown of the executor. */
  lemma Destroyed(from: Service, s: Service, orderly: bool) returns (s': Service)
    requires Reached(from, s, orderly) && s.main.Ready? && !s.shutDown && s.coreRunning
    ensures Reached(from, s', orderly)
    ensures s' == s.(desiredRunning := false, state := Disconnecting, tasks := s.tasks + [DestroyTask],
            shutDown := true)
  {
    s' := Do(from, s, Destroy, orderly);
    s' := Do(from, s', Main(true), orderly);
    s' := CleanUpQueued(from, s', orderly);
  }

  lemma CleanUpQueued(from: Service, s: Service, orderly: bool) returns (s': Service)
    requires Reached(from, s, orderly) && s.main == Destroying(DestroyPc.ShowDisconnecting) && !s.shutDown
    ensures Reached(from, s', orderly)
    ensures s' == s.(state := Disconnecting, tasks := s.tasks + [DestroyTask], shutDown := true, main := Ready)
  {
    s' := Do(from, s, Main(true), orderly);
    s' := Do(from, s', Main(true), orderly);
    s' := Do(from, s', Main(true), orderly);
  }

  /** The end of a stop request that the executor rejects. */
  lemma LateStopShown(from: Service, s: Service) returns (s': Service)
    requires Reached(from, s, false) && s.main == Stopping(StopCommandPc.ShowDisconnecting) && s.shutDown
    ensures Reached(from, s', false) && s' == s.(main := Ready, state := Disconnecting)
  {
    s' := Do(from, s, Main(true), false);
    s' := Do(from, s', Main(true), false);
  }

  /** A stop request delivered after onDestroy can leave "disconnecting" on show for good. */
  lemma LateStopShowsDisconnecting() returns (s: Service)
    ensures Reached(CREATED, s, false) && Quiescent(s) && s.shutDown
    ensures !s.coreRunning && !s.desiredRunning && s.state == Disconnecting
  {
    s := Running(false);
    s := Destroyed(CREATED, s, false);
    s := Do(CREATED, s, CommandStop, false);
    s := Do(CREATED, s, Main(true), false);
    s := StopDecided(CREATED, s, false);
    s := StopDone(CREATED, s, false);
    s := LateStopShown(CREATED, s);
  }
}
