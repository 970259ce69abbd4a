/**
 * Exactly when onDestroy may leave a running core behind: its two unguarded reads against the
 * lifecycle thread, over everything that can happen until both threads are at rest.
 */
module VpnLifecycleDestroy {
  import opened VpnLifecycle
  import opened VpnLifecycleSafety
  import opened VpnLifecycleFailures

  lemma ReachedOk(s: Service)
    requires Reached(CREATED, s, true)
    ensures Inv(s) && FdsOk(s)
  {
    var es :| Possible(CREATED, es) && OrderlyRun(CREATED, es) && Execute(CREATED, es) == s;
    CreatedOk();
    RunKeeps(CREATED, es);
  }

  // ----- Exposed: some continuation strands the core ----------------------------------------

  /** A native start that succeeds, and is then found to be unwanted. */
  lemma StartFinishes(from: Service, s: Service) returns (s': Service)
    requires Reached(from, s, true) && s.life == InStart(NoteRunning) && !s.desiredRunning
    ensures Reached(from, s', true) && s' == s.(coreRunning := true, life := Free)
  {
    s' := Do(from, s, Life(true), true);
    s' := Do(from, s', Life(true), true);
  }

  lemma StartGoesThrough(from: Service, s: Service) returns (s': Service)
    requires Reached(from, s, true) && Committed(s.life) && s.fds.tunPfd.None?
            && (s.life != InStart(HandOver) ==> s.fds.tunFd.None?)
    ensures Reached(from, s', true) && HoldsNothing(s'.fds)
    ensures s' == s.(native := s'.native, life := InStart(NoteRunning), fds := s'.fds)
  {
    match s.life.start
    case HandOver => s' := TunHandedOverAndStarted(from, s);
    case StartNative => s' := NativeStarts(from, s);
    case NoteRunning => s' := s;
  }

  lemma NativeStarts(from: Service, s: Service) returns (s': Service)
    requires Reached(from, s, true) && s.life == InStart(StartCorePc.StartNative)
    ensures Reached(from, s', true) && s' == s.(native := true, life := InStart(NoteRunning))
  {
    s' := Do(from, s, Life(true), true);
  }

  lemma TunHandedOverAndStarted(from: Service, s: Service) returns (s': Service)
    requires Reached(from, s, true) && s.life == InStart(HandOver)
    ensures Reached(from, s', true) && HandedOver(s.fds).tunFd.None?
    ensures s' == s.(native := true, life := InStart(NoteRunning), fds := HandedOver(s.fds))
  {
    s' := Do(from, s, Life(true), true);
    s' := NativeStarts(from, s');
  }

  /** The start tasks that are left find nothing desired. */
  lemma {:induction false} StartsDrain(from: Service, s: Service) returns (s': Service)
    requires Reached(from, s, true) && s.life.Free? && !StopQueued(s.tasks) && !s.desiredRunning
    requires HoldsNothing(s.fds) && s.main.Ready?
    ensures Reached(from, s', true) && Quiescent(s')
    ensures s'.stranded == s.stranded && s'.coreRunning == s.coreRunning && !s'.desiredRunning
    decreases |s.tasks|
  {
    s' := s;
    if s.tasks != [] {
      QueueBegins(s.tasks);
      s' := StartCancelled(from, s, true);
      s' := StartsDrain(from, s');
    }
  }

  /** The first read of onDestroy, before the native start is noted. */
  lemma FirstRead(s: Service) returns (d: Service, s': Service)
    requires Reached(CREATED, s, true) && s.main.Ready? && !s.shutDown && Exposed(s)
    ensures d == Apply(s, Destroy) && Reached(d, s', true)
    ensures s' == s.(desiredRunning := false, main := Destroying(DestroyPc.ReadState))
    ensures s.fds.tunPfd.None? && (s.life != InStart(HandOver) ==> s.fds.tunFd.None?)
  {
    ReachedOk(s);
    d := Apply(s, Destroy);
    assert Execute(d, []) == d;
    s' := Do(d, d, Main(true), true);
  }

  /** The second read, after a cancelled start has shown "disconnected", and the shutdown. */
  lemma SecondRead(from: Service, s: Service) returns (s': Service)
    requires Reached(from, s, true) && s.main == Destroying(DestroyPc.ReadState) && s.life.Free?
    requires s.state.Disconnected? && s.coreRunning && !StopQueued(s.tasks)
    ensures Reached(from, s', true) && s' == s.(main := Ready, shutDown := true, stranded := true)
  {
    s' := Do(from, s, Main(true), true);
    s' := Do(from, s', Main(true), true);
  }

  lemma ExposedCanStrand(s: Service) returns (s': Service)
    requires Reached(CREATED, s, true) && s.main.Ready? && !s.shutDown && Exposed(s)
    ensures Reached(Apply(s, Destroy), s', true) && Quiescent(s') && !Agrees(s')
  {
    var d;
    d, s' := FirstRead(s);
    s' := StartGoesThrough(d, s');
    s' := StartFinishes(d, s');
    QueueBegins(s.tasks);
    s' := StartCancelled(d, s', true);
    s' := SecondRead(d, s');
    s' := StartsDrain(d, s');
  }

  // ----- Not exposed: every continuation that comes to rest agrees --------------------------

  /** onDestroy is under way, or has run. */
  predicate Ending(s: Service) {
    s.main.Destroying? || s.shutDown
  }

  /** There is no second onDestroy. */
  lemma {:induction false} EndingIsNeverExposed(s: Service, es: seq<Event>)
    requires Ending(s) && Possible(s, es) && OrderlyRun(s, es)
    ensures NeverExposed(s, es)
    decreases |es|
  {
    if es == [] {
    } else {
      assert Ending(Apply(s, es[0]));
      EndingIsNeverExposed(Apply(s, es[0]), es[1..]);
    }
  }

  lemma UnexposedAgrees(s: Service, es: seq<Event>)
    requires Reached(CREATED, s, true) && s.main.Ready? && !s.shutDown && !Exposed(s)
    requires var d := Apply(s, Destroy); Possible(d, es) && OrderlyRun(d, es) && Quiescent(Execute(d, es))
    ensures Agrees(Execute(Apply(s, Destroy), es))
  {
    var d := Apply(s, Destroy);
    ReachedOk(s);
    StepKeeps(s, Destroy);
    FdsKeep(s, Destroy);
    StepCalm(s, Destroy);
    EndingIsNeverExposed(d, es);
    RunCalm(d, es);
    RunKeeps(d, es);
    RestAgrees(Execute(d, es));
  }

  /**
   * From any state of an orderly history: whatever happens after onDestroy, wish, core, shown
   * state and descriptors agree once both threads are at rest, exactly if the service was not
   * exposed when onDestroy arrived.
   */
  lemma DestroyIsSafeIffNotExposed(s: Service)
    requires Reached(CREATED, s, true) && s.main.Ready? && !s.shutDown
    ensures (forall s' :: Reached(Apply(s, Destroy), s', true) && Quiescent(s') ==> Agrees(s')) <==> !Exposed(s)
  {
    if Exposed(s) {
      var s' := ExposedCanStrand(s);
      assert Reached(Apply(s, Destroy), s', true) && Quiescent(s') && !Agrees(s');
    } else {
      forall s' | Reached(Apply(s, Destroy), s', true) && Quiescent(s') ensures Agrees(s') {
        var d := Apply(s, Destroy);
        var es :| Possible(d, es) && OrderlyRun(d, es) && Execute(d, es) == s';
        UnexposedAgrees(s, es);
      }
    }
  }
}
