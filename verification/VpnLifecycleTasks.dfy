/**
 * What a whole task or command of the VPN service comes to when the other thread does nothing
 * meanwhile: startCore, stopCore and the handlers of ClashMiVpnService.kt as one expression each.
 */
module VpnLifecycleTasks {
  import opened Options
  import opened VpnLifecycle

  /** Which foreign calls succeed, by where the lifecycle thread makes them. */
  type Fortune = LifePc -> bool

  /** One step of the lifecycle thread by itself. */
  predicate Steps(s: Service, t: Service, works: Fortune) {
    !s.life.Free? && t == LifeStep(s, works(s.life))
  }

  ghost predicate Run(states: seq<Service>, works: Fortune) {
    && states != []
    && forall i, j {:trigger Steps(states[i], states[j], works)} | 0 <= i < j < |states| && j == i + 1 ::
        Steps(states[i], states[j], works)
  }

  ghost predicate Leads(s: Service, works: Fortune, t: Service) {
    exists states :: Run(states, works) && states[0] == s && states[|states| - 1] == t
  }

  lemma Begin(s: Service, works: Fortune)
    ensures Leads(s, works, s)
  {
    var states := [s];
    assert Run(states, works) && states[0] == s && states[|states| - 1] == s;
  }

  lemma GoOn(from: Service, s: Service, works: Fortune, ok: bool) returns (t: Service)
    requires Leads(from, works, s) && !s.life.Free? && ok == works(s.life)
    ensures t == LifeStep(s, ok) && Leads(from, works, t)
  {
    t := LifeStep(s, ok);
    var states :| Run(states, works) && states[0] == from && states[|states| - 1] == s;
    var longer := states + [t];
    forall i, j | 0 <= i < j < |longer| && j == i + 1 ensures Steps(longer[i], longer[j], works) {
      if j < |states| {
        assert Steps(states[i], states[j], works);
      }
    }
    assert Run(longer, works) && longer[0] == from && longer[|longer| - 1] == t;
  }

  /** One step of the main thread by itself. */
  predicate MainSteps(s: Service, t: Service, promoted: bool) {
    !s.main.Ready? && t == MainStep(s, promoted)
  }

  ghost predicate MainRun(states: seq<Service>, promoted: bool) {
    && states != []
    && forall i, j {:trigger MainSteps(states[i], states[j], promoted)} | 0 <= i < j < |states| && j == i + 1 ::
        MainSteps(states[i], states[j], promoted)
  }

  ghost predicate MainLeads(s: Service, promoted: bool, t: Service) {
    exists states :: MainRun(states, promoted) && states[0] == s && states[|states| - 1] == t
  }

  lemma MainBegin(s: Service, promoted: bool)
    ensures MainLeads(s, promoted, s)
  {
    var states := [s];
    assert MainRun(states, promoted) && states[0] == s && states[|states| - 1] == s;
  }

  lemma MainGoOn(from: Service, s: Service, promoted: bool) returns (t: Service)
    requires MainLeads(from, promoted, s) && !s.main.Ready?
    ensures t == MainStep(s, promoted) && MainLeads(from, promoted, t)
  {
    t := MainStep(s, promoted);
    var states :| MainRun(states, promoted) && states[0] == from && states[|states| - 1] == s;
    var longer := states + [t];
    forall i, j | 0 <= i < j < |longer| && j == i + 1 ensures MainSteps(longer[i], longer[j], promoted) {
      if j < |states| {
        assert MainSteps(states[i], states[j], promoted);
      }
    }
    assert MainRun(longer, promoted) && longer[0] == from && longer[|longer| - 1] == t;
  }

  predicate HoldsNothing(s: Service) {
    s.fds.tunFd.None? && s.fds.tunPfd.None?
  }

  // ----- What each task comes to ----------------------------------------------------------------

  /** The clean-up of a start that threw; the native stop in it may throw as well. */
  function Caught(s: Service, works: Fortune): Service {
    s.(desiredRunning := false, coreRunning := false, callback := false, state := Disconnected,
       native := if works(InCatch(CatchPc.StopNative)) then false else s.native, life := Free)
  }

  /** The ways in which `startCore` ends while the wish is not withdrawn. */
  datatype Ending = NotWanted | AlreadyUp | NoConfig | NoTun | NotDetached | Thrown | Up

  function EndingOf(s: Service, works: Fortune): Ending {
    if !s.desiredRunning then NotWanted
    else if s.coreRunning then AlreadyUp
    else if !works(InStart(ReadConfig)) then NoConfig
    else if !works(InStart(Install)) || !works(InStart(Establish)) then NoTun
    else if !works(InStart(Detach)) then NotDetached
    else if !works(InStart(StartCorePc.StartNative)) then Thrown
    else Up
  }

  /** A descriptor that was obtained ends closed, or handed over to the core. */
  function Ended(s: Service, end: Ending, works: Fortune): Service {
    var tun := s.fds.obtained;
    var d := s.fds.(obtained := tun + 1);
    match end
    case NotWanted => s.(callback := false, state := Disconnected, life := Free)
    case AlreadyUp => s.(life := Free)
    case NoConfig => s.(desiredRunning := false, state := Disconnected, life := Free)
    case NoTun => Caught(s, works)
    case NotDetached => Caught(s.(fds := d.(closed := d.closed + [tun])), works)
    case Thrown => Caught(s.(fds := d.(handedOver := d.handedOver + [tun])), works).(native := false)
    case Up =>
      s.(fds := d.(handedOver := d.handedOver + [tun]), callback := s.callback || works(InStart(Register)),
         native := true, coreRunning := true, state := Connected, life := Free)
  }

  /** `stopCore`: the core counts as stopped even if its native stop throws. */
  function Stopped(s: Service, works: Fortune): Service {
    var needed := s.coreRunning || s.state != Disconnected;
    var works := works(InStop(StopCorePc.StopNative));
    s.(coreRunning := false, callback := false, state := Disconnected, needsNativeStop := needed, life := Free,
       native := s.native && !(needed && works), nativeStopFailed := s.nativeStopFailed || (needed && !works))
  }

  lemma NothingToClose(d: Descriptors)
    requires d.tunFd.None? && d.tunPfd.None?
    ensures Closed(d) == d
  {
    assert d.closed + [] + [] == d.closed;
  }

  lemma CatchEnds(from: Service, s: Service, works: Fortune)
    requires Leads(from, works, s) && s.life == InCatch(CatchPc.ClearDesired)
    ensures Leads(from, works, Caught(s, works).(fds := Closed(s.fds)))
  {
    var t := GoOn(from, s, works, works(s.life));
    t := GoOn(from, t, works, works(t.life));
    t := GoOn(from, t, works, works(t.life));
    t := GoOn(from, t, works, works(t.life));
    t := GoOn(from, t, works, works(t.life));
  }

  lemma CancelEnds(from: Service, s: Service, works: Fortune)
    requires Leads(from, works, s) && s.life == InCancel(CancelPc.Clean)
    ensures Leads(from, works, s.(fds := Closed(s.fds), callback := false, state := Disconnected, life := Free))
  {
    var t := GoOn(from, s, works, works(s.life));
    t := GoOn(from, t, works, works(t.life));
  }

  lemma FailEnds(from: Service, s: Service, works: Fortune)
    requires Leads(from, works, s) && s.life == InFail(FailPc.ClearDesired)
    ensures Leads(from, works, s.(desiredRunning := false, state := Disconnected, life := Free))
  {
    var t := GoOn(from, s, works, works(s.life));
    t := GoOn(from, t, works, works(t.life));
  }

  lemma NativeStopped(from: Service, s: Service, works: Fortune) returns (t: Service)
    requires Leads(from, works, s) && s.life == InStop(Decide) && HoldsNothing(s)
    ensures Leads(from, works, t) && t == Stopped(s, works).(life := InStop(StopCorePc.NoteStopped),
            coreRunning := s.coreRunning, state := s.state)
  {
    t := GoOn(from, s, works, works(s.life));
    t := GoOn(from, t, works, works(t.life));
    t := GoOn(from, t, works, works(t.life));
  }

  lemma StopNoted(from: Service, s: Service, works: Fortune)
    requires Leads(from, works, s) && s.life == InStop(StopCorePc.NoteStopped) && HoldsNothing(s)
    ensures Leads(from, works, s.(coreRunning := false, state := Disconnected, life := Free))
  {
    NothingToClose(s.fds);
    var t := GoOn(from, s, works, works(s.life));
    t := GoOn(from, t, works, works(t.life));
    t := GoOn(from, t, works, works(t.life));
  }

  // A start, from the state it needs in each stretch.

  lemma Wanted(from: Service, s: Service, works: Fortune) returns (t: Service)
    requires Leads(from, works, s) && s.life == InStart(Check) && s.desiredRunning
    ensures Leads(from, works, t) && t == s.(life := if s.coreRunning then Free else InStart(ReadConfig))
  {
    t := GoOn(from, s, works, works(s.life));
    t := GoOn(from, t, works, works(t.life));
  }

  lemma Shown(from: Service, s: Service, works: Fortune) returns (t: Service)
    requires Leads(from, works, s) && s.life == InStart(ReadConfig) && works(s.life)
    ensures Leads(from, works, t) && t == s.(life := InStart(Install), state := Connecting)
  {
    t := GoOn(from, s, works, true);
    t := GoOn(from, t, works, works(t.life));
  }

  /** Whether or not the callback could be registered. */
  lemma Installed(from: Service, s: Service, works: Fortune) returns (t: Service)
    requires Leads(from, works, s) && s.life == InStart(Install) && works(s.life)
    ensures Leads(from, works, t)
    ensures t == s.(life := InStart(Establish), callback := s.callback || works(InStart(Register)))
  {
    t := GoOn(from, s, works, true);
    t := GoOn(from, t, works, works(t.life));
  }

  lemma HandedToTheCore(from: Service, s: Service, works: Fortune) returns (t: Service)
    requires Leads(from, works, s) && s.life == InStart(Establish) && s.desiredRunning && HoldsNothing(s)
    requires works(s.life) && works(InStart(Detach))
    ensures Leads(from, works, t) && t == s.(life := InStart(StartCorePc.StartNative),
            fds := s.fds.(obtained := s.fds.obtained + 1, handedOver := s.fds.handedOver + [s.fds.obtained]))
  {
    t := GoOn(from, s, works, true);
    t := GoOn(from, t, works, true);
    t := GoOn(from, t, works, works(t.life));
    t := GoOn(from, t, works, works(t.life));
  }

  lemma NativeThrows(from: Service, s: Service, works: Fortune)
    requires Leads(from, works, s) && s.life == InStart(StartCorePc.StartNative) && HoldsNothing(s) && !works(s.life)
    ensures Leads(from, works, Caught(s, works).(native := false))
  {
    var t := GoOn(from, s, works, false);
    NothingToClose(s.fds);
    CatchEnds(from, t, works);
  }

  lemma NativeStarts(from: Service, s: Service, works: Fortune) returns (t: Service)
    requires Leads(from, works, s) && s.life == InStart(StartCorePc.StartNative) && works(s.life)
    ensures Leads(from, works, t) && t == s.(native := true, coreRunning := true, life := InStart(RecheckLate))
  {
    t := GoOn(from, s, works, true);
    t := GoOn(from, t, works, works(t.life));
  }

  lemma Connects(from: Service, s: Service, works: Fortune)
    requires Leads(from, works, s) && s.life == InStart(RecheckLate) && s.desiredRunning
    ensures Leads(from, works, s.(state := Connected, life := Free))
  {
    var t := GoOn(from, s, works, works(s.life));
    t := GoOn(from, t, works, works(t.life));
  }

  /** The end that throws at once, before there is anything to close. */
  lemma ThrowsEarly(from: Service, s: Service, works: Fortune)
    requires Leads(from, works, s) && (s.life == InStart(Install) || s.life == InStart(Establish))
    requires HoldsNothing(s) && !works(s.life)
    ensures Leads(from, works, Caught(s, works))
  {
    var t := GoOn(from, s, works, false);
    NothingToClose(s.fds);
    CatchEnds(from, t, works);
  }

  lemma DetachThrows(from: Service, s: Service, works: Fortune)
    requires Leads(from, works, s) && s.life == InStart(Establish) && HoldsNothing(s)
    requires works(s.life) && !works(InStart(Detach))
    ensures var d := s.fds.(obtained := s.fds.obtained + 1, closed := s.fds.closed + [s.fds.obtained]);
            Leads(from, works, Caught(s.(fds := d), works))
  {
    var t := GoOn(from, s, works, true);
    t := GoOn(from, t, works, false);
    assert s.fds.closed + [] + [s.fds.obtained] == s.fds.closed + [s.fds.obtained];
    CatchEnds(from, t, works);
  }

  // A start from its beginning to each of its ends.

  lemma EndsUnwanted(s: Service, works: Fortune)
    requires s.life == InStart(Check) && HoldsNothing(s) && !s.desiredRunning
    ensures Leads(s, works, Ended(s, NotWanted, works))
  {
    Begin(s, works);
    var t := GoOn(s, s, works, works(s.life));
    NothingToClose(s.fds);
    CancelEnds(s, t, works);
  }

  lemma EndsSoon(s: Service, works: Fortune)
    requires s.life == InStart(Check) && s.desiredRunning && (s.coreRunning || !works(InStart(ReadConfig)))
    ensures Leads(s, works, Ended(s, if s.coreRunning then AlreadyUp else NoConfig, works))
  {
    Begin(s, works);
    var t := Wanted(s, s, works);
    if !s.coreRunning {
      t := GoOn(s, t, works, false);
      FailEnds(s, t, works);
    }
  }

  /** With a config, up to what may throw. */
  lemma Configured(s: Service, works: Fortune) returns (t: Service)
    requires s.life == InStart(Check) && s.desiredRunning && !s.coreRunning && works(InStart(ReadConfig))
    ensures Leads(s, works, t) && t == s.(life := InStart(Install), state := Connecting)
  {
    Begin(s, works);
    t := Wanted(s, s, works);
    t := Shown(s, t, works);
  }

  lemma EndsWithoutTun(s: Service, works: Fortune)
    requires s.life == InStart(Check) && HoldsNothing(s) && EndingOf(s, works) == NoTun
    ensures Leads(s, works, Ended(s, NoTun, works))
  {
    var t := Configured(s, works);
    if works(InStart(Install)) {
      var u := Installed(s, t, works);
      ThrowsEarly(s, u, works);
    } else {
      ThrowsEarly(s, t, works);
    }
  }

  lemma EndsNotDetached(s: Service, works: Fortune)
    requires s.life == InStart(Check) && HoldsNothing(s) && EndingOf(s, works) == NotDetached
    ensures Leads(s, works, Ended(s, NotDetached, works))
  {
    var t := Configured(s, works);
    t := Installed(s, t, works);
    DetachThrows(s, t, works);
  }

  lemma EndsThrown(s: Service, works: Fortune)
    requires s.life == InStart(Check) && HoldsNothing(s) && EndingOf(s, works) == Thrown
    ensures Leads(s, works, Ended(s, Thrown, works))
  {
    var t := Configured(s, works);
    t := Installed(s, t, works);
    t := HandedToTheCore(s, t, works);
    NativeThrows(s, t, works);
  }

  lemma EndsUp(s: Service, works: Fortune)
    requires s.life == InStart(Check) && HoldsNothing(s) && EndingOf(s, works) == Up
    ensures Leads(s, works, Ended(s, Up, works))
  {
    var t := Configured(s, works);
    t := Installed(s, t, works);
    t := HandedToTheCore(s, t, works);
    t := NativeStarts(s, t, works);
    Connects(s, t, works);
  }

  /** A start task by itself, with any of its foreign calls failing: how it ends, and in which state. */
  lemma StartTaskEnds(s: Service, works: Fortune)
    requires s.life == InStart(Check) && HoldsNothing(s)
    ensures Leads(s, works, Ended(s, EndingOf(s, works), works))
  {
    match EndingOf(s, works)
    case NotWanted => EndsUnwanted(s, works);
    case AlreadyUp => EndsSoon(s, works);
    case NoConfig => EndsSoon(s, works);
    case NoTun => EndsWithoutTun(s, works);
    case NotDetached => EndsNotDetached(s, works);
    case Thrown => EndsThrown(s, works);
    case Up => EndsUp(s, works);
  }

  /** A stop task by itself. */
  lemma StopTaskEnds(s: Service, works: Fortune)
    requires s.life == InStop(Decide) && HoldsNothing(s)
    ensures Leads(s, works, Stopped(s, works))
  {
    Begin(s, works);
    var t := NativeStopped(s, s, works);
    StopNoted(s, t, works);
  }

  /** A wish withdrawn before the handover closes the TUN. */
  lemma WithdrawnBeforeHandover(s: Service, works: Fortune)
    requires s.life == InStart(Recheck) && !s.desiredRunning && s.fds.tunPfd.None? && s.fds.tunFd.Some?
    ensures var closed := s.fds.(tunFd := None, closed := s.fds.closed + [s.fds.tunFd.value]);
            Leads(s, works, s.(fds := closed, callback := false, state := Disconnected, life := Free))
  {
    Begin(s, works);
    var t := GoOn(s, s, works, works(s.life));
    assert s.fds.closed + [s.fds.tunFd.value] + [] == s.fds.closed + [s.fds.tunFd.value];
    NothingToClose(t.fds);
    CancelEnds(s, t, works);
  }

  /** A wish withdrawn while the native start runs leaves the core to the stop that is coming. */
  lemma WithdrawnAfterStart(s: Service, works: Fortune)
    requires s.life == InStart(RecheckLate) && !s.desiredRunning
    ensures Leads(s, works, s.(life := Free))
  {
    Begin(s, works);
    var t := GoOn(s, s, works, works(s.life));
  }

  // ----- What each command comes to -------------------------------------------------------------

  function At(s: Service, main: MainPc, desired: bool): Service {
    s.(desiredRunning := desired, main := main)
  }

  lemma StartQueued(s: Service, begun: Service)
    requires begun == At(s, Starting(Promote), true) && !s.shutDown
    ensures MainLeads(begun, true, s.(desiredRunning := true, tasks := s.tasks + [StartTask], main := Ready))
  {
    MainBegin(begun, true);
    var t := MainGoOn(begun, begun, true);
    t := MainGoOn(begun, t, true);
  }

  lemma StartRejected(s: Service, begun: Service)
    requires begun == At(s, Starting(Promote), true) && s.shutDown
    ensures MainLeads(begun, true, s.(desiredRunning := false, state := Disconnected, main := Ready))
  {
    MainBegin(begun, true);
    var t := MainGoOn(begun, begun, true);
    t := MainGoOn(begun, t, true);
    t := MainGoOn(begun, t, true);
    t := MainGoOn(begun, t, true);
  }

  lemma NotPromoted(s: Service, begun: Service)
    requires begun == At(s, Starting(Promote), true)
    ensures MainLeads(begun, false, s.(desiredRunning := false, state := Disconnected, main := Ready))
  {
    MainBegin(begun, false);
    var t := MainGoOn(begun, begun, false);
    t := MainGoOn(begun, t, false);
    t := MainGoOn(begun, t, false);
  }

  /** A start is queued unless the promotion fails or the executor is shut down. */
  lemma StartCommandEnds(s: Service, promoted: bool)
    requires s.main.Ready?
    ensures promoted && !s.shutDown ==>
              MainLeads(Apply(s, CommandStart), promoted, s.(desiredRunning := true, tasks := s.tasks + [StartTask]))
    ensures !promoted || s.shutDown ==>
              MainLeads(Apply(s, CommandStart), promoted, s.(desiredRunning := false, state := Disconnected))
  {
    if !promoted {
      NotPromoted(s, Apply(s, CommandStart));
    } else if s.shutDown {
      StartRejected(s, Apply(s, CommandStart));
    } else {
      StartQueued(s, Apply(s, CommandStart));
    }
  }

  lemma StopShown(s: Service, begun: Service)
    requires begun == At(s, Stopping(StopCommandPc.ReadState), false) && !s.state.Disconnected?
    ensures MainLeads(begun, true, s.(desiredRunning := false, state := Disconnecting, main := Ready,
      tasks := if s.shutDown then s.tasks else s.tasks + [StopTask]))
  {
    MainBegin(begun, true);
    var t := MainGoOn(begun, begun, true);
    t := MainGoOn(begun, t, true);
    t := MainGoOn(begun, t, true);
  }

  lemma StopUnshown(s: Service, begun: Service)
    requires begun == At(s, Stopping(StopCommandPc.ReadState), false) && s.state.Disconnected?
    ensures MainLeads(begun, true, s.(desiredRunning := false, main := Ready,
      tasks := if s.shutDown then s.tasks else s.tasks + [StopTask]))
  {
    MainBegin(begun, true);
    var t := MainGoOn(begun, begun, true);
    t := MainGoOn(begun, t, true);
  }

  /** A stop withdraws the wish and is queued unless the executor is shut down. */
  lemma StopCommandEnds(s: Service)
    requires s.main.Ready?
    ensures var shown := if s.state.Disconnected? then Disconnected else Disconnecting;
            var queued := if s.shutDown then s.tasks else s.tasks + [StopTask];
            MainLeads(Apply(s, CommandStop), true, s.(desiredRunning := false, state := shown, tasks := queued))
  {
    if s.state.Disconnected? {
      StopUnshown(s, Apply(s, CommandStop));
    } else {
      StopShown(s, Apply(s, CommandStop));
    }
  }

  lemma DestroyCleansUp(s: Service, begun: Service, read: Service)
    requires MainLeads(begun, true, read) && read == At(s, Destroying(DestroyPc.ShowDisconnecting), false)
    ensures MainLeads(begun, true, s.(desiredRunning := false, shutDown := true, state := Disconnecting, main := Ready,
      tasks := if s.shutDown then s.tasks else s.tasks + [DestroyTask]))
  {
    var t := MainGoOn(begun, read, true);
    t := MainGoOn(begun, t, true);
    t := MainGoOn(begun, t, true);
  }

  lemma DestroyFindsNothing(s: Service, begun: Service)
    requires begun == At(s, Destroying(ReadCore), false) && !s.coreRunning && s.state.Disconnected?
    ensures MainLeads(begun, true, s.(desiredRunning := false, shutDown := true, stranded := false, main := Ready))
  {
    MainBegin(begun, true);
    var t := MainGoOn(begun, begun, true);
    t := MainGoOn(begun, t, true);
    t := MainGoOn(begun, t, true);
  }

  lemma DestroyReads(s: Service, begun: Service)
    requires begun == At(s, Destroying(ReadCore), false) && (s.coreRunning || !s.state.Disconnected?)
    ensures MainLeads(begun, true, At(s, Destroying(DestroyPc.ShowDisconnecting), false))
  {
    MainBegin(begun, true);
    var t := MainGoOn(begun, begun, true);
    if !s.coreRunning {
      var u := MainGoOn(begun, t, true);
    }
  }

  /** onDestroy queues a stop if the core runs or anything but "disconnected" is shown, and shuts the executor down. */
  lemma DestroyEnds(s: Service)
    requires s.main.Ready?
    ensures s.coreRunning || !s.state.Disconnected? ==>
              MainLeads(Apply(s, Destroy), true,
                        s.(desiredRunning := false, shutDown := true, state := Disconnecting,
                           tasks := if s.shutDown then s.tasks else s.tasks + [DestroyTask]))
    ensures !s.coreRunning && s.state.Disconnected? ==>
              MainLeads(Apply(s, Destroy), true, s.(desiredRunning := false, shutDown := true, stranded := false))
  {
    var begun := Apply(s, Destroy);
    if s.coreRunning || !s.state.Disconnected? {
      DestroyReads(s, begun);
      DestroyCleansUp(s, begun, At(s, Destroying(DestroyPc.ShowDisconnecting), false));
    } else {
      DestroyFindsNothing(s, begun);
    }
  }
}
