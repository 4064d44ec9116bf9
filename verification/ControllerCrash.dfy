/** The handler of RuntimeListenerConnected dereferences the listener: when that takes the process down. */
module ControllerCrash {
  import opened Options
  import opened MachineTypes
  import opened ControllerModel
  import opened ControllerSafety
  import opened ControllerTheorems
  import opened ControllerProgress

  /** Exactly the reset for a listener that has cleared itself crashes; no other step of any run does. */
  lemma CrashesIff(s: Sys, a: Action)
    requires Reachable(s) && Enabled(s, a) && !s.crashed
    ensures Apply(s, a).crashed <==> a.Core? && s.core == ResetErrors && s.threads == map[]
  {
    ReachableInv(s);
    match a
    case Core(dbOk) =>
      match s.core {
        case Listen(snapshot) => ListenFrame(s, snapshot);
        case _ =>
      }
      if s.state.listener.Some? { assert s.state.listener.value.thread in s.threads; }
    case Term => TermFrame(s);
    case _ =>
  }

  const RELOADED := Machine(Running, WantPending, false)

  /** A machine reloaded in Running and wanted Pending: one assessment has started its worker and, since it
      runs, its listener. */
  function Stopping(bus: multiset<Message>, pc: WorkerPc, stream: StreamState): Sys {
    Boot(RELOADED, Resources(true, Held, [])).(
      state := State(RELOADED, Some(Reconciliation(0, WantPending)), Some(RuntimeListener(1, 0))), bus := bus,
      workers := map[0 := Worker(WantPending, RELOADED, pc, false, false)],
      threads := map[1 := ListenerThread(false, stream)], nextId := 2)
  }

  lemma StoppingHappens(r: Sys -> bool)
    requires StepClosed(r) && r(Boot(RELOADED, Resources(true, Held, [])))
    ensures r(Stopping(multiset{}, PendingProbe, Closed))
  {
    var s := Assessed(r, Boot(RELOADED, Resources(true, Held, [])));
    assert s.bus == multiset{};
    assert s == Stopping(multiset{}, PendingProbe, Closed);
  }

  lemma ListenerConnects(r: Sys -> bool)
    requires StepClosed(r) && r(Stopping(multiset{}, PendingProbe, Closed))
    ensures r(Stopping(multiset{ListenerConnected}, PendingProbe, Open(true)))
  {
    var s1 := Take(r, Stopping(multiset{}, PendingProbe, Closed), Hear(1, Connect));
    assert s1.bus == multiset{};
    assert s1 == Stopping(multiset{}, PendingProbe, Open(false));
    var s2 := Take(r, s1, Hear(1, Receive(false)));
    assert s2.bus == multiset{ListenerConnected};
    assert s2 == Stopping(multiset{ListenerConnected}, PendingProbe, Open(true));
  }

  lemma TerminatingAnnounced(r: Sys -> bool)
    requires StepClosed(r) && r(Stopping(multiset{ListenerConnected}, PendingProbe, Open(true)))
    ensures r(Stopping(multiset{ListenerConnected, StateChanged(Terminating)}, PendingTerminate, Open(true)))
  {
    var s := Stopping(multiset{ListenerConnected}, PendingProbe, Open(true));
    var t := Take(r, s, Work(0, Outcome(true, true, true)));
    assert t.bus == multiset{ListenerConnected, StateChanged(Terminating)};
    assert t == Stopping(multiset{ListenerConnected, StateChanged(Terminating)}, PendingTerminate, Open(true));
  }

  lemma ListenerLeaves(r: Sys -> bool)
    requires StepClosed(r)
    requires r(Stopping(multiset{ListenerConnected, StateChanged(Terminating)}, PendingTerminate, Open(true)))
    ensures exists s :: r(s) && s.crashed
  {
    var s0 := Stopping(multiset{ListenerConnected, StateChanged(Terminating)}, PendingTerminate, Open(true));
    var s1 := StateChangedHandled(r, s0, Terminating);
    assert s1.bus == multiset{ListenerConnected, AssessState};
    ListenerClears(r, s1);
  }

  lemma ListenerClears(r: Sys -> bool, s: Sys)
    requires StepClosed(r) && r(s) && !s.crashed && s.core == CoreIdle && s.term == TermIdle && s.phase == Fresh
    requires s.bus == multiset{ListenerConnected, AssessState} && s.state.recon.Some? && !ShouldListen(s.state.machine)
    requires s.state.listener == Some(RuntimeListener(1, 0)) && s.threads == map[1 := ListenerThread(false, Open(true))]
    ensures exists t :: r(t) && t.crashed
  {
    var s1 := Take(r, s, Hear(1, Disconnect));
    var s5 := Assessed(r, s1);
    assert s5.threads == map[1 := ListenerThread(true, Closed)] && ListenerConnected in s5.bus;
    var s6 := Take(r, s5, Hear(1, Clear));
    LateConnected(r, s6);
  }

  lemma LateConnected(r: Sys -> bool, s: Sys)
    requires StepClosed(r) && r(s) && !s.crashed && s.core == CoreIdle && s.term == TermIdle && s.phase == Fresh
    requires ListenerConnected in s.bus && s.state.listener.None?
    ensures exists t :: r(t) && t.crashed
  {
    var s1 := Take(r, s, Pick(ListenerConnected));
    var s2 := Take(r, s1, Core(true));
    var s3 := Take(r, s2, Core(true));
    assert s3.crashed;
  }

  /** Without the assumption that Connected is dispatched while the listener is there, a run crashes: the
      message waits on the bus until the listener it speaks of has been cancelled and has left. */
  lemma LateConnectedCrashes()
    ensures exists s :: Reachable(s) && s.crashed
  {
    ReachableBoot(RELOADED, Resources(true, Held, []));
    forall s, a | Reachable(s) && Enabled(s, a) ensures Reachable(Apply(s, a)) { ReachableStep(s, a); }
    StoppingHappens(s => Reachable(s));
    ListenerConnects(s => Reachable(s));
    TerminatingAnnounced(s => Reachable(s));
    ListenerLeaves(s => Reachable(s));
  }
}
