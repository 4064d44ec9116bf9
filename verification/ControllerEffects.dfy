/**
  What the steps of a controller change, written out in terms of its fields: when a worker is launched, a
  listener started, a thread cancelled, a mark set, a runtime up, and what handling a message leaves.
 */
module ControllerEffects {
  import opened Options
  import opened MachineTypes
  import opened ControllerModel
  import opened ControllerSafety
  import opened ControllerTheorems
  import opened ControllerTerminated

  // ---------------------------------------------------------------- what can happen

  /** Nothing under way is ever held up: while the process lives, a handler goes on whether or not its save
      succeeds, a worker whatever its call answers, a listener in one way at least, and once both handlers are
      done any pending message can be taken. */
  lemma NothingBlocked(s: Sys, m: Message, id: nat, o: Outcome, ok: bool)
    requires !s.crashed
    ensures s.core != CoreIdle ==> Enabled(s, Core(ok))
    ensures s.term != TermIdle ==> Enabled(s, Term)
    ensures s.core == CoreIdle && s.term == TermIdle && m in s.bus ==> Enabled(s, Pick(m))
    ensures id in s.workers ==> Enabled(s, Work(id, o))
    ensures id in s.threads ==>
      if s.threads[id].stream.Open? then Enabled(s, Hear(id, Receive(ok))) && Enabled(s, Hear(id, Disconnect))
      else Enabled(s, Hear(id, Connect)) && (s.threads[id].cancelled ==> Enabled(s, Hear(id, Clear)))
  {
  }

  // ---------------------------------------------------------------- handling a message

  /** The first step of handling a message: row and memory, listener, bus, and what comes next. */
  lemma HandlingIs(s: Sys, m: Message, dbOk: bool)
    requires s.core == Begin(m) && s.row == s.state.machine
    ensures var t := CoreStep(s, dbOk);
            && t.row == t.state.machine == (
                 if m.DesiredStateChanged? && dbOk then Machine(s.row.state, m.desired, s.row.terminatedAt)
                 else if m.StateChanged? && dbOk then Machine(m.state, s.row.desired, m.state == Terminated)
                 else s.row)
            && t.state.recon == s.state.recon
            && t.state.listener == (
                 if m == ListenerDisconnected && s.state.listener.Some?
                 then Some(RuntimeListener(s.state.listener.value.thread, s.state.listener.value.errors + 1))
                 else s.state.listener)
            && t.bus == s.bus + (
                 if m == ListenerConnected && s.row.state != Running then multiset{StateChanged(Running)}
                 else multiset{})
            && t.workers == s.workers && t.threads == s.threads && t.res == s.res
  {
  }

  lemma HandlingGoesOn(s: Sys, m: Message, dbOk: bool)
    requires s.core == Begin(m)
    ensures CoreStep(s, dbOk).core ==
      if m == AssessState then Decide(s.state)
      else if m.DesiredStateChanged? || m.StateChanged? then PublishAssess
      else if m == ListenerConnected then ResetErrors
      else if m == ListenerDisconnected then CheckErrors
      else CoreIdle
  {
  }

  // ---------------------------------------------------------------- workers

  /** A worker is launched if and only if an assessment is decided, no reconciliation is recorded, the
      controller is not stopping, and the machine is not where it is wanted: not Pending, neither Running nor
      Degraded, not Terminated. */
  lemma LaunchIff(s: Sys, a: Action)
    requires Inv(s) && Enabled(s, a)
    ensures var m := s.state.machine;
            Launches(s, a) <==>
              && a.Core? && s.core.Decide? && s.state.recon.None? && !s.stopping
              && ((m.desired == WantPending && m.state != Pending) ||
                  (m.desired == WantRunning && m.state != Running && m.state != Degraded) ||
                  (m.desired == WantTerminated && m.state != Terminated))
  {
    match a
    case Core(dbOk) => LaunchCore(s, dbOk);
    case Term => TermFrame(s);
    case Work(id, o) => assert WorkStep(s, id, o).workers.Keys <= s.workers.Keys;
    case _ => assert Apply(s, a).workers.Keys <= s.workers.Keys;
  }

  lemma LaunchCore(s: Sys, dbOk: bool)
    requires Inv(s) && Enabled(s, Core(dbOk))
    ensures var m := s.state.machine;
            Launches(s, Core(dbOk)) <==>
              && s.core.Decide? && s.state.recon.None? && !s.stopping
              && ((m.desired == WantPending && m.state != Pending) ||
                  (m.desired == WantRunning && m.state != Running && m.state != Degraded) ||
                  (m.desired == WantTerminated && m.state != Terminated))
  {
    var t := CoreStep(s, dbOk);
    match s.core
    case Decide(snapshot) =>
      assert s.nextId !in s.workers;
      if ShouldReconcile(snapshot.machine) && s.state.recon.None? && !s.stopping { assert s.nextId in t.workers; }
    case Begin(m) => assert t.workers == s.workers;
    case Listen(snapshot) => ListenFrame(s, snapshot);
    case _ =>
  }

  /** The launched worker drives the desired state of the moment from the machine of the moment, on record. */
  lemma LaunchedIs(s: Sys, dbOk: bool)
    requires Inv(s) && Enabled(s, Core(dbOk)) && Launches(s, Core(dbOk))
    ensures var t := CoreStep(s, dbOk);
            && t.workers.Keys == {s.nextId} && t.state.recon == Some(Reconciliation(s.nextId, s.state.machine.desired))
            && t.workers[s.nextId].desired == s.state.machine.desired && t.workers[s.nextId].snapshot == s.state.machine
            && !t.workers[s.nextId].cancelled && !t.workers[s.nextId].gone
  {
    LaunchCore(s, dbOk);
  }

  /** Only the second half of `Stop` cancels a worker, the one recorded when it began. */
  lemma WorkerCancelledIff(s: Sys, a: Action, id: nat)
    requires Inv(s) && Enabled(s, a) && !a.Restart? && id in s.workers && id in Apply(s, a).workers
    ensures Apply(s, a).workers[id].cancelled <==>
      s.workers[id].cancelled ||
      (a.Term? && s.term.TermWait? && s.term.snapshot.recon.Some? && s.term.snapshot.recon.value.worker == id)
  {
    match a
    case Core(dbOk) => WorkerUncancelledByCore(s, dbOk, id);
    case Work(w, o) => if w == id && s.workers[id].pc != Published { AdvanceCancelled(s.workers[id], s.res, o); }
    case Term => match s.term { case TermBegin(m) => case _ => }
    case _ =>
  }

  lemma AdvanceCancelled(w: Worker, r: Resources, o: Outcome)
    ensures Advance(w, r, o).worker.cancelled == w.cancelled
  {
  }

  lemma WorkerUncancelledByCore(s: Sys, dbOk: bool, id: nat)
    requires s.core != CoreIdle && id in s.workers && id != s.nextId
    ensures id in CoreStep(s, dbOk).workers && CoreStep(s, dbOk).workers[id] == s.workers[id]
  {
    CoreFrame(s, dbOk);
  }

  // ---------------------------------------------------------------- listeners

  /** A listener thread is added if and only if an assessment finds a machine that was Running or Degraded
      when it began, with no listener on record. */
  lemma ListenerStartedIff(s: Sys, a: Action)
    requires Inv(s) && Enabled(s, a)
    ensures (exists id :: id in Apply(s, a).threads && id !in s.threads) <==>
      && a.Core? && s.core.Listen? && s.core.snapshot.listener.None?
      && (s.core.snapshot.machine.state == Running || s.core.snapshot.machine.state == Degraded)
  {
    match a
    case Core(dbOk) => ListenerStartedCore(s, dbOk);
    case Term => TermFrame(s);
    case _ => assert Apply(s, a).threads.Keys <= s.threads.Keys;
  }

  lemma ListenerStartedCore(s: Sys, dbOk: bool)
    requires Inv(s) && s.core != CoreIdle
    ensures (exists id :: id in CoreStep(s, dbOk).threads && id !in s.threads) <==>
      && s.core.Listen? && s.core.snapshot.listener.None?
      && (s.core.snapshot.machine.state == Running || s.core.snapshot.machine.state == Degraded)
  {
    var t := CoreStep(s, dbOk);
    match s.core
    case Listen(snapshot) =>
      if snapshot.listener.None? && (snapshot.machine.state == Running || snapshot.machine.state == Degraded) {
        assert s.nextId in t.threads;
      } else {
        assert t.threads.Keys == s.threads.Keys;
      }
    case Begin(m) => assert t.threads == s.threads;
    case _ =>
  }

  /** A listener is cancelled if and only if it was on record when an assessment began that finds the machine
      neither Running nor Degraded, or when a registered controller begins to stop. */
  lemma ListenerCancelledIff(s: Sys, a: Action, id: nat)
    requires Inv(s) && Enabled(s, a) && !a.Restart? && id in s.threads && id in Apply(s, a).threads
    ensures Apply(s, a).threads[id].cancelled <==>
      || s.threads[id].cancelled
      || (a.Core? && s.core.Listen? && s.core.snapshot.machine.state != Running
          && s.core.snapshot.machine.state != Degraded
          && s.core.snapshot.listener.Some? && s.core.snapshot.listener.value.thread == id)
      || (a.Term? && s.term == TermBegin(TERMINATED) && s.phase == Registered
          && s.state.listener.Some? && s.state.listener.value.thread == id)
  {
    match a
    case Core(dbOk) => ListenerCancelledByCore(s, dbOk, id);
    case Term => ListenerCancelledByTerm(s, id);
    case _ =>
  }

  lemma ListenerCancelledByCore(s: Sys, dbOk: bool, id: nat)
    requires Inv(s) && s.core != CoreIdle && id in s.threads && id in CoreStep(s, dbOk).threads
    ensures CoreStep(s, dbOk).threads[id].cancelled <==>
      || s.threads[id].cancelled
      || (s.core.Listen? && s.core.snapshot.machine.state != Running && s.core.snapshot.machine.state != Degraded
          && s.core.snapshot.listener.Some? && s.core.snapshot.listener.value.thread == id)
  {
    match s.core
    case Listen(snapshot) =>
    case Begin(m) => assert CoreStep(s, dbOk).threads == s.threads;
    case _ =>
  }

  lemma ListenerCancelledByTerm(s: Sys, id: nat)
    requires id in s.threads && id in TermStep(s).threads
    ensures TermStep(s).threads[id].cancelled <==>
      || s.threads[id].cancelled
      || (s.term == TermBegin(TERMINATED) && s.phase == Registered
          && s.state.listener.Some? && s.state.listener.value.thread == id)
  {
    match s.term
    case TermWait(snapshot) => assert TermStep(s).threads == s.threads;
    case _ =>
  }

  /** What a listener's events leave: Connected with the first event of a connection, every container event,
      Disconnected with the end of the connection; a cancelled one clears what is recorded, and only it does. */
  lemma HearingIs(s: Sys, id: nat, h: Hearing)
    requires Enabled(s, Hear(id, h))
    ensures var t := Apply(s, Hear(id, h));
            && t.state.listener == (if h.Clear? then None else s.state.listener)
            && (id in t.threads <==> !h.Clear?) && (h.Clear? ==> s.threads[id].cancelled)
            && (id in t.threads ==> t.threads[id].cancelled == s.threads[id].cancelled)
            && (id in t.threads && h.Disconnect? ==> t.threads[id].stream == Closed)
            && t.bus == s.bus +
                 (if h.Receive? && !s.threads[id].stream.received then multiset{ListenerConnected} else multiset{}) +
                 (if h.Receive? && h.container then multiset{ContainerStateChanged} else multiset{}) +
                 (if h.Disconnect? then multiset{ListenerDisconnected} else multiset{})
  {
  }

  /** A recorded listener goes only by a cancelled one's own end, and a recorded reconciliation only by a worker's. */
  lemma ForgottenIff(s: Sys, a: Action)
    requires Enabled(s, a) && !a.Restart?
    ensures s.state.listener.Some? ==>
      (Apply(s, a).state.listener.None? <==> a.Hear? && a.hearing.Clear?)
    ensures s.state.recon.Some? ==>
      (Apply(s, a).state.recon.None? <==> a.Finish? || (a.Work? && s.workers[a.worker].pc == Published))
  {
    match a
    case Core(dbOk) =>
      if s.state.listener.Some? { ListenerRemembered(s, dbOk); }
      if s.state.recon.Some? { ReconRemembered(s, dbOk); }
    case Term => assert TermStep(s).state == s.state;
    case Work(id, o) => assert WorkStep(s, id, o).state.listener == s.state.listener;
    case _ =>
  }

  lemma ListenerRemembered(s: Sys, dbOk: bool)
    requires s.state.listener.Some?
    ensures CoreStep(s, dbOk).state.listener.Some?
  {
    match s.core
    case Decide(snapshot) => LaunchRemembers(s);
    case Listen(snapshot) => ListenRemembers(s, snapshot);
    case _ =>
  }

  lemma ReconRemembered(s: Sys, dbOk: bool)
    requires s.state.recon.Some?
    ensures CoreStep(s, dbOk).state.recon.Some?
  {
    match s.core
    case Decide(snapshot) => LaunchRemembers(s);
    case Listen(snapshot) => ListenRemembers(s, snapshot);
    case _ =>
  }

  lemma LaunchRemembers(s: Sys)
    ensures Launch(s).state.listener == s.state.listener
    ensures s.state.recon.Some? ==> Launch(s).state == s.state
  {
  }

  lemma ListenRemembers(s: Sys, snapshot: State)
    ensures ListenStep(s, snapshot).state.recon == s.state.recon
    ensures s.state.listener.Some? ==> ListenStep(s, snapshot).state.listener.Some?
  {
  }

  // ---------------------------------------------------------------- stopping

  /** While `Stop` waits, a worker still in flight is the one it will cancel; afterwards it is cancelled. */
  ghost predicate StopCatches(s: Sys) {
    && (s.term.TermWait? ==>
          forall id :: id in s.workers ==> s.term.snapshot.recon.Some? && s.term.snapshot.recon.value.worker == id)
    && (s.phase == Unregistered ==> forall id :: id in s.workers ==> s.workers[id].cancelled)
  }

  lemma StopCatchesTerm(s: Sys)
    requires Inv(s) && StopCatches(s)
    ensures StopCatches(TermStep(s))
  {
    TermFrame(s);
    match s.term
    case TermIdle =>
    case TermBegin(m) => assert TermStep(s).workers == s.workers;
    case TermWait(snapshot) =>
  }

  lemma StopCatchesCore(s: Sys, dbOk: bool)
    requires Inv(s) && StopCatches(s) && s.core != CoreIdle
    ensures StopCatches(CoreStep(s, dbOk))
  {
    CoreFrame(s, dbOk);
  }

  lemma StopCatchesStep(s: Sys, a: Action)
    requires Inv(s) && StopCatches(s) && Enabled(s, a)
    ensures StopCatches(Apply(s, a))
  {
    match a
    case Core(dbOk) => StopCatchesCore(s, dbOk);
    case Term => StopCatchesTerm(s);
    case Work(id, o) => if s.workers[id].pc != Published { AdvanceCancelled(s.workers[id], s.res, o); }
    case _ =>
  }

  lemma {:induction false} StopCatchesRun(s: Sys, run: seq<Action>)
    requires Inv(s) && StopCatches(s) && Legal(s, run)
    ensures StopCatches(Exec(s, run))
    decreases |run|
  {
    if run != [] {
      InvStep(s, run[0]);
      StopCatchesStep(s, run[0]);
      StopCatchesRun(Apply(s, run[0]), run[1..]);
    }
  }

  /** Once a controller has been removed, every worker of it that is still in flight has been cancelled, so no
      runtime is started any more. */
  lemma NoStartAfterStop(s: Sys, a: Action)
    requires Reachable(s) && s.phase == Unregistered && Enabled(s, a)
    ensures (forall id :: id in s.workers ==> s.workers[id].cancelled) && !CallsStart(s, a)
    ensures a.Work? && a.worker in s.workers && s.workers[a.worker].pc == RunningStart ==>
      Apply(s, a).workers[a.worker].pc == FAILED && Apply(s, a).res == s.res
  {
    var row, res, run :| LiveRow(row) && Legal(Boot(row, res), run) && s == Exec(Boot(row, res), run);
    BootInv(row, res);
    StopCatchesRun(Boot(row, res), run);
  }

  // ---------------------------------------------------------------- resources

  /** A mark after a release that succeeded, its save or not. */
  lemma InterfaceMark(s: Sys, a: Action)
    requires Enabled(s, a) && !a.Restart?
    ensures Apply(s, a).res.iface ==
      if a.Work? && s.workers[a.worker].pc == TerminatedInterface && s.res.iface == Held && a.outcome.ok
      then (if a.outcome.saved then Saved else Marked)
      else s.res.iface
  {
    match a
    case Work(id, o) => if s.workers[id].pc != Published { AdvanceInterface(s.workers[id], s.res, o); }
    case _ =>
  }

  lemma AdvanceInterface(w: Worker, r: Resources, o: Outcome)
    ensures Advance(w, r, o).res.iface ==
      if w.pc == TerminatedInterface && r.iface == Held && o.ok then (if o.saved then Saved else Marked) else r.iface
  {
  }

  lemma VolumeMark(s: Sys, a: Action, j: nat)
    requires Enabled(s, a) && !a.Restart? && j < |s.res.volumes|
    ensures |Apply(s, a).res.volumes| == |s.res.volumes|
    ensures Apply(s, a).res.volumes[j] ==
      if a.Work? && s.workers[a.worker].pc == TerminatedVolume(j) && s.res.volumes[j] == Held && a.outcome.ok
      then (if a.outcome.saved then Saved else Marked)
      else s.res.volumes[j]
  {
    match a
    case Work(id, o) => if s.workers[id].pc != Published { AdvanceVolume(s.workers[id], s.res, o, j); }
    case _ =>
  }

  lemma AdvanceVolume(w: Worker, r: Resources, o: Outcome, j: nat)
    requires j < |r.volumes|
    ensures var e := Advance(w, r, o);
            && |e.res.volumes| == |r.volumes|
            && e.res.volumes[j] ==
               if w.pc == TerminatedVolume(j) && r.volumes[j] == Held && o.ok
               then (if o.saved then Saved else Marked) else r.volumes[j]
  {
  }

  /** A start over keeps the marks that were saved and no other. */
  lemma RestartMarks(s: Sys)
    requires Enabled(s, Restart)
    ensures var r := Apply(s, Restart).res;
            && r.up == s.res.up && r.iface == (if s.res.iface == Saved then Saved else Held)
            && |r.volumes| == |s.res.volumes|
            && forall j :: 0 <= j < |r.volumes| ==> r.volumes[j] == if s.res.volumes[j] == Saved then Saved else Held
  {
  }

  /** A mark that becomes Saved does so where its own release succeeds and is saved, and never from Marked. */
  lemma SavedOnlyByRelease(s: Sys, a: Action)
    requires Reachable(s) && Enabled(s, a)
    ensures s.res.iface != Saved && Apply(s, a).res.iface == Saved ==>
      a.Work? && a.outcome.ok && a.outcome.saved && s.res.iface == Held && s.workers[a.worker].pc == TerminatedInterface
    ensures |Apply(s, a).res.volumes| == |s.res.volumes|
    ensures forall j :: 0 <= j < |s.res.volumes| && s.res.volumes[j] != Saved && Apply(s, a).res.volumes[j] == Saved ==>
      a.Work? && a.outcome.ok && a.outcome.saved && s.res.volumes[j] == Held &&
      s.workers[a.worker].pc == TerminatedVolume(j)
  {
    if a.Restart? {
      RestartMarks(s);
    } else {
      InterfaceMark(s, a);
      forall j | 0 <= j < |s.res.volumes|
        ensures |Apply(s, a).res.volumes| == |s.res.volumes|
        ensures s.res.volumes[j] != Saved && Apply(s, a).res.volumes[j] == Saved ==>
          a.Work? && a.outcome.ok && a.outcome.saved && s.res.volumes[j] == Held &&
          s.workers[a.worker].pc == TerminatedVolume(j)
      {
        VolumeMark(s, a, j);
      }
      MarksGrowStep(s, a);
    }
  }

  /** A worker takes the runtime to be gone when its probe finds none or its terminate returns nil. */
  lemma SeenGoneIff(s: Sys, a: Action, id: nat)
    requires Enabled(s, a) && a.Work? && a.worker == id && id in Apply(s, a).workers
    ensures Apply(s, a).workers[id].gone <==>
      || s.workers[id].gone
      || (s.workers[id].pc == TerminatedProbe && !a.outcome.ok)
      || (s.workers[id].pc == TerminatedTerminate && a.outcome.ok)
  {
    if s.workers[id].pc != Published { AdvanceGone(s.workers[id], s.res, a.outcome); }
  }

  lemma AdvanceGone(w: Worker, r: Resources, o: Outcome)
    ensures Advance(w, r, o).worker.gone <==>
      w.gone || (w.pc == TerminatedProbe && !o.ok) || (w.pc == TerminatedTerminate && o.ok)
  {
  }

  /** A runtime comes up by a start that succeeds, and goes by itself or by a termination it does not outlive. */
  lemma RuntimeUp(s: Sys, a: Action)
    requires Enabled(s, a) && !a.Restart?
    ensures Apply(s, a).res.up <==>
      if a.RuntimeDies? then false
      else if a.Work? && s.workers[a.worker].pc == RunningStart then
        s.res.up || (a.outcome.ok && !s.workers[a.worker].cancelled)
      else if a.Work? && a.outcome.ok && (s.workers[a.worker].pc == PendingTerminate ||
        s.workers[a.worker].pc == RunningCleanup || s.workers[a.worker].pc == TerminatedTerminate) then
        s.res.up && a.outcome.stillUp
      else s.res.up
  {
    match a
    case Work(id, o) => if s.workers[id].pc != Published { AdvanceUp(s.workers[id], s.res, o); }
    case _ =>
  }

  lemma AdvanceUp(w: Worker, r: Resources, o: Outcome)
    ensures Advance(w, r, o).res.up <==>
      if w.pc == RunningStart then r.up || (o.ok && !w.cancelled)
      else if o.ok && (w.pc == PendingTerminate || w.pc == RunningCleanup || w.pc == TerminatedTerminate) then
        r.up && o.stillUp
      else r.up
  {
  }
}
