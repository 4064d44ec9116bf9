/**
  What every step of a controller keeps, and so what holds in every state of every run, restarts
  included: one worker, one listener, row and memory agree, Terminated only after the release.
 */
module ControllerSafety {
  import opened Options
  import opened MachineTypes
  import opened ControllerModel

  // ---------------------------------------------------------------- the invariant

  /** A worker is in flight exactly while a reconciliation is recorded, and drives what it records. */
  ghost predicate OneWorker(s: Sys) {
    && (forall id :: id in s.workers ==> s.state.recon == Some(Reconciliation(id, s.workers[id].desired)))
    && (s.state.recon.Some? ==> s.state.recon.value.worker in s.workers)
  }

  ghost predicate OneListener(s: Sys) {
    && (forall id :: id in s.threads ==> s.state.listener.Some? && s.state.listener.value.thread == id)
    && (s.state.listener.Some? ==> s.state.listener.value.thread in s.threads)
  }

  /** A snapshot held by the event handler: only the handler itself changes the machine or adds a listener. */
  predicate FreshSnapshot(s: Sys, snapshot: State) {
    snapshot.machine == s.state.machine && (snapshot.listener.None? ==> s.state.listener.None?)
  }

  predicate FreshSnapshots(s: Sys) {
    match s.core
    case Decide(snapshot) => FreshSnapshot(s, snapshot)
    case Listen(snapshot) => FreshSnapshot(s, snapshot)
    case _ => true
  }

  predicate RowAgrees(s: Sys) {
    s.row == s.state.machine && (s.row.terminatedAt <==> s.row.state == Terminated)
  }

  predicate VolumesReleased(r: Resources, n: nat) {
    n <= |r.volumes| && forall j :: 0 <= j < n ==> r.volumes[j] != Held
  }

  predicate AllReleased(r: Resources) {
    r.iface != Held && VolumesReleased(r, |r.volumes|)
  }

  /** The worker stays on the path of its desired state, and Terminated is its result only when all is released. */
  predicate OnPath(r: Resources, w: Worker) {
    match w.pc
    case PendingProbe => w.desired == WantPending
    case PendingTerminate => w.desired == WantPending
    case PendingPrepare => w.desired == WantPending
    case RunningAnnounce => w.desired == WantRunning
    case RunningProbeError => w.desired == WantRunning
    case RunningCleanup => w.desired == WantRunning
    case RunningPrepare => w.desired == WantRunning
    case RunningProbe => w.desired == WantRunning
    case RunningStart => w.desired == WantRunning
    case TerminatedProbe => w.desired == WantTerminated
    case TerminatedTerminate => w.desired == WantTerminated
    case TerminatedInterface => w.desired == WantTerminated && w.gone
    case TerminatedVolume(i) => w.desired == WantTerminated && w.gone && r.iface != Held && VolumesReleased(r, i)
    case Done(st, _) => st == Terminated ==> w.desired == WantTerminated && w.gone && AllReleased(r)
    case Published => true
  }

  ghost predicate WorkersOnPath(s: Sys) {
    forall id :: id in s.workers ==> OnPath(s.res, s.workers[id])
  }

  /** Terminated has been announced: pending, being handled, or recorded. */
  predicate ClaimsTerminated(s: Sys) {
    StateChanged(Terminated) in s.bus || s.core == Begin(StateChanged(Terminated)) ||
    s.state.machine.state == Terminated
  }

  /** The marks of an announced termination are there, and cancellation means shutdown. */
  ghost predicate MarksBehind(s: Sys) {
    && (ClaimsTerminated(s) ==> AllReleased(s.res))
    && (s.phase == Unregistered || s.term.TermWait? ==> s.stopping)
    && (forall id :: id in s.workers && s.workers[id].cancelled ==> s.stopping)
  }

  /** The next identity has not been used. */
  ghost predicate NewIds(s: Sys) {
    (forall id :: id in s.workers ==> id < s.nextId) && (forall id :: id in s.threads ==> id < s.nextId)
  }

  ghost predicate Inv(s: Sys) {
    && NewIds(s) && OneWorker(s) && OneListener(s) && FreshSnapshots(s)
    && RowAgrees(s) && WorkersOnPath(s) && MarksBehind(s)
  }

  lemma BootInv(row: Machine, res: Resources)
    requires LiveRow(row)
    ensures Inv(Boot(row, res))
  {
  }

  // ---------------------------------------------------------------- the steps, one thread at a time

  lemma BeginKeeps(s: Sys, m: Message, dbOk: bool)
    requires Inv(s) && s.core == Begin(m)
    ensures Inv(BeginCore(s, m, dbOk))
  {
  }

  lemma LaunchKeeps(s: Sys, snapshot: State)
    requires Inv(s) && s.core == Decide(snapshot)
    ensures Inv(Launch(s).(core := Listen(snapshot)))
  {
  }

  lemma CancelThreadKeeps(s: Sys, id: nat)
    requires Inv(s)
    ensures Inv(CancelThread(s, id))
  {
    var t := CancelThread(s, id);
    assert t.(threads := s.threads) == s && t.threads.Keys == s.threads.Keys;
  }

  lemma CancelWorkerKeeps(s: Sys, id: nat)
    requires Inv(s) && s.stopping
    ensures Inv(CancelWorker(s, id))
  {
    var t := CancelWorker(s, id);
    assert t.(workers := s.workers) == s && t.workers.Keys == s.workers.Keys;
    assert forall k :: k in s.workers ==> t.workers[k].(cancelled := false) == s.workers[k].(cancelled := false);
  }

  lemma StartListenerKeeps(s: Sys)
    requires Inv(s) && s.state.listener.None? && s.core.Listen?
    ensures Inv(StartListener(s).(core := CoreIdle))
  {
  }

  lemma ListenKeeps(s: Sys, snapshot: State)
    requires Inv(s) && s.core == Listen(snapshot)
    ensures Inv(ListenStep(s, snapshot).(core := CoreIdle))
  {
    var idle := s.(core := CoreIdle);
    if ShouldListen(snapshot.machine) {
      if snapshot.listener.None? { StartListenerKeeps(s); }
    } else if snapshot.listener.Some? {
      CancelThreadKeeps(idle, snapshot.listener.value.thread);
    }
  }

  lemma CoreKeeps(s: Sys, dbOk: bool)
    requires Inv(s) && s.core != CoreIdle
    ensures Inv(CoreStep(s, dbOk))
  {
    match s.core
    case Begin(m) => BeginKeeps(s, m, dbOk);
    case Decide(snapshot) => LaunchKeeps(s, snapshot);
    case Listen(snapshot) => ListenKeeps(s, snapshot);
    case _ =>
  }

  lemma TermKeeps(s: Sys)
    requires Inv(s)
    ensures Inv(TermStep(s))
  {
    match s.term
    case TermIdle =>
    case TermBegin(m) =>
      if m == StateChanged(Terminated) && s.phase == Registered && s.state.listener.Some? {
        CancelThreadKeeps(s.(stopping := true, term := TermWait(s.state)), s.state.listener.value.thread);
      }
    case TermWait(snapshot) =>
      if snapshot.recon.Some? {
        CancelWorkerKeeps(s.(phase := Unregistered, term := TermIdle), snapshot.recon.value.worker);
      }
  }

  predicate KeptOnPath(w: Worker, r: Resources, e: Effect) {
    && OnPath(e.res, e.worker)
    && e.worker.desired == w.desired && e.worker.cancelled == w.cancelled
    && (AllReleased(r) ==> AllReleased(e.res))
    && (StateChanged(Terminated) in e.published ==> w.pc.Done? && w.pc.result == Terminated)
  }

  lemma ReleasingOnPath(w: Worker, r: Resources, o: Outcome)
    requires OnPath(r, w) && (w.pc == TerminatedInterface || w.pc.TerminatedVolume?)
    ensures KeptOnPath(w, r, Advance(w, r, o))
  {
    match w.pc
    case TerminatedInterface =>
    case TerminatedVolume(i) =>
  }

  lemma OthersOnPath(w: Worker, r: Resources, o: Outcome)
    requires OnPath(r, w) && w.pc != Published && w.pc != TerminatedInterface && !w.pc.TerminatedVolume?
    ensures KeptOnPath(w, r, Advance(w, r, o))
  {
  }

  /** A worker's step keeps it on its path and takes no mark away. */
  lemma AdvanceOnPath(w: Worker, r: Resources, o: Outcome)
    requires OnPath(r, w) && w.pc != Published
    ensures KeptOnPath(w, r, Advance(w, r, o))
  {
    if w.pc == TerminatedInterface || w.pc.TerminatedVolume? {
      ReleasingOnPath(w, r, o);
    } else {
      OthersOnPath(w, r, o);
    }
  }

  lemma WorkKeeps(s: Sys, id: nat, o: Outcome)
    requires Inv(s) && id in s.workers
    ensures Inv(WorkStep(s, id, o))
  {
    if s.workers[id].pc != Published { AdvanceOnPath(s.workers[id], s.res, o); }
  }

  lemma FinishKeeps(s: Sys, id: nat)
    requires Inv(s) && id in s.workers && s.workers[id].pc.Done?
    ensures Inv(FinishStep(s, id))
  {
  }

  lemma HearKeeps(s: Sys, id: nat, h: Hearing)
    requires Inv(s) && id in s.threads
    ensures Inv(HearStep(s, id, h))
  {
  }

  // ---------------------------------------------------------------- frames

  lemma ListenFrame(s: Sys, snapshot: State)
    ensures var t := ListenStep(s, snapshot);
            t == s.(state := t.state, threads := t.threads, nextId := t.nextId)
  {
  }

  /** The event handler touches no resource and no other handler, and at most adds one worker. */
  lemma CoreFrame(s: Sys, dbOk: bool)
    ensures var t := CoreStep(s, dbOk);
            && t.res == s.res && t.term == s.term && t.phase == s.phase && t.stopping == s.stopping
            && (t.workers == s.workers || t.workers == Launch(s).workers)
  {
    match s.core
    case Begin(m) =>
      var h := Handle(s.state, s.row, m, dbOk);
      assert CoreStep(s, dbOk) == s.(state := h.state, row := h.row, bus := s.bus + h.published, core := h.rest);
    case Listen(snapshot) => ListenFrame(s, snapshot);
    case _ =>
  }

  /** What the event handler publishes in one step. */
  function CorePublished(s: Sys, dbOk: bool): multiset<Message> {
    match s.core
    case Begin(m) => Handle(s.state, s.row, m, dbOk).published
    case PublishAssess => multiset{AssessState}
    case CheckErrors => ErrorsPublished(s.state)
    case _ => multiset{}
  }

  lemma CoreBus(s: Sys, dbOk: bool)
    ensures CoreStep(s, dbOk).bus == s.bus + CorePublished(s, dbOk)
  {
    match s.core
    case Listen(snapshot) => ListenFrame(s, snapshot);
    case _ =>
  }

  lemma CancelThreadFrame(s: Sys, id: nat)
    ensures var t := CancelThread(s, id);
            t == s.(threads := t.threads) && t.threads.Keys == s.threads.Keys
  {
  }

  lemma CancelWorkerFrame(s: Sys, id: nat)
    ensures var t := CancelWorker(s, id);
            && t == s.(workers := t.workers) && t.workers.Keys == s.workers.Keys
            && forall k :: k in s.workers ==> t.workers[k].pc == s.workers[k].pc
  {
  }

  lemma TermFrame(s: Sys)
    ensures var t := TermStep(s);
            && t == s.(term := t.term, phase := t.phase, stopping := t.stopping,
                       workers := t.workers, threads := t.threads)
            && t.workers.Keys == s.workers.Keys && t.threads.Keys == s.threads.Keys
            && forall id :: id in s.workers ==> t.workers[id].pc == s.workers[id].pc
  {
    match s.term
    case TermIdle =>
    case TermBegin(m) =>
      if s.state.listener.Some? {
        CancelThreadFrame(s.(stopping := true, term := TermWait(s.state)), s.state.listener.value.thread);
      }
    case TermWait(snapshot) =>
      if snapshot.recon.Some? {
        CancelWorkerFrame(s.(phase := Unregistered, term := TermIdle), snapshot.recon.value.worker);
      }
  }

  /** What an action publishes. */
  function Emits(s: Sys, a: Action): multiset<Message>
    requires Enabled(s, a)
  {
    match a
    case Desire(d) => multiset{DesiredStateChanged(d)}
    case Core(dbOk) => CorePublished(s, dbOk)
    case Work(id, o) =>
      if s.workers[id].pc == Published then multiset{} else Advance(s.workers[id], s.res, o).published
    case Finish(id) => Result(s.workers[id].pc.result, s.workers[id].pc.success)
    case Hear(id, h) => Heard(s.threads[id], h)
    case _ => multiset{}
  }

  /** Messages leave the bus only by being dispatched or with the process. */
  lemma ApplyBus(s: Sys, a: Action)
    requires Enabled(s, a) && !a.Pick? && !a.Restart?
    ensures Apply(s, a).bus == s.bus + Emits(s, a)
  {
    match a
    case Core(dbOk) => CoreBus(s, dbOk);
    case Term => TermFrame(s);
    case _ =>
  }

  lemma InvStep(s: Sys, a: Action)
    requires Inv(s) && Enabled(s, a)
    ensures Inv(Apply(s, a))
  {
    match a
    case Core(dbOk) => CoreKeeps(s, dbOk);
    case Term => TermKeeps(s);
    case Work(id, o) => WorkKeeps(s, id, o);
    case Finish(id) => FinishKeeps(s, id);
    case Hear(id, h) => HearKeeps(s, id, h);
    case Restart => BootInv(s.row, ReloadedResources(s.res));
    case _ =>
  }

  lemma {:induction false} InvRun(s: Sys, run: seq<Action>)
    requires Inv(s) && Legal(s, run)
    ensures Inv(Exec(s, run))
    decreases |run|
  {
    if run != [] {
      InvStep(s, run[0]);
      InvRun(Apply(s, run[0]), run[1..]);
    }
  }
}
