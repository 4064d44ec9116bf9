/**
  One machine controller as a step machine: a dispatcher, reconciliation workers, runtime listener
  threads, the database row, and the outside world. Every step is deterministic once its outcome
  (did the call succeed, what did the probe answer) is given, so a run is a sequence of actions.

  Workers and listener threads are kept in maps by identity: nothing in the steps forbids two of
  them, that there is at most one is proved.
 */
module ControllerModel {
  import opened Options
  import opened MachineTypes

  datatype Reconciliation = Reconciliation(worker: nat, desired: DesiredState)
  datatype RuntimeListener = RuntimeListener(thread: nat, errors: nat)

  /** The struct behind the controller's lock. */
  datatype State = State(
    machine: Machine,
    recon: Option<Reconciliation>,
    listener: Option<RuntimeListener>)

  /** Release mark of an interface or volume: unset, set on the object only, set and saved. */
  datatype Mark = Held | Marked | Saved

  datatype Resources = Resources(up: bool, iface: Mark, volumes: seq<Mark>)

  datatype WorkerPc =
    | PendingProbe | PendingTerminate | PendingPrepare
    | RunningAnnounce | RunningProbeError | RunningCleanup | RunningPrepare | RunningProbe | RunningStart
    | TerminatedProbe | TerminatedTerminate | TerminatedInterface | TerminatedVolume(next: nat)
    | Done(result: MachineState, success: bool)
    | Published

  /** `gone` records that the probe failed or Terminate returned nil. */
  datatype Worker = Worker(
    desired: DesiredState, snapshot: Machine, pc: WorkerPc, cancelled: bool, gone: bool)

  datatype StreamState = Closed | Open(received: bool)
  datatype ListenerThread = ListenerThread(cancelled: bool, stream: StreamState)

  /** What is left of the controller's own event handler for the event being dispatched. */
  datatype CoreTask =
    | CoreIdle
    | Begin(message: Message)
    | Decide(snapshot: State)
    | Listen(snapshot: State)
    | PublishAssess
    | ResetErrors
    | CheckErrors

  /** What is left of the service's termination handler for the event being dispatched. */
  datatype TermTask = TermIdle | TermBegin(message: Message) | TermWait(snapshot: State)

  /** Before the service subscribes, after, in the controller map, removed from it. */
  datatype Phase = Fresh | Subscribed | Registered | Unregistered

  datatype Sys = Sys(
    state: State,
    row: Machine,
    bus: multiset<Message>,
    core: CoreTask,
    term: TermTask,
    workers: map<nat, Worker>,
    threads: map<nat, ListenerThread>,
    nextId: nat,
    stopping: bool,
    crashed: bool,
    phase: Phase,
    res: Resources)

  /** Result of one resource call. A probe answers `ok`; `saved` is the database save that follows a
      release; `stillUp` says the runtime outlived a Terminate that returned nil. */
  datatype Outcome = Outcome(ok: bool, saved: bool, stillUp: bool)

  datatype Hearing = Connect | Receive(container: bool) | Disconnect | Clear

  datatype Action =
    | Desire(desired: DesiredState)
    | Pick(message: Message)
    | Core(dbOk: bool)
    | Term
    | Subscribe
    | Register
    | Work(worker: nat, outcome: Outcome)
    | Finish(worker: nat)
    | Hear(thread: nat, hearing: Hearing)
    | RuntimeDies
    | Restart

  // ---------------------------------------------------------------- event handler

  function Publish(s: Sys, m: Message): Sys {
    s.(bus := s.bus + multiset{m})
  }

  function CancelWorker(s: Sys, id: nat): Sys {
    if id in s.workers
    then s.(workers := s.workers[id := s.workers[id].(cancelled := true)])
    else s
  }

  function CancelThread(s: Sys, id: nat): Sys {
    if id in s.threads
    then s.(threads := s.threads[id := s.threads[id].(cancelled := true)])
    else s
  }

  function FirstPc(d: DesiredState): WorkerPc {
    match d
    case WantPending => PendingProbe
    case WantRunning => RunningAnnounce
    case WantTerminated => TerminatedProbe
    case WantUnknown => Done(Unknown, false)
  }

  /** `reconcile`: the guard, the new `Reconciliation` and the worker goroutine. */
  function Launch(s: Sys): Sys {
    if s.state.recon.Some? || s.stopping then s
    else
      var d := s.state.machine.desired;
      s.(state := s.state.(recon := Some(Reconciliation(s.nextId, d))),
         workers := s.workers[s.nextId := Worker(d, s.state.machine, FirstPc(d), false, false)],
         nextId := s.nextId + 1)
  }

  function StartListener(s: Sys): Sys {
    s.(state := s.state.(listener := Some(RuntimeListener(s.nextId, 0))),
       threads := s.threads[s.nextId := ListenerThread(false, Closed)],
       nextId := s.nextId + 1)
  }

  function WithState(m: Machine, st: MachineState): Machine {
    m.(state := st, terminatedAt := st == Terminated)
  }

  /** A handler's first step: new memory, new row, what it published, what it still has to do. */
  datatype Handled = Handled(state: State, row: Machine, published: multiset<Message>, rest: CoreTask)

  /** `SetState` with a save inside: a failed save leaves memory and row as they were. */
  function Handle(st: State, row: Machine, m: Message, dbOk: bool): Handled {
    match m
    case AssessState => Handled(st, row, multiset{}, Decide(st))
    case DesiredStateChanged(d) =>
      if dbOk
      then Handled(st.(machine := st.machine.(desired := d)), row.(desired := d), multiset{}, PublishAssess)
      else Handled(st, row, multiset{}, PublishAssess)
    case StateChanged(x) =>
      if dbOk
      then Handled(st.(machine := WithState(st.machine, x)), WithState(row, x), multiset{}, PublishAssess)
      else Handled(st, row, multiset{}, PublishAssess)
    case ListenerConnected =>
      Handled(st, row, if st.machine.state != Running then multiset{StateChanged(Running)} else multiset{}, ResetErrors)
    case ListenerDisconnected =>
      if st.listener.Some?
      then Handled(st.(listener := Some(WithErrors(st.listener.value, st.listener.value.errors + 1))), row,
                   multiset{}, CheckErrors)
      else Handled(st, row, multiset{}, CheckErrors)
    case ReconciliationComplete(_) => Handled(st, row, multiset{}, CoreIdle)
    case ContainerStateChanged => Handled(st, row, multiset{}, CoreIdle)
  }

  function WithErrors(l: RuntimeListener, n: nat): RuntimeListener {
    l.(errors := n)
  }

  function BeginCore(s: Sys, m: Message, dbOk: bool): Sys {
    var h := Handle(s.state, s.row, m, dbOk);
    s.(state := h.state, row := h.row, bus := s.bus + h.published, core := h.rest)
  }

  /** The listener half of an AssessState, acting on the snapshot taken when handling began. */
  function ListenStep(s: Sys, snapshot: State): Sys {
    if ShouldListen(snapshot.machine) then
      if snapshot.listener.None? then StartListener(s) else s
    else
      if snapshot.listener.Some? then CancelThread(s, snapshot.listener.value.thread) else s
  }

  /** What the third and the first failure of a streak announce. */
  function ErrorsPublished(st: State): multiset<Message> {
    if st.listener.None? then multiset{}
    else if st.listener.value.errors == 3 then multiset{StateChanged(Error)}
    else if st.listener.value.errors == 1 then multiset{StateChanged(Degraded)}
    else multiset{}
  }

  /** One step of the controller's event handler. Resetting the count of an absent listener is a nil
      dereference, which takes the process down. */
  function CoreStep(s: Sys, dbOk: bool): Sys {
    match s.core
    case CoreIdle => s
    case Begin(m) => BeginCore(s, m, dbOk)
    case Decide(snapshot) =>
      (if ShouldReconcile(snapshot.machine) then Launch(s) else s).(core := Listen(snapshot))
    case Listen(snapshot) => ListenStep(s, snapshot).(core := CoreIdle)
    case PublishAssess => Publish(s, AssessState).(core := CoreIdle)
    case ResetErrors =>
      if s.state.listener.None? then s.(crashed := true, core := CoreIdle)
      else s.(state := s.state.(listener := Some(WithErrors(s.state.listener.value, 0))), core := CoreIdle)
    case CheckErrors => s.(bus := s.bus + ErrorsPublished(s.state), core := CoreIdle)
  }

  // ---------------------------------------------------------------- termination handler

  /** `handleMachineTerminated` and `Stop`: the wait between the two halves lets other threads run. */
  function TermStep(s: Sys): Sys {
    match s.term
    case TermIdle => s
    case TermBegin(m) =>
      if m != StateChanged(Terminated) || s.phase != Registered then s.(term := TermIdle)
      else
        var stopped := s.(stopping := true, term := TermWait(s.state));
        if s.state.listener.Some? then CancelThread(stopped, s.state.listener.value.thread) else stopped
    case TermWait(snapshot) =>
      var done := s.(phase := Unregistered, term := TermIdle);
      if snapshot.recon.Some? then CancelWorker(done, snapshot.recon.value.worker) else done
  }

  // ---------------------------------------------------------------- reconciliation worker

  const FAILED := Done(Error, false)

  /** What one step of a worker does: to itself, to the resources, and on the bus. */
  datatype Effect = Effect(worker: Worker, res: Resources, published: multiset<Message>)

  function Goto(w: Worker, r: Resources, pc: WorkerPc): Effect {
    Effect(w.(pc := pc), r, multiset{})
  }

  /** A runtime was found up: announce Terminating unless the machine already is, then terminate it. */
  function FoundUp(w: Worker, r: Resources, pc: WorkerPc): Effect {
    Effect(w.(pc := pc), r,
           if w.snapshot.state != Terminating then multiset{StateChanged(Terminating)} else multiset{})
  }

  function AfterTerminate(r: Resources, o: Outcome): Resources {
    r.(up := r.up && o.stillUp)
  }

  /** Release of the interface: the object is marked before the save, and a marked one is not saved again. */
  function ReleaseInterfaceStep(w: Worker, r: Resources, o: Outcome): Effect {
    if !o.ok then Goto(w, r, FAILED)
    else if r.iface != Held then Goto(w, r, TerminatedVolume(0))
    else if o.saved then Goto(w, r.(iface := Saved), TerminatedVolume(0))
    else Goto(w, r.(iface := Marked), FAILED)
  }

  function ReleaseVolumeStep(w: Worker, r: Resources, i: nat, o: Outcome): Effect {
    if i >= |r.volumes| then Goto(w, r, Done(Terminated, true))
    else if r.volumes[i] != Held then Goto(w, r, TerminatedVolume(i + 1))
    else if !o.ok then Goto(w, r, FAILED)
    else if o.saved then Goto(w, r.(volumes := r.volumes[i := Saved]), TerminatedVolume(i + 1))
    else Goto(w, r.(volumes := r.volumes[i := Marked]), FAILED)
  }

  function Result(st: MachineState, success: bool): multiset<Message> {
    multiset{StateChanged(st), ReconciliationComplete(success)}
  }

  function Advance(w: Worker, r: Resources, o: Outcome): Effect {
    match w.pc
    case PendingProbe => if o.ok then FoundUp(w, r, PendingTerminate) else Goto(w, r, PendingPrepare)
    case PendingTerminate => if o.ok then Goto(w, AfterTerminate(r, o), PendingPrepare) else Goto(w, r, FAILED)
    case PendingPrepare => Goto(w, r, if o.ok then Done(Pending, true) else FAILED)
    case RunningAnnounce =>
      Effect(w.(pc := if w.snapshot.state == Error then RunningProbeError else RunningPrepare), r,
             if w.snapshot.state != Starting then multiset{StateChanged(Starting)} else multiset{})
    case RunningProbeError => Goto(w, r, if o.ok then RunningCleanup else RunningPrepare)
    case RunningCleanup => if o.ok then Goto(w, AfterTerminate(r, o), RunningPrepare) else Goto(w, r, FAILED)
    case RunningPrepare => Goto(w, r, if o.ok then RunningProbe else FAILED)
    case RunningProbe => Goto(w, r, if o.ok then Done(Running, true) else RunningStart)
    case RunningStart =>
      if w.cancelled || !o.ok then Goto(w, r, FAILED) else Goto(w, r.(up := true), Done(Running, true))
    case TerminatedProbe =>
      if o.ok then FoundUp(w, r, TerminatedTerminate) else Goto(w.(gone := true), r, TerminatedInterface)
    case TerminatedTerminate =>
      if o.ok then Goto(w.(gone := true), AfterTerminate(r, o), TerminatedInterface) else Goto(w, r, FAILED)
    case TerminatedInterface => ReleaseInterfaceStep(w, r, o)
    case TerminatedVolume(i) => ReleaseVolumeStep(w, r, i, o)
    case Done(st, success) => Effect(w.(pc := Published), r, Result(st, success))
    case Published => Goto(w, r, Published)
  }

  /** The deferred clear: whatever reconciliation is recorded goes, and the goroutine ends. */
  function ClearWorker(s: Sys, id: nat): Sys {
    s.(state := s.state.(recon := None), workers := s.workers - {id})
  }

  function WorkStep(s: Sys, id: nat, o: Outcome): Sys
    requires id in s.workers
  {
    if s.workers[id].pc == Published then ClearWorker(s, id)
    else
      var e := Advance(s.workers[id], s.res, o);
      s.(workers := s.workers[id := e.worker], res := e.res, bus := s.bus + e.published)
  }

  /** The final publish and the clear as one step. */
  function FinishStep(s: Sys, id: nat): Sys
    requires id in s.workers && s.workers[id].pc.Done?
  {
    ClearWorker(s.(bus := s.bus + Result(s.workers[id].pc.result, s.workers[id].pc.success)), id)
  }

  // ---------------------------------------------------------------- runtime listener

  function Heard(t: ListenerThread, h: Hearing): multiset<Message> {
    match h
    case Connect => multiset{}
    case Receive(container) =>
      (if t.stream == Open(true) then multiset{} else multiset{ListenerConnected}) +
      (if container then multiset{ContainerStateChanged} else multiset{})
    case Disconnect => multiset{ListenerDisconnected}
    case Clear => multiset{}
  }

  function StreamAfter(h: Hearing): StreamState {
    match h
    case Connect => Open(false)
    case Receive(_) => Open(true)
    case _ => Closed
  }

  function HearStep(s: Sys, id: nat, h: Hearing): Sys
    requires id in s.threads
  {
    if h == Clear then s.(state := s.state.(listener := None), threads := s.threads - {id})
    else
      s.(bus := s.bus + Heard(s.threads[id], h),
         threads := s.threads[id := s.threads[id].(stream := StreamAfter(h))])
  }

  // ---------------------------------------------------------------- start, restart

  /** `New`: a controller over a loaded row, with one AssessState published. */
  function Boot(row: Machine, res: Resources): Sys {
    Sys(State(row, None, None), row, multiset{AssessState}, CoreIdle, TermIdle, map[], map[], 0,
        false, false, Fresh, res)
  }

  function ReloadedMark(m: Mark): Mark {
    if m == Saved then Saved else Held
  }

  /** What the rows say about the resources: unsaved marks are lost. */
  function ReloadedResources(r: Resources): Resources {
    r.(iface := ReloadedMark(r.iface),
       volumes := seq(|r.volumes|, i requires 0 <= i < |r.volumes| => ReloadedMark(r.volumes[i])))
  }

  function Rebuild(s: Sys): Sys {
    Boot(s.row, ReloadedResources(s.res))
  }

  // ---------------------------------------------------------------- steps and runs

  predicate HearEnabled(t: ListenerThread, h: Hearing) {
    match h
    case Connect => t.stream == Closed
    case Receive(_) => t.stream.Open?
    case Disconnect => t.stream.Open?
    case Clear => t.stream == Closed && t.cancelled
  }

  /** A desired state is set through the controller map; the controller may have been looked up there just
      before it was removed. */
  predicate Enabled(s: Sys, a: Action) {
    if a.Restart? then s.row.state != Terminated
    else
      !s.crashed &&
      match a
      case Desire(_) => s.phase == Registered || s.phase == Unregistered
      case Pick(m) => m in s.bus && s.core == CoreIdle && s.term == TermIdle
      case Core(_) => s.core != CoreIdle
      case Term => s.term != TermIdle
      case Subscribe => s.phase == Fresh && s.core == CoreIdle && s.term == TermIdle
      case Register => s.phase == Subscribed
      case Work(id, _) => id in s.workers
      case Finish(id) => id in s.workers && s.workers[id].pc.Done?
      case Hear(id, h) => id in s.threads && HearEnabled(s.threads[id], h)
      case RuntimeDies => true
      case Restart => true
  }

  function Apply(s: Sys, a: Action): Sys
    requires Enabled(s, a)
  {
    match a
    case Desire(d) => Publish(s, DesiredStateChanged(d))
    case Pick(m) =>
      s.(bus := s.bus - multiset{m}, core := Begin(m),
         term := if s.phase == Fresh then TermIdle else TermBegin(m))
    case Core(dbOk) => CoreStep(s, dbOk)
    case Term => TermStep(s)
    case Subscribe => s.(phase := Subscribed)
    case Register => s.(phase := Registered)
    case Work(id, o) => WorkStep(s, id, o)
    case Finish(id) => FinishStep(s, id)
    case Hear(id, h) => HearStep(s, id, h)
    case RuntimeDies => s.(res := s.res.(up := false))
    case Restart => Rebuild(s)
  }

  /** Every action of the run is possible where it happens. */
  predicate Legal(s: Sys, run: seq<Action>)
    decreases |run|
  {
    run == [] || (Enabled(s, run[0]) && Legal(Apply(s, run[0]), run[1..]))
  }

  function Exec(s: Sys, run: seq<Action>): Sys
    requires Legal(s, run)
    decreases |run|
  {
    if run == [] then s else Exec(Apply(s, run[0]), run[1..])
  }

  /** A row that a controller is created over: any live machine, new or reloaded. */
  predicate LiveRow(row: Machine) {
    row.state != Terminated && !row.terminatedAt
  }
}
