/**
  The controller as the object it is: fields behind a lock, a bus, and methods that update them. Each
  method is shown to do what the corresponding steps of the machine do when nothing interleaves.
 */
module Controller {
  import opened Options
  import opened MachineTypes
  import opened ControllerModel
  import opened ControllerSafety
  import EventBus

  /** The event handler run to its end. */
  function RunCore(s: Sys, dbOk: bool): Sys
    decreases match s.core
              case CoreIdle => 0
              case Begin(_) => 3
              case Decide(_) => 2
              case _ => 1
  {
    if s.core == CoreIdle then s else RunCore(CoreStep(s, dbOk), dbOk)
  }

  /** Events received one after another; each says whether it is about a container. */
  function HearAll(s: Sys, id: nat, received: seq<bool>): (t: Sys)
    requires id in s.threads
    ensures id in t.threads
    decreases |received|
  {
    if received == [] then s
    else HearStep(HearAll(s, id, received[..|received| - 1]), id, Receive(received[|received| - 1]))
  }

  function Trues(bs: seq<bool>): nat {
    if bs == [] then 0 else Trues(bs[..|bs| - 1]) + if bs[|bs| - 1] then 1 else 0
  }

  lemma NothingPublished(b: multiset<Message>)
    ensures b + multiset{} == b
  {
  }

  lemma HearOneMore(s: Sys, id: nat, received: seq<bool>, i: nat)
    requires id in s.threads && i < |received|
    ensures HearAll(s, id, received[..i + 1]) == HearStep(HearAll(s, id, received[..i]), id, Receive(received[i]))
  {
    assert received[..i + 1][..i] == received[..i];
  }

  lemma HeardIs(t: ListenerThread, container: bool, before: multiset<Message>)
    ensures before + Heard(t, Receive(container)) ==
      before + (if t.stream == Open(true) then multiset{} else multiset{ListenerConnected}) +
      (if container then multiset{ContainerStateChanged} else multiset{})
  {
  }

  lemma HeardCounts(s: Sys, id: nat, container: bool)
    requires id in s.threads && s.threads[id].stream.Open?
    ensures var t := HearStep(s, id, Receive(container));
            && t.threads[id].stream == Open(true)
            && t.bus[ListenerConnected] ==
               s.bus[ListenerConnected] + (if s.threads[id].stream == Open(true) then 0 else 1)
            && t.bus[ContainerStateChanged] == s.bus[ContainerStateChanged] + if container then 1 else 0
  {
  }

  /** A connection publishes Connected once, with the first event received, whatever it is about, and
      passes on every container event. */
  lemma {:induction false} ConnectionPublishes(s: Sys, id: nat, received: seq<bool>)
    requires id in s.threads && s.threads[id].stream == Open(false)
    ensures var t := HearAll(s, id, received);
            && t.threads[id].stream == Open(received != [])
            && t.bus[ListenerConnected] == s.bus[ListenerConnected] + (if received == [] then 0 else 1)
            && t.bus[ContainerStateChanged] == s.bus[ContainerStateChanged] + Trues(received)
    decreases |received|
  {
    if received != [] {
      var init := received[..|received| - 1];
      ConnectionPublishes(s, id, init);
      HeardCounts(HearAll(s, id, init), id, received[|received| - 1]);
    }
  }

  /** What preparing one volume asks for: its container among the machine's, its image, its storage. */
  datatype VolumeCalls = VolumeCalls(container: nat, pullOk: bool, allocateOk: bool, alreadyAllocated: bool)

  predicate Prepared(v: VolumeCalls, containers: set<nat>) {
    v.container in containers && v.pullOk && (v.allocateOk || v.alreadyAllocated)
  }

  /** What preparing the machine asks for. */
  datatype Preparation = Preparation(setupOk: bool, volumes: seq<VolumeCalls>, containers: set<nat>)

  predicate CanPrepare(p: Preparation) {
    p.setupOk && forall i :: 0 <= i < |p.volumes| ==> Prepared(p.volumes[i], p.containers)
  }

  /** The preparation as the one call that a worker makes of it. */
  function Answer(p: Preparation): Outcome {
    Outcome(CanPrepare(p), false, false)
  }

  /** `prepareMachine`: the interface and every volume, a volume allocated before counting as well. */
  method PrepareMachine(p: Preparation) returns (ok: bool)
    ensures ok == CanPrepare(p)
    ensures ok <==> p.setupOk && forall i :: 0 <= i < |p.volumes| ==>
      && p.volumes[i].container in p.containers && p.volumes[i].pullOk
      && (p.volumes[i].allocateOk || p.volumes[i].alreadyAllocated)
  {
    ok := p.setupOk;
    for i := 0 to |p.volumes|
      invariant ok <==> p.setupOk && forall j :: 0 <= j < i ==> Prepared(p.volumes[j], p.containers)
    {
      var v := p.volumes[i];
      if v.container !in p.containers { return false; }
      ok := ok && v.pullOk && (v.allocateOk || v.alreadyAllocated);
    }
  }

  /** A worker's calls one after another, each with its answer. */
  function WorkAll(s: Sys, id: nat, os: seq<Outcome>): Sys
    decreases |os|
  {
    if os == [] then s
    else
      var t := WorkAll(s, id, os[..|os| - 1]);
      if id in t.workers then WorkStep(t, id, os[|os| - 1]) else t
  }

  lemma WorkNext(s: Sys, id: nat, os: seq<Outcome>, o: Outcome)
    ensures WorkAll(s, id, os + [o]) ==
      var t := WorkAll(s, id, os); if id in t.workers then WorkStep(t, id, o) else t
  {
    assert (os + [o])[..|os|] == os;
  }

  lemma WorkOne(s: Sys, id: nat, o: Outcome)
    requires id in s.workers
    ensures WorkAll(s, id, [o]) == WorkStep(s, id, o)
  {
    assert [o][..0] == [];
  }

  lemma WorkOneMore(s: Sys, id: nat, os: seq<Outcome>, i: nat)
    requires i < |os|
    ensures WorkAll(s, id, os[..i + 1]) ==
      var t := WorkAll(s, id, os[..i]); if id in t.workers then WorkStep(t, id, os[i]) else t
  {
    WorkNext(s, id, os[..i], os[i]);
    assert os[..i + 1] == os[..i] + [os[i]];
  }

  lemma Reassociate(a: seq<Outcome>, b: seq<Outcome>, o: Outcome)
    ensures a + (b + [o]) == a + b + [o]
  {
  }

  lemma {:induction false} WorkJoin(s: Sys, id: nat, a: seq<Outcome>, b: seq<Outcome>)
    ensures WorkAll(WorkAll(s, id, a), id, b) == WorkAll(s, id, a + b)
    decreases |b|
  {
    if b == [] {
      assert a + b == a;
    } else {
      var init, last := b[..|b| - 1], b[|b| - 1];
      WorkJoin(s, id, a, init);
      WorkNext(s, id, a + init, last);
      WorkNext(WorkAll(s, id, a), id, init, last);
      Reassociate(a, init, last);
      assert b == init + [last];
    }
  }

  /** No call of a worker touches the machine, in memory or in its row. */
  lemma {:induction false} WorkLeaves(s: Sys, id: nat, os: seq<Outcome>)
    ensures WorkAll(s, id, os).row == s.row && WorkAll(s, id, os).state.machine == s.state.machine
    decreases |os|
  {
    if os != [] { WorkLeaves(s, id, os[..|os| - 1]); }
  }

  /** The last publish, before the clear. */
  function LastPublish(s: Sys, id: nat): Sys
    requires id in s.workers && s.workers[id].pc.Done?
  {
    var w := s.workers[id];
    s.(workers := s.workers[id := w.(pc := Published)], bus := s.bus + Result(w.pc.result, w.pc.success))
  }

  lemma LastPublishIsStep(s: Sys, id: nat, o: Outcome)
    requires id in s.workers && s.workers[id].pc.Done?
    ensures WorkStep(s, id, o) == LastPublish(s, id)
  {
  }

  lemma ClearIsStep(s: Sys, id: nat, o: Outcome)
    requires id in s.workers && s.workers[id].pc.Done?
    ensures WorkStep(LastPublish(s, id), id, o) == FinishStep(s, id)
  {
    assert LastPublish(s, id).workers - {id} == s.workers - {id};
  }

  lemma FinishIsTwoSteps(s: Sys, id: nat)
    requires id in s.workers && s.workers[id].pc.Done?
    ensures WorkAll(s, id, [NO_CALL, NO_CALL]) == FinishStep(s, id)
  {
    WorkOne(s, id, NO_CALL);
    WorkNext(s, id, [NO_CALL], NO_CALL);
    assert [NO_CALL] + [NO_CALL] == [NO_CALL, NO_CALL];
    LastPublishIsStep(s, id, NO_CALL);
    ClearIsStep(s, id, NO_CALL);
  }

  lemma ResultIs(b: multiset<Message>, st: MachineState, success: bool)
    ensures b + multiset{StateChanged(st)} + multiset{ReconciliationComplete(success)} == b + Result(st, success)
  {
  }

  /** The answers that a worker's calls would get: its first probe and the termination after it, the
      preparation, the probe before a start and the start, the release of the interface and of each volume. */
  datatype Calls = Calls(probe: Outcome, terminate: Outcome, prepare: Preparation, again: Outcome, start: Outcome,
                         iface: Outcome, volumes: seq<Outcome>)

  // The calls a worker makes, given the answers it gets; a step that calls nothing has NO_CALL.
  const NO_CALL := Outcome(false, false, false)

  function PendingCalls(probe: Outcome, terminate: Outcome, prepare: Outcome): seq<Outcome> {
    EndCalls(probe, terminate) + if probe.ok && !terminate.ok then [] else [prepare]
  }

  function CleanUpCalls(state: MachineState, probe: Outcome, terminate: Outcome): seq<Outcome> {
    if state != Error then [NO_CALL] else if probe.ok then [NO_CALL, probe, terminate] else [NO_CALL, probe]
  }

  function StartCalls(prepare: Outcome, probe: Outcome, start: Outcome): seq<Outcome> {
    if !prepare.ok then [prepare] else if probe.ok then [prepare, probe] else [prepare, probe, start]
  }

  function RunningCalls(state: MachineState, clean: Outcome, terminate: Outcome, prepare: Outcome,
                        probe: Outcome, start: Outcome): seq<Outcome>
  {
    CleanUpCalls(state, clean, terminate) +
    if state == Error && clean.ok && !terminate.ok then [] else StartCalls(prepare, probe, start)
  }

  function EndCalls(probe: Outcome, terminate: Outcome): seq<Outcome> {
    if probe.ok then [probe, terminate] else [probe]
  }

  /** The volumes' calls end with the first failure. */
  function ReleaseCalls(iface: Outcome, volumes: seq<Outcome>, ok: bool): seq<Outcome> {
    [iface] + volumes + if ok then [NO_CALL] else []
  }

  function TerminatedCalls(probe: Outcome, terminate: Outcome, iface: Outcome, volumes: seq<Outcome>, ok: bool)
    : seq<Outcome>
  {
    EndCalls(probe, terminate) + if probe.ok && !terminate.ok then [] else ReleaseCalls(iface, volumes, ok)
  }

  function TerminatingIf(probe: Outcome, w: Worker): multiset<Message> {
    if probe.ok && w.snapshot.state != Terminating then multiset{StateChanged(Terminating)} else multiset{}
  }

  function StartingIf(w: Worker): multiset<Message> {
    if w.snapshot.state != Starting then multiset{StateChanged(Starting)} else multiset{}
  }

  /** The interface and every volume are released already or can be now. */
  predicate AllReleasable(r: Resources, iface: Outcome, os: seq<Outcome>)
    requires |os| >= |r.volumes|
  {
    iface.ok && (r.iface != Held || iface.saved) &&
    forall j :: 0 <= j < |r.volumes| ==> Releasable(r.volumes[j], os[j])
  }

  /** A volume's release succeeds: it is marked already, or its removal and its save succeed. */
  predicate Releasable(mark: Mark, o: Outcome) {
    mark != Held || (o.ok && o.saved)
  }

  class MachineController {
    var state: State
    var row: Machine
    const bus: EventBus.Bus<Message>
    var workers: map<nat, Worker>
    var threads: map<nat, ListenerThread>
    var nextId: nat
    var stopping: bool
    var crashed: bool
    var phase: Phase
    var res: Resources

    ghost function View(): Sys
      reads this, bus
    {
      Sys(state, row, bus.pending, CoreIdle, TermIdle, workers, threads, nextId, stopping, crashed, phase, res)
    }

    constructor (machine: Machine, resources: Resources)
      ensures View() == Boot(machine, resources) && fresh(bus)
      ensures state == State(machine, None, None) && row == machine && res == resources
      ensures bus.pending == multiset{AssessState} && workers == map[] && threads == map[]
      ensures phase == Fresh && !stopping && !crashed
    {
      state := State(machine, None, None);
      row, workers, threads, nextId := machine, map[], map[], 0;
      stopping, crashed, phase, res := false, false, Fresh, resources;
      bus := new EventBus.Bus();
      new;
      bus.PublishEvent(AssessState);
    }

    /** The service's handlers are added once `New` has returned, and then the controller is in its map. */
    method Subscribe()
      requires phase == Fresh
      modifies this
      ensures View() == old(View()).(phase := Subscribed)
    {
      phase := Subscribed;
    }

    method Register()
      requires phase == Subscribed
      modifies this
      ensures View() == old(View()).(phase := Registered)
    {
      phase := Registered;
    }

    method SetDesiredState(d: DesiredState)
      modifies bus
      ensures View() == Publish(old(View()), DesiredStateChanged(d))
      ensures bus.pending == old(bus.pending) + multiset{DesiredStateChanged(d)}
    {
      bus.PublishEvent(DesiredStateChanged(d));
    }

    /** `reconcile`: skipped while a reconciliation is recorded or the controller is stopping. */
    method Reconcile()
      modifies this
      ensures View() == Launch(old(View()))
      ensures old(state).recon.Some? || old(stopping) ==> state == old(state) && workers == old(workers)
      ensures old(state).recon.None? && !old(stopping) ==>
        && state == old(state).(recon := Some(Reconciliation(old(nextId), old(state).machine.desired)))
        && old(nextId) in workers && workers - {old(nextId)} == old(workers) - {old(nextId)}
        && workers[old(nextId)].desired == old(state).machine.desired
        && workers[old(nextId)].snapshot == old(state).machine && !workers[old(nextId)].cancelled
    {
      if state.recon.Some? || stopping { return; }
      var desired := state.machine.desired;
      state := state.(recon := Some(Reconciliation(nextId, desired)));
      workers := workers[nextId := Worker(desired, state.machine, FirstPc(desired), false, false)];
      nextId := nextId + 1;
    }

    method StartRuntimeListener()
      modifies this
      ensures View() == StartListener(old(View()))
      ensures state == old(state).(listener := Some(RuntimeListener(old(nextId), 0)))
      ensures threads == old(threads)[old(nextId) := ListenerThread(false, Closed)]
    {
      state := state.(listener := Some(RuntimeListener(nextId, 0)));
      threads := threads[nextId := ListenerThread(false, Closed)];
      nextId := nextId + 1;
    }

    method CancelListener(id: nat)
      modifies this
      ensures View() == CancelThread(old(View()), id)
      ensures id in old(threads) ==> threads == old(threads)[id := ListenerThread(true, old(threads)[id].stream)]
    {
      if id in threads { threads := threads[id := threads[id].(cancelled := true)]; }
    }

    method CancelReconciliation(id: nat)
      modifies this
      ensures View() == CancelWorker(old(View()), id)
      ensures id in old(workers) ==> id in workers && workers[id] == old(workers)[id].(cancelled := true)
    {
      if id in workers { workers := workers[id := workers[id].(cancelled := true)]; }
    }

    method AssessNow()
      modifies this
      ensures View() == RunCore(old(View()).(core := Begin(AssessState)), true)
      ensures state.machine == old(state).machine && row == old(row) && bus.pending == old(bus.pending)
      ensures state.recon ==
        if old(state).recon.None? && !old(stopping) &&
          ((old(state).machine.desired == WantPending && old(state).machine.state != Pending) ||
           (old(state).machine.desired == WantRunning && old(state).machine.state != Running &&
            old(state).machine.state != Degraded) ||
           (old(state).machine.desired == WantTerminated && old(state).machine.state != Terminated))
        then Some(Reconciliation(old(nextId), old(state).machine.desired)) else old(state).recon
      ensures old(state).listener.None? ==>
        (state.listener.Some? <==> old(state).machine.state == Running || old(state).machine.state == Degraded)
      ensures old(state).listener.Some? ==> state.listener == old(state).listener
      ensures old(state).listener.Some? && old(state).listener.value.thread in old(threads) ==>
        var t := old(state).listener.value.thread;
        && t in threads
        && threads[t].cancelled ==
           (old(threads)[t].cancelled ||
            (old(state).machine.state != Running && old(state).machine.state != Degraded))
    {
      ghost var s := View();
      var snapshot := state;
      if ShouldReconcile(snapshot.machine) { Reconcile(); }
      ghost var launched := View();
      if ShouldListen(snapshot.machine) {
        if snapshot.listener.None? { StartRuntimeListener(); }
      } else if snapshot.listener.Some? {
        CancelListener(snapshot.listener.value.thread);
      }
      AssessRun(s, launched);
    }

    method SaveDesired(d: DesiredState, dbOk: bool)
      modifies this, bus
      ensures View() == RunCore(old(View()).(core := Begin(DesiredStateChanged(d))), dbOk)
      ensures bus.pending == old(bus.pending) + multiset{AssessState}
      ensures row == if dbOk then Machine(old(row).state, d, old(row).terminatedAt) else old(row)
      ensures state == old(state).(machine :=
        if dbOk then Machine(old(state).machine.state, d, old(state).machine.terminatedAt) else old(state).machine)
    {
      ghost var s := View();
      if dbOk {
        state := state.(machine := state.machine.(desired := d));
        row := row.(desired := d);
      }
      bus.PublishEvent(AssessState);
      SaveRun(s, DesiredStateChanged(d), dbOk);
    }

    method SaveState(st: MachineState, dbOk: bool)
      modifies this, bus
      ensures View() == RunCore(old(View()).(core := Begin(StateChanged(st))), dbOk)
      ensures bus.pending == old(bus.pending) + multiset{AssessState}
      ensures row == if dbOk then Machine(st, old(row).desired, st == Terminated) else old(row)
      ensures state == old(state).(machine :=
        if dbOk then Machine(st, old(state).machine.desired, st == Terminated) else old(state).machine)
    {
      ghost var s := View();
      if dbOk {
        state := state.(machine := WithState(state.machine, st));
        row := WithState(row, st);
      }
      bus.PublishEvent(AssessState);
      SaveRun(s, StateChanged(st), dbOk);
    }

    method ListenerIsConnected()
      modifies this, bus
      ensures View() == RunCore(old(View()).(core := Begin(ListenerConnected)), true)
      ensures bus.pending == old(bus.pending) +
        if old(state).machine.state != Running then multiset{StateChanged(Running)} else multiset{}
      ensures crashed == (old(crashed) || old(state).listener.None?)
      ensures old(state).listener.Some? ==>
        state == old(state).(listener := Some(RuntimeListener(old(state).listener.value.thread, 0)))
    {
      ConnectedRun(View());
      NothingPublished(bus.pending);
      if state.machine.state != Running { bus.PublishEvent(StateChanged(Running)); }
      if state.listener.None? { crashed := true; }
      else { state := state.(listener := Some(WithErrors(state.listener.value, 0))); }
    }

    method CountFailure()
      modifies this
      ensures View() == old(View()).(state := Counted(old(state)))
      ensures state == if old(state).listener.None? then old(state)
        else old(state).(listener :=
          Some(RuntimeListener(old(state).listener.value.thread, old(state).listener.value.errors + 1)))
    {
      if state.listener.Some? {
        state := state.(listener := Some(WithErrors(state.listener.value, state.listener.value.errors + 1)));
      }
    }

    method ListenerIsDisconnected()
      modifies this, bus
      ensures View() == RunCore(old(View()).(core := Begin(ListenerDisconnected)), true)
      ensures old(state).listener.None? ==> state == old(state) && bus.pending == old(bus.pending)
      ensures old(state).listener.Some? ==>
        var l := old(state).listener.value;
        && state == old(state).(listener := Some(RuntimeListener(l.thread, l.errors + 1)))
        && bus.pending == old(bus.pending) +
             if l.errors == 2 then multiset{StateChanged(Error)}
             else if l.errors == 0 then multiset{StateChanged(Degraded)} else multiset{}
    {
      DisconnectedRun(View());
      NothingPublished(bus.pending);
      CountFailure();
      if state.listener.None? { return; }
      if state.listener.value.errors == 3 { bus.PublishEvent(StateChanged(Error)); }
      else if state.listener.value.errors == 1 { bus.PublishEvent(StateChanged(Degraded)); }
    }

    /** The controller's handler for one dispatched event. */
    method EventHandler(event: Message, dbOk: bool)
      modifies this, bus
      ensures event.DesiredStateChanged? || event.StateChanged? ==>
        View() == RunCore(old(View()).(core := Begin(event)), dbOk)
      ensures !event.DesiredStateChanged? && !event.StateChanged? ==>
        View() == RunCore(old(View()).(core := Begin(event)), true)
    {
      match event
      case AssessState => AssessNow();
      case DesiredStateChanged(d) => SaveDesired(d, dbOk);
      case StateChanged(st) => SaveState(st, dbOk);
      case ListenerConnected => ListenerIsConnected();
      case ListenerDisconnected => ListenerIsDisconnected();
      case ReconciliationComplete(success) => InertRun(View(), event);
      case ContainerStateChanged => InertRun(View(), event);
    }

    // Each call a worker makes is one of its steps; `Move` is the worker's own place in its code.
    method Move(id: nat, pc: WorkerPc)
      requires id in workers
      modifies this
      ensures View() == old(View()).(workers := old(workers)[id := old(workers)[id].(pc := pc)])
    {
      workers := workers[id := workers[id].(pc := pc)];
    }

    method Announce(id: nat, o: Outcome)
      requires id in workers && workers[id].pc == RunningAnnounce
      modifies this, bus
      ensures View() == WorkStep(old(View()), id, o)
      ensures id in workers && workers[id] ==
        old(workers)[id].(pc := if old(workers)[id].snapshot.state == Error then RunningProbeError else RunningPrepare)
      ensures bus.pending == old(bus.pending) +
        (if old(workers)[id].snapshot.state != Starting then multiset{StateChanged(Starting)} else multiset{})
    {
      if workers[id].snapshot.state != Starting { bus.PublishEvent(StateChanged(Starting)); }
      Move(id, if workers[id].snapshot.state == Error then RunningProbeError else RunningPrepare);
    }

    /** The probe before a terminate: a runtime found up is announced as terminating. */
    method ProbeToTerminate(id: nat, o: Outcome) returns (up: bool)
      requires id in workers && (workers[id].pc == PendingProbe || workers[id].pc == TerminatedProbe)
      modifies this, bus
      ensures View() == WorkStep(old(View()), id, o) && up == o.ok
      ensures bus.pending == old(bus.pending) +
        if up && old(workers)[id].snapshot.state != Terminating then multiset{StateChanged(Terminating)} else multiset{}
    {
      NothingPublished(bus.pending);
      up := o.ok;
      var w := workers[id];
      if up {
        if w.snapshot.state != Terminating { bus.PublishEvent(StateChanged(Terminating)); }
        Move(id, if w.pc == PendingProbe then PendingTerminate else TerminatedTerminate);
      } else {
        workers := workers[id := w.(pc := if w.pc == PendingProbe then PendingPrepare else TerminatedInterface,
                                    gone := w.gone || w.pc == TerminatedProbe)];
      }
    }

    method TerminateRuntime(id: nat, o: Outcome) returns (ok: bool)
      requires id in workers && workers[id].pc == TerminatedTerminate
      modifies this
      ensures View() == WorkStep(old(View()), id, o) && ok == o.ok
    {
      ok := o.ok;
      if ok {
        res := res.(up := res.up && o.stillUp);
        workers := workers[id := workers[id].(gone := true)];
      }
      Move(id, if ok then TerminatedInterface else FAILED);
    }

    method StartRuntime(id: nat, o: Outcome) returns (ok: bool)
      requires id in workers && workers[id].pc == RunningStart
      modifies this
      ensures View() == WorkStep(old(View()), id, o) && ok == (o.ok && !old(workers)[id].cancelled)
      ensures id in workers && workers[id].pc == (if ok then Done(Running, true) else FAILED) && (ok ==> res.up)
    {
      ok := o.ok && !workers[id].cancelled;
      if ok { res := res.(up := true); }
      Move(id, if ok then Done(Running, true) else FAILED);
    }

    /** The network provider's release, on the mark: marked before it is saved, never saved twice. */
    method ReleaseInterface(id: nat, o: Outcome) returns (ok: bool)
      requires id in workers && workers[id].pc == TerminatedInterface
      modifies this
      ensures View() == WorkStep(old(View()), id, o)
      ensures ok <==> o.ok && (old(res).iface != Held || o.saved)
      ensures workers[id].pc == if ok then TerminatedVolume(0) else FAILED
      ensures workers[id].gone == old(workers)[id].gone
      ensures res.volumes == old(res.volumes) && (ok ==> res.iface != Held)
      ensures res.iface ==
        if old(res).iface == Held && o.ok then (if o.saved then Saved else Marked) else old(res).iface
    {
      ok := o.ok;
      if ok && res.iface == Held {
        res := res.(iface := if o.saved then Saved else Marked);
        ok := o.saved;
      }
      Move(id, if ok then TerminatedVolume(0) else FAILED);
    }

    /** The volume provider's release: a marked volume is released already. */
    method ReleaseVolume(id: nat, i: nat, o: Outcome) returns (ok: bool)
      requires id in workers && workers[id].pc == TerminatedVolume(i) && i < |res.volumes|
      modifies this
      ensures View() == WorkStep(old(View()), id, o)
      ensures ok <==> old(res).volumes[i] != Held || (o.ok && o.saved)
      ensures res.volumes[i] ==
        if old(res).volumes[i] == Held && o.ok then (if o.saved then Saved else Marked) else old(res).volumes[i]
      ensures workers[id].pc == if ok then TerminatedVolume(i + 1) else FAILED
      ensures workers[id].gone == old(workers)[id].gone
      ensures |res.volumes| == old(|res.volumes|) && res.iface == old(res.iface)
      ensures forall j :: 0 <= j < |res.volumes| && j != i ==> res.volumes[j] == old(res).volumes[j]
      ensures ok ==> res.volumes[i] != Held
    {
      ok := true;
      if res.volumes[i] == Held {
        if o.ok { res := res.(volumes := res.volumes[i := if o.saved then Saved else Marked]); }
        ok := o.ok && o.saved;
      }
      Move(id, if ok then TerminatedVolume(i + 1) else FAILED);
    }

    /** Every volume in order, up to the first failure; `n` calls are made. */
    method ReleaseVolumes(id: nat, os: seq<Outcome>) returns (ok: bool, ghost n: nat)
      requires id in workers && workers[id].pc == TerminatedVolume(0) && |os| >= |res.volumes|
      modifies this
      ensures n <= |os| && View() == WorkAll(old(View()), id, os[..n])
      ensures id in workers && workers[id].gone == old(workers)[id].gone
      ensures |res.volumes| == old(|res.volumes|) && res.iface == old(res.iface)
      ensures workers[id].pc == if ok then TerminatedVolume(|res.volumes|) else FAILED
      ensures ok ==> VolumesReleased(res, |res.volumes|)
      ensures ok <==> forall j :: 0 <= j < |res.volumes| ==> Releasable(old(res).volumes[j], os[j])
    {
      ghost var before, start := res.volumes, View();
      var i := 0;
      ok := true;
      while ok && i < |res.volumes|
        invariant 0 <= i <= |res.volumes| == |before| && id in workers && res.iface == old(res.iface)
        invariant View() == WorkAll(start, id, os[..i])
        invariant workers[id].gone == old(workers)[id].gone
        invariant workers[id].pc == if ok then TerminatedVolume(i) else FAILED
        invariant ok ==> VolumesReleased(res, i)
        invariant forall j :: i <= j < |before| ==> res.volumes[j] == before[j]
        invariant ok <==> forall j :: 0 <= j < i ==> Releasable(before[j], os[j])
      {
        WorkOneMore(start, id, os, i);
        ok := ReleaseVolume(id, i, os[i]);
        i := i + 1;
      }
      n := i;
    }

    /** The interface, then the volumes. */
    method ReleaseAll(id: nat, iface: Outcome, os: seq<Outcome>) returns (ok: bool, ghost n: nat)
      requires id in workers && workers[id].pc == TerminatedInterface && |os| >= |res.volumes|
      modifies this
      ensures n <= |os| && View() == WorkAll(old(View()), id, [iface] + os[..n])
      ensures id in workers && workers[id].gone == old(workers)[id].gone && |res.volumes| == old(|res.volumes|)
      ensures workers[id].pc == if ok then TerminatedVolume(|res.volumes|) else FAILED
      ensures ok ==> AllReleased(res)
      ensures ok <==> AllReleasable(old(res), iface, os)
    {
      ghost var start := View();
      WorkOne(start, id, iface);
      ok := ReleaseInterface(id, iface);
      n := 0;
      if ok { ok, n := ReleaseVolumes(id, os); }
      WorkJoin(start, id, [iface], os[..n]);
    }

    /** After the last volume there is nothing left to call. */
    method Conclude(id: nat)
      requires id in workers && workers[id].pc == TerminatedVolume(|res.volumes|)
      modifies this
      ensures View() == WorkStep(old(View()), id, NO_CALL) && res == old(res)
      ensures id in workers && workers[id] == old(workers)[id].(pc := Done(Terminated, true))
    {
      NothingPublished(bus.pending);
      Move(id, Done(Terminated, true));
    }

    /** Probe and terminate what is up. */
    method EndRuntime(id: nat, probe: Outcome, terminate: Outcome) returns (ok: bool)
      requires id in workers && workers[id].pc == TerminatedProbe
      modifies this, bus
      ensures View() == WorkAll(old(View()), id, EndCalls(probe, terminate))
      ensures ok <==> (probe.ok ==> terminate.ok)
      ensures id in workers && workers[id].pc == if ok then TerminatedInterface else FAILED
      ensures ok ==> workers[id].gone
      ensures res.volumes == old(res.volumes) && res.iface == old(res.iface)
      ensures bus.pending == old(bus.pending) + TerminatingIf(probe, old(workers)[id])
    {
      ghost var start := View();
      WorkOne(start, id, probe);
      ok := true;
      var up := ProbeToTerminate(id, probe);
      if up {
        WorkOne(View(), id, terminate);
        ok := TerminateRuntime(id, terminate);
      }
      WorkJoin(start, id, [probe], if probe.ok then [terminate] else []);
      assert [probe] + [] == [probe] && [probe] + [terminate] == [probe, terminate];
    }

    /** Release everything, and be done. */
    method ReleaseAndConclude(id: nat, iface: Outcome, os: seq<Outcome>) returns (ok: bool, ghost n: nat)
      requires id in workers && workers[id].pc == TerminatedInterface && |os| >= |res.volumes|
      modifies this
      ensures n <= |os| && View() == WorkAll(old(View()), id, ReleaseCalls(iface, os[..n], ok))
      ensures ok <==> AllReleasable(old(res), iface, os)
      ensures id in workers && workers[id].gone == old(workers)[id].gone
      ensures workers[id].pc == (if ok then Done(Terminated, true) else FAILED) && (ok ==> AllReleased(res))
    {
      ghost var start := View();
      ok, n := ReleaseAll(id, iface, os);
      if ok {
        WorkNext(start, id, [iface] + os[..n], NO_CALL);
        Conclude(id);
      } else {
        assert ReleaseCalls(iface, os[..n], ok) == [iface] + os[..n];
      }
    }

    /** Probe, terminate what is up, release everything. */
    method ReconcileToTerminated(id: nat, probe: Outcome, terminate: Outcome, iface: Outcome, os: seq<Outcome>)
      returns (success: bool, ghost n: nat)
      requires id in workers && workers[id].pc == TerminatedProbe && |os| >= |res.volumes|
      modifies this, bus
      ensures n <= |os|
      ensures View() == WorkAll(old(View()), id, TerminatedCalls(probe, terminate, iface, os[..n], success))
      ensures success <==> (probe.ok ==> terminate.ok) && AllReleasable(old(res), iface, os)
      ensures id in workers && workers[id].pc == if success then Done(Terminated, true) else FAILED
      ensures success ==> workers[id].gone && AllReleased(res)
      ensures bus.pending == old(bus.pending) + TerminatingIf(probe, old(workers)[id])
    {
      ghost var start, ending := View(), EndCalls(probe, terminate);
      n := 0;
      success := EndRuntime(id, probe, terminate);
      if !success { return; }
      success, n := ReleaseAndConclude(id, iface, os);
      WorkJoin(start, id, ending, ReleaseCalls(iface, os[..n], success));
    }

    /** The two terminations after which the machine is prepared again. */
    method TerminateToPrepare(id: nat, o: Outcome) returns (ok: bool)
      requires id in workers && (workers[id].pc == PendingTerminate || workers[id].pc == RunningCleanup)
      modifies this
      ensures View() == WorkStep(old(View()), id, o) && ok == o.ok
      ensures id in workers && workers[id] == old(workers)[id].(pc :=
        if !ok then FAILED else if old(workers)[id].pc == PendingTerminate then PendingPrepare else RunningPrepare)
      ensures ok && !o.stillUp ==> !res.up
    {
      ok := o.ok;
      if ok { res := res.(up := res.up && o.stillUp); }
      Move(id, if !ok then FAILED else if workers[id].pc == PendingTerminate then PendingPrepare else RunningPrepare);
    }

    method Prepare(id: nat, p: Preparation) returns (ok: bool)
      requires id in workers && (workers[id].pc == PendingPrepare || workers[id].pc == RunningPrepare)
      modifies this
      ensures View() == WorkStep(old(View()), id, Answer(p)) && ok == CanPrepare(p) && res == old(res)
      ensures id in workers && workers[id] == old(workers)[id].(pc :=
        if !ok then FAILED else if old(workers)[id].pc == PendingPrepare then Done(Pending, true) else RunningProbe)
    {
      ok := PrepareMachine(p);
      Move(id, if !ok then FAILED else if workers[id].pc == PendingPrepare then Done(Pending, true) else RunningProbe);
    }

    /** The probes of the way to Running: before the clean-up of an error, and before the start. */
    method ProbeToRun(id: nat, o: Outcome) returns (up: bool)
      requires id in workers && (workers[id].pc == RunningProbeError || workers[id].pc == RunningProbe)
      modifies this
      ensures View() == WorkStep(old(View()), id, o) && up == o.ok && res == old(res)
      ensures id in workers && workers[id] == old(workers)[id].(pc :=
        if old(workers)[id].pc == RunningProbeError then (if up then RunningCleanup else RunningPrepare)
        else if up then Done(Running, true) else RunningStart)
    {
      up := o.ok;
      Move(id, if workers[id].pc == RunningProbeError then (if up then RunningCleanup else RunningPrepare)
               else if up then Done(Running, true) else RunningStart);
    }

    /** Probe and terminate what is up, on the way to Pending. */
    method ClearRuntime(id: nat, probe: Outcome, terminate: Outcome) returns (ok: bool)
      requires id in workers && workers[id].pc == PendingProbe
      modifies this, bus
      ensures View() == WorkAll(old(View()), id, EndCalls(probe, terminate))
      ensures ok <==> (probe.ok ==> terminate.ok)
      ensures id in workers && workers[id].pc == if ok then PendingPrepare else FAILED
      ensures ok && probe.ok && !terminate.stillUp ==> !res.up
      ensures bus.pending == old(bus.pending) + TerminatingIf(probe, old(workers)[id])
    {
      ghost var start := View();
      WorkOne(start, id, probe);
      ok := true;
      var up := ProbeToTerminate(id, probe);
      if up {
        WorkOne(View(), id, terminate);
        ok := TerminateToPrepare(id, terminate);
      }
      WorkJoin(start, id, [probe], if probe.ok then [terminate] else []);
      assert [probe] + [] == [probe] && [probe] + [terminate] == [probe, terminate];
    }

    /** Terminate what is up, then prepare. */
    method ReconcileToPending(id: nat, probe: Outcome, terminate: Outcome, p: Preparation) returns (success: bool)
      requires id in workers && workers[id].pc == PendingProbe
      modifies this, bus
      ensures View() == WorkAll(old(View()), id, PendingCalls(probe, terminate, Answer(p)))
      ensures success <==> (probe.ok ==> terminate.ok) && CanPrepare(p)
      ensures id in workers && workers[id].pc == if success then Done(Pending, true) else FAILED
      ensures success && probe.ok && !terminate.stillUp ==> !res.up
      ensures bus.pending == old(bus.pending) + TerminatingIf(probe, old(workers)[id])
    {
      ghost var start, ending := View(), EndCalls(probe, terminate);
      success := ClearRuntime(id, probe, terminate);
      if !success {
        assert ending + [] == ending;
        return;
      }
      WorkNext(start, id, ending, Answer(p));
      success := Prepare(id, p);
    }

    /** The first half of the way to Running: announce, and clean up what an error left running. */
    method CleanUp(id: nat, probe: Outcome, terminate: Outcome) returns (ok: bool)
      requires id in workers && workers[id].pc == RunningAnnounce
      modifies this, bus
      ensures View() == WorkAll(old(View()), id, CleanUpCalls(old(workers)[id].snapshot.state, probe, terminate))
      ensures ok <==> (old(workers)[id].snapshot.state == Error && probe.ok ==> terminate.ok)
      ensures id in workers && workers[id] == old(workers)[id].(pc := if ok then RunningPrepare else FAILED)
      ensures bus.pending == old(bus.pending) + StartingIf(old(workers)[id])
    {
      ghost var start, calls := View(), [NO_CALL];
      WorkOne(start, id, NO_CALL);
      ok := true;
      Announce(id, NO_CALL);
      if workers[id].pc == RunningProbeError {
        WorkNext(start, id, calls, probe);
        var up := ProbeToRun(id, probe);
        calls := calls + [probe];
        if up {
          WorkNext(start, id, calls, terminate);
          ok := TerminateToPrepare(id, terminate);
          calls := calls + [terminate];
        }
      }
      assert calls == CleanUpCalls(old(workers)[id].snapshot.state, probe, terminate);
    }

    /** The second half: prepare, and start what is not up; a cancelled worker starts nothing. */
    method PrepareAndStart(id: nat, p: Preparation, probe: Outcome, start: Outcome) returns (ok: bool)
      requires id in workers && workers[id].pc == RunningPrepare
      modifies this
      ensures View() == WorkAll(old(View()), id, StartCalls(Answer(p), probe, start))
      ensures ok <==> CanPrepare(p) && (probe.ok || (start.ok && !old(workers)[id].cancelled))
      ensures id in workers && workers[id].pc == if ok then Done(Running, true) else FAILED
      ensures ok && !probe.ok ==> res.up
    {
      ghost var begun, calls := View(), [Answer(p)];
      WorkOne(begun, id, Answer(p));
      ok := Prepare(id, p);
      if !ok { return; }
      WorkNext(begun, id, calls, probe);
      var up := ProbeToRun(id, probe);
      calls := calls + [probe];
      if !up {
        WorkNext(begun, id, calls, start);
        ok := StartRuntime(id, start);
        calls := calls + [start];
      }
      assert calls == StartCalls(Answer(p), probe, start);
    }

    /** The two halves; the calls made are those of `RunningCalls`. */
    method ReconcileToRunning(id: nat, clean: Outcome, terminate: Outcome, p: Preparation,
                              probe: Outcome, start: Outcome)
      returns (success: bool)
      requires id in workers && workers[id].pc == RunningAnnounce
      modifies this, bus
      ensures View() == WorkAll(old(View()), id,
        RunningCalls(old(workers)[id].snapshot.state, clean, terminate, Answer(p), probe, start))
      ensures success <==> (old(workers)[id].snapshot.state == Error && clean.ok ==> terminate.ok) && CanPrepare(p) &&
                           (probe.ok || (start.ok && !old(workers)[id].cancelled))
      ensures id in workers && workers[id].pc == if success then Done(Running, true) else FAILED
      ensures success && !probe.ok ==> res.up
      ensures bus.pending == old(bus.pending) + StartingIf(old(workers)[id])
    {
      ghost var begun, calls := View(), CleanUpCalls(workers[id].snapshot.state, clean, terminate);
      success := CleanUp(id, clean, terminate);
      if success {
        success := PrepareAndStart(id, p, probe, start);
        WorkJoin(begun, id, calls, StartCalls(Answer(p), probe, start));
      } else {
        assert calls + [] == calls;
      }
    }

    /** The end of a worker: its result is published and its reconciliation cleared, in two steps of the machine
        that are its one finishing step when nothing comes between them. */
    method Finish(id: nat)
      requires id in workers && workers[id].pc.Done?
      modifies this, bus
      ensures View() == WorkAll(old(View()), id, [NO_CALL, NO_CALL]) == FinishStep(old(View()), id)
      ensures bus.pending == old(bus.pending) + multiset{StateChanged(old(workers)[id].pc.result)} +
        multiset{ReconciliationComplete(old(workers)[id].pc.success)}
      ensures state == old(state).(recon := None) && workers == old(workers) - {id}
    {
      FinishIsTwoSteps(View(), id);
      ResultIs(bus.pending, workers[id].pc.result, workers[id].pc.success);
      bus.PublishEvent(StateChanged(workers[id].pc.result));
      bus.PublishEvent(ReconciliationComplete(workers[id].pc.success));
      state := state.(recon := None);
      workers := workers - {id};
    }

    // A worker's whole way, for each desired state: its calls, then the result and the clear.
    method RunToPending(id: nat, c: Calls)
      requires id in workers && workers[id].pc == PendingProbe
      modifies this, bus
      ensures id !in workers && state.recon == None && state.machine == old(state).machine && row == old(row)
      ensures var ok := (c.probe.ok ==> c.terminate.ok) && CanPrepare(c.prepare);
        bus.pending == old(bus.pending) + TerminatingIf(c.probe, old(workers)[id]) +
          multiset{StateChanged(if ok then Pending else Error)} + multiset{ReconciliationComplete(ok)}
    {
      WorkLeaves(View(), id, PendingCalls(c.probe, c.terminate, Answer(c.prepare)));
      var success := ReconcileToPending(id, c.probe, c.terminate, c.prepare);
      Finish(id);
    }

    method RunToRunning(id: nat, c: Calls)
      requires id in workers && workers[id].pc == RunningAnnounce
      modifies this, bus
      ensures id !in workers && state.recon == None && state.machine == old(state).machine && row == old(row)
      ensures
        var w := old(workers)[id];
        var ok := (w.snapshot.state == Error && c.probe.ok ==> c.terminate.ok) && CanPrepare(c.prepare) &&
                  (c.again.ok || (c.start.ok && !w.cancelled));
        bus.pending == old(bus.pending) + StartingIf(w) +
          multiset{StateChanged(if ok then Running else Error)} + multiset{ReconciliationComplete(ok)}
    {
      WorkLeaves(View(), id,
        RunningCalls(workers[id].snapshot.state, c.probe, c.terminate, Answer(c.prepare), c.again, c.start));
      var success := ReconcileToRunning(id, c.probe, c.terminate, c.prepare, c.again, c.start);
      Finish(id);
    }

    method RunToTerminated(id: nat, c: Calls)
      requires id in workers && workers[id].pc == TerminatedProbe && |c.volumes| >= |res.volumes|
      modifies this, bus
      ensures id !in workers && state.recon == None && state.machine == old(state).machine && row == old(row)
      ensures var ok := (c.probe.ok ==> c.terminate.ok) && AllReleasable(old(res), c.iface, c.volumes);
        bus.pending == old(bus.pending) + TerminatingIf(c.probe, old(workers)[id]) +
          multiset{StateChanged(if ok then Terminated else Error)} + multiset{ReconciliationComplete(ok)}
    {
      ghost var start := View();
      var success, n := ReconcileToTerminated(id, c.probe, c.terminate, c.iface, c.volumes);
      WorkLeaves(start, id, TerminatedCalls(c.probe, c.terminate, c.iface, c.volumes[..n], success));
      Finish(id);
    }

    /** The worker goroutine from its launch to its end, by the desired state it was launched for. One it does not
        know ends at once. */
    method RunWorker(id: nat, c: Calls)
      requires id in workers && workers[id].pc == FirstPc(workers[id].desired) && |c.volumes| >= |res.volumes|
      modifies this, bus
      ensures id !in workers && state.recon == None && state.machine == old(state).machine && row == old(row)
      ensures old(workers)[id].desired == WantPending ==>
        var ok := (c.probe.ok ==> c.terminate.ok) && CanPrepare(c.prepare);
        bus.pending == old(bus.pending) + TerminatingIf(c.probe, old(workers)[id]) +
          multiset{StateChanged(if ok then Pending else Error)} + multiset{ReconciliationComplete(ok)}
      ensures old(workers)[id].desired == WantRunning ==>
        var w := old(workers)[id];
        var ok := (w.snapshot.state == Error && c.probe.ok ==> c.terminate.ok) && CanPrepare(c.prepare) &&
                  (c.again.ok || (c.start.ok && !w.cancelled));
        bus.pending == old(bus.pending) + StartingIf(w) +
          multiset{StateChanged(if ok then Running else Error)} + multiset{ReconciliationComplete(ok)}
      ensures old(workers)[id].desired == WantTerminated ==>
        var ok := (c.probe.ok ==> c.terminate.ok) && AllReleasable(old(res), c.iface, c.volumes);
        bus.pending == old(bus.pending) + TerminatingIf(c.probe, old(workers)[id]) +
          multiset{StateChanged(if ok then Terminated else Error)} + multiset{ReconciliationComplete(ok)}
      ensures old(workers)[id].desired == WantUnknown ==>
        bus.pending == old(bus.pending) + multiset{StateChanged(Unknown)} + multiset{ReconciliationComplete(false)}
    {
      match workers[id].desired
      case WantPending => RunToPending(id, c);
      case WantRunning => RunToRunning(id, c);
      case WantTerminated => RunToTerminated(id, c);
      case WantUnknown => Finish(id);
    }

    /** The first event of a connection publishes Connected, a container's event itself. */
    method PublishReceived(hasReceived: bool, container: bool)
      modifies bus
      ensures bus.pending == old(bus.pending) + (if hasReceived then multiset{} else multiset{ListenerConnected}) +
        (if container then multiset{ContainerStateChanged} else multiset{})
    {
      if !hasReceived { bus.PublishEvent(ListenerConnected); }
      if container { bus.PublishEvent(ContainerStateChanged); }
    }

    method Receive(id: nat, hasReceived: bool, container: bool)
      requires id in threads && threads[id].stream == Open(hasReceived)
      modifies this, bus
      ensures View() == HearStep(old(View()), id, ControllerModel.Receive(container))
      ensures id in threads && threads[id].stream == Open(true)
    {
      HeardIs(threads[id], container, bus.pending);
      PublishReceived(hasReceived, container);
      threads := threads[id := threads[id].(stream := Open(true))];
    }

    method Connect(id: nat)
      requires id in threads && threads[id].stream == Closed
      modifies this
      ensures View() == HearStep(old(View()), id, ControllerModel.Connect)
      ensures id in threads && threads[id].stream == Open(false)
    {
      NothingPublished(bus.pending);
      threads := threads[id := threads[id].(stream := Open(false))];
    }

    /** One connection of the listener. */
    method ConnectToRuntimeListener(id: nat, received: seq<bool>)
      requires id in threads && threads[id].stream == Closed
      modifies this, bus
      ensures View() == HearAll(HearStep(old(View()), id, ControllerModel.Connect), id, received)
    {
      Connect(id);
      ghost var begun := View();
      var hasReceived := false;
      var i := 0;
      while i < |received|
        invariant 0 <= i <= |received| && id in begun.threads
        invariant id in threads && threads[id].stream == Open(hasReceived)
        invariant View() == HearAll(begun, id, received[..i])
      {
        Receive(id, hasReceived, received[i]);
        hasReceived := true;
        HearOneMore(begun, id, received, i);
        i := i + 1;
      }
      assert received[..|received|] == received;
    }

    /** `Stop`, and the removal from the controller map that follows it. */
    method Stop()
      requires phase == Registered
      modifies this
      ensures View() == TermStep(TermStep(old(View()).(term := TermBegin(StateChanged(Terminated)))))
      ensures stopping && phase == Unregistered && row == old(row) && state == old(state)
      ensures state.listener.Some? && state.listener.value.thread in old(threads) ==>
        state.listener.value.thread in threads && threads[state.listener.value.thread].cancelled
      ensures state.recon.Some? && state.recon.value.worker in old(workers) ==>
        state.recon.value.worker in workers && workers[state.recon.value.worker].cancelled
    {
      var snapshot := state;
      stopping := true;
      if snapshot.listener.Some? { CancelListener(snapshot.listener.value.thread); }
      assert View().(term := TermWait(snapshot)) == TermStep(old(View()).(term := TermBegin(StateChanged(Terminated))));
      if snapshot.recon.Some? { CancelReconciliation(snapshot.recon.value.worker); }
      phase := Unregistered;
    }
  }

  // ---------------------------------------------------------------- the handler, message by message

  lemma OneMore(s: Sys, t: Sys)
    requires s.core != CoreIdle && CoreStep(s, true) == t
    ensures RunCore(s, true) == RunCore(t, true)
  {
  }

  lemma ListenWhileIdle(s: Sys, snapshot: State)
    requires s.core == CoreIdle
    ensures CoreStep(s.(core := Listen(snapshot)), true) == ListenStep(s, snapshot)
    ensures ListenStep(s, snapshot).core == CoreIdle
  {
  }

  lemma AssessRun(s: Sys, launched: Sys)
    requires s.core == CoreIdle
    requires launched == if ShouldReconcile(s.state.machine) then Launch(s) else s
    ensures RunCore(s.(core := Begin(AssessState)), true) == ListenStep(launched, s.state)
  {
    var s0, s1 := s.(core := Begin(AssessState)), s.(core := Decide(s.state));
    var s2, s3 := launched.(core := Listen(s.state)), ListenStep(launched, s.state);
    OneMore(s0, s1);
    OneMore(s1, s2);
    ListenWhileIdle(launched, s.state);
    OneMore(s2, s3);
  }

  lemma SaveRun(s: Sys, m: Message, dbOk: bool)
    requires s.core == CoreIdle && (m.DesiredStateChanged? || m.StateChanged?)
    ensures var h := Handle(s.state, s.row, m, dbOk);
            RunCore(s.(core := Begin(m)), dbOk) ==
            s.(state := h.state, row := h.row, bus := s.bus + multiset{AssessState})
  {
    var s1 := CoreStep(s.(core := Begin(m)), dbOk);
    assert s1.core == PublishAssess && s1.bus == s.bus;
    assert RunCore(CoreStep(s1, dbOk), dbOk) == CoreStep(s1, dbOk);
  }

  lemma ConnectedRun(s: Sys)
    requires s.core == CoreIdle
    ensures RunCore(s.(core := Begin(ListenerConnected)), true) ==
      s.(bus := s.bus + (if s.state.machine.state != Running then multiset{StateChanged(Running)} else multiset{}),
         state := if s.state.listener.None? then s.state
                  else s.state.(listener := Some(WithErrors(s.state.listener.value, 0))),
         crashed := s.crashed || s.state.listener.None?)
  {
    var s1 := CoreStep(s.(core := Begin(ListenerConnected)), true);
    assert s1.core == ResetErrors && s1.state == s.state;
    assert RunCore(CoreStep(s1, true), true) == CoreStep(s1, true);
  }

  /** One more failure, counted while there is a listener to count for. */
  function Counted(st: State): State {
    if st.listener.Some? then st.(listener := Some(WithErrors(st.listener.value, st.listener.value.errors + 1))) else st
  }

  lemma DisconnectedRun(s: Sys)
    requires s.core == CoreIdle
    ensures RunCore(s.(core := Begin(ListenerDisconnected)), true) ==
      s.(state := Counted(s.state), bus := s.bus + ErrorsPublished(Counted(s.state)))
  {
    var s1 := CoreStep(s.(core := Begin(ListenerDisconnected)), true);
    assert s1.core == CheckErrors && s1.row == s.row && s1.bus == s.bus && s1.state == Counted(s.state);
    assert RunCore(CoreStep(s1, true), true) == CoreStep(s1, true);
  }

  lemma InertRun(s: Sys, m: Message)
    requires s.core == CoreIdle && (m.ReconciliationComplete? || m.ContainerStateChanged?)
    ensures RunCore(s.(core := Begin(m)), true) == s
  {
    var s1 := CoreStep(s.(core := Begin(m)), true);
    assert s1 == s;
    assert RunCore(s1, true) == s1;
  }
}
