# Verification of the node agent's concurrent core

This Dafny project models four parts of the node agent and proves what they keep over every run.

**The machine controller** (`ControllerModel`, `ControllerSafety`, `ControllerTheorems`, `ControllerProgress`,
`ControllerConvergence`, `ControllerCrash`, `ControllerTerminated`, `ControllerEffects`, `StateCell`, `EventBus`,
`Controller`). One controller per machine: a dispatcher that takes any one pending event and has all handlers finish it, reconciliation workers, runtime
listener threads, the database row, the runtime, the release marks of the interface and the volumes. A state is
a value `Sys`; a run is a sequence of actions, each one step of one thread with the answer its call got.
Workers and listener threads are kept by identity, so that there is at most one of each is proved and not
built in. A process restart, which rebuilds the controller from its row, is an action like any other.
`Controller.MachineController` is the object with its fields and methods; each of its methods is proved
to leave the state that the corresponding steps of the machine, one after another, leave, and says besides, in terms of
its own fields, what it changes. `ControllerEffects` says the same of the machine's steps: when exactly a worker is
launched, a listener started or cancelled, a mark set.

**The network address allocator** (`Addresses`, `AddressTable`, `NetworkProvider`, `MachineCreation`). The
byte-wise arithmetic without carry for any prefix length, the hardware addresses, and the slot array against
the rows and the interface objects over any run of allocations, releases, retries and restarts.

**The container log pipeline** (`LogLines`, `LogWriter`, `HostLog`, `LogPipeline`). From chunks of bytes to
lines, to one guest log, to a host that replays that log on every connection and records each entry once.

**Control-plane synchronisation and the restart loop** (`AgentSync`, `AgentRefinement`, `AgentConvergence`,
`RestartLoop`). `AgentRefinement` ties the agent's reduced view of a controller to the controller machine;
`AgentConvergence` joins the synchronisation to the machines' convergence.

## Assumptions, and what they stand for

Each assumption is a condition on single steps, and each comes with the exact condition under which the code
meets it or with a run that shows what happens otherwise.

- (a) `SetState` is one atomic step in the controller machine. The code takes its snapshot before the write lock
  (`controller.go:123-134`). `StateCell` models the two halves: `AtomicIff` says, for each of the code's updaters,
  exactly when an overtaken call is as good as an atomic one; `OvertakenClearLosesState` and
  `OvertakenIncrementForgetsReset` say which calls are not.
- (b) For convergence only, a worker's last publish and its clear of `Reconciliation` (`reconciliation.go:59-64` and
  `81-85`) are one step (`PublishClears`). The machine has both forms. Never-stuck needs less: that no assessment
  which calls for a reconciliation is turned away (`reconciliation.go:38-41`) by a worker that has made its last
  publish and has still to clear itself (`SkipsNone`). `StuckIffStranded` says exactly which step of the two-step form
  gets a controller stuck, `LiteralGetsStuck` gives a run.
- (c) A Connected message is handled only while a listener is present (`event_handler.go:50-53` dereferences
  it). The machine keeps a `crashed` flag instead: `CrashesIff` says exactly when it is raised,
  `LateConnectedCrashes` gives a run. Convergence takes it as a condition on the states of a schedule
  (`ListenersPresent`), which every schedule meets that starts without a pending Connected (`NoneToMiss`), so every
  one of a new or reloaded controller; the safety theorems do without it.
- In the schedules of the convergence theorems the listener is silent: it opens no connection and receives nothing.
  A stream that is open may end, and a cancelled listener may leave.
- The probe before a start is accurate for `NoDoubleStart` only. Releases are saved for the table theorems over
  restarts only (`UnsavedReleaseStealsSlot` shows why). Machine ids are distinct in one list for the synchronisation
  theorems. The saves of desired states succeed where it is said that a controller arrives at one.

Calls into the kernel, the database, the storage and the runtime appear as answers: parameters that say whether a
call succeeded, what a probe answered, how many events were stored.

Where the code and its names disagree the model follows the code: the empty restart policy restarts for ever like
"always"; an unlisted controller is told to terminate on every synchronisation even when it already wants that; a
release that failed to be saved counts as done on the next try.

## Where the steps come from

The functions of the models that only compute follow these lines, branch by branch:

- `ControllerModel.Handle`, `CoreStep`, `ListenStep`: `event_handler.go:12-72`; `Launch`: `reconciliation.go:36-70`;
  `Advance`: one case per call of `reconciliation.go:95-172`; `WorkStep`, `FinishStep`, `ClearWorker`:
  `reconciliation.go:59-64` and `81-85`; `HearStep`: `runtime_listener.go:40-94`; `TermStep`: `events.go:119-140` with
  `controller.go:79-106`; `Boot`: `controller.go:42-77`; `Rebuild`: `service.go:79-107` of the machine service;
  the action `Pick`: `bus.go:44-53`; the action `Desire`: `update_desired_state.go:9-17`, so only through the
  controller map.
- `Controller.WorkAll` and the calls it is given (`PendingCalls`, `RunningCalls`, `TerminatedCalls`): the branches of
  `reconciliation.go:95-172`.
- `MachineTypes.ShouldReconcile`, `ShouldListen`: `reconciliation.go:23-34`, `runtime_listener.go:21-26`.
- `AddressTable.Allocated`, `Released`, `Restarted`: `allocate_interface.go:13-53`, `release_interface.go:13-41`, `provider.go:44-60`.
- `LogWriter.Drained`, `HostLog.Connected`, `LogPipeline.Apply`: `log_writer.go:39-67`, `log.go:83-100`, both with
  `service.go:40-61` of the guest's log service.
- `AgentSync.Synced`, `Expected`, `OthersTerminated`: `connection_machines.go:70-93`, `35-43`, `51-63`;
  `AgentConvergence.ToldOfChange`: `84-93`.
- `RestartLoop.Returns`: `container.go:88-96`.

## Model

| member | source | states |
|---|---|---|
| `ControllerConvergence.Convergence` | nodeagent/internal/machineservice/machinecontroller/reconciliation.go:23-148 | From every state a controller can get into (publish and clear as one step) in which nothing about termination is left: every schedule of dispatches, worker steps, the service's subscribing and registering and the end of an open stream, in any bus order, with no new connection of the listener and with Connected handled only while there is one (`ListenersPresent`), whatever changes between Pending and Running are still pending, comes to a stop for good, with nothing pending, no worker, the controller registered, no stream open, and the machine Pending when that is wanted, Running or Degraded when Running is |
| `ControllerConvergence.CalmGoesDown` | nodeagent/internal/machineservice/machinecontroller/reconciliation.go:71-148 | The lexicographic measure (foreign messages, pending and still-to-come state changes by distance from the desired state of the moment, class of the current state, assessments, thread positions) goes down on every such step, also on one that changes the desired state |
| `ControllerConvergence.CalmStays` | nodeagent/internal/machineservice/machinecontroller/event_handler.go:16-45 | Every such step keeps the settled condition, the invariant and never-stuck |
| `ControllerConvergence.QuiescentIsConverged` | nodeagent/internal/machineservice/machinecontroller/reconciliation.go:23-34 | A settled controller in which no step is left has no message, handler or worker left, is registered, has no open stream and is where it is wanted |
| `ControllerConvergence.SomeSchedule` | core/eventbus/bus.go:44-53 | Every state starts some schedule, so convergence is about something |
| `ControllerConvergence.BootSettled` | nodeagent/internal/machineservice/machinecontroller/controller.go:42-77 | A controller just created or reloaded over a live row wanting Pending or Running, in the service's hands or not yet, is such a start, without a pending Connected |
| `ControllerConvergence.NoneToMiss` | nodeagent/internal/machineservice/machinecontroller/runtime_listener.go:68-94 | From a start without a pending Connected no schedule ever handles one, so the condition on listeners is met |
| `ControllerConvergence.CountInsert` | core/eventbus/bus.go:25-29 | Pending events are a multiset: a publish adds exactly one of its kind to every count, whatever the order they are taken in |
| `ControllerProgress.NeverStuck` | nodeagent/internal/machineservice/machinecontroller/event_handler.go:16-45 | With publish and clear as one step, in every reachable state of a running controller without a worker in flight and without a state change, desired-state change or assessment pending or in hand: a machine wanted Pending is Pending, one wanted Running is Running or Degraded, one wanted Terminated is Terminated |
| `ControllerProgress.WakesUpIff` | nodeagent/internal/machineservice/machinecontroller/event_handler.go:12-72 | State changes, desired-state changes and assessments are exactly the messages whose handling decides or publishes an assessment, whether or not a save succeeds |
| `ControllerProgress.NeverStuckUnlessSkipped` | nodeagent/internal/machineservice/machinecontroller/reconciliation.go:36-64 | The same with publish and clear as two steps, in every run in which no assessment that calls for a reconciliation is turned away by a worker that has still to clear itself |
| `ControllerProgress.NoneSkipped` | nodeagent/internal/machineservice/machinecontroller/reconciliation.go:59-64 | With publish and clear as one step no assessment is turned away so |
| `ControllerProgress.StuckIffStranded` | nodeagent/internal/machineservice/machinecontroller/reconciliation.go:59-64 | Without either assumption: a step makes a controller stuck if and only if it is the clear of a worker at a moment when the machine needs reconciling and no assessment is on its way |
| `ControllerProgress.LiteralGetsStuck` | nodeagent/internal/machineservice/machinecontroller/reconciliation.go:81-85 | Such a run exists: reloaded in Starting, preparation fails, and the machine is deserted in Error although wanted Running |
| `ControllerProgress.DesertedForEver` | nodeagent/internal/machineservice/machinecontroller/event_handler.go:16-45 | A stuck controller without a listener thread, with only messages pending that lead to nothing, stays stuck with the same machine state in every run until a desired state is set or the process starts over |
| `ControllerSafety.InvStep` | nodeagent/internal/machineservice/machinecontroller/reconciliation.go:36-93 | Every step of every thread keeps the invariant: one worker and one listener, fresh snapshots, row equals memory, workers on their path, marks behind every announced Terminated |
| `ControllerSafety.InvRun` | nodeagent/internal/machineservice/machinecontroller/reconciliation.go:36-93 | So does every run |
| `ControllerSafety.AdvanceOnPath` | nodeagent/internal/machineservice/machinecontroller/reconciliation.go:95-172 | A worker stays on the code path of its desired state, takes no release mark away, and announces Terminated only from its end |
| `ControllerSafety.ApplyBus` | core/eventbus/bus.go:25-67 | Messages leave the bus only by being dispatched or with the process; every step adds exactly what it publishes |
| `ControllerSafety.CoreFrame` | nodeagent/internal/machineservice/machinecontroller/event_handler.go:12-72 | The event handler touches no resource and no other handler and at most launches one worker |
| `ControllerTheorems.OneOfEach` | nodeagent/internal/machineservice/machinecontroller/reconciliation.go:36-64 | In every reachable state there is at most one worker and one listener thread, present exactly when `Reconciliation` and `RuntimeListener` are set, and the record names the desired state the worker drives |
| `ControllerTheorems.NoDoubleStart` | nodeagent/internal/machineservice/machinecontroller/reconciliation.go:133-145 | In every run in which the probe before a start is accurate, `Start` is only called while no runtime is up, over any number of process restarts |
| `ControllerTheorems.TerminatedMeansReleased` | nodeagent/internal/machineservice/machinecontroller/reconciliation.go:150-172 | A step that announces Terminated is the last publish of a worker for WantTerminated that saw the runtime gone, and neither the interface nor any volume is still held |
| `ControllerTheorems.TerminatedRowReleased` | nodeagent/internal/machineservice/machinecontroller/event_handler.go:35-45 | A row that says Terminated has neither its interface nor any volume still held |
| `ControllerTheorems.ReleasedOnlyGrows` | nodeagent/internal/volumeprovider/release.go:13-29 | Over any sequence of failed and retried terminations of one process no mark is ever taken back |
| `ControllerTheorems.SavedReleasesStay` | nodeagent/internal/volumeprovider/release.go:13-29 | Over any run at all, restarts included, a release that was saved stays |
| `ControllerTheorems.RestartRefines` | nodeagent/internal/machineservice/service.go:79-107 | In every reachable state memory equals the row, TerminatedAt is set exactly in Terminated, and rebuilding a live machine from its row gives the same state and desired state with one AssessState pending and no thread; `ControllerEffects.RestartMarks` says what becomes of the resources |
| `ControllerEffects.RestartMarks` | nodeagent/internal/machineservice/service.go:79-107 | A restart keeps the marks that were saved and only those: every other resource, of the same number of volumes, is held again, so a later termination releases it |
| `ControllerEffects.SavedOnlyByRelease` | nodeagent/internal/volumeprovider/release.go:13-29 | In every step of every run a mark becomes saved only in the release of that interface or volume, from held, when the release and its save succeed |
| `ControllerEffects.InterfaceMark` | nodeagent/internal/networkprovider/release_interface.go:32-38 | Within one process the interface mark changes exactly when the release gets past the link of a held one: to saved or, when the save fails, to marked only |
| `ControllerEffects.VolumeMark` | nodeagent/internal/volumeprovider/release.go:13-29 | The same of each volume, in the step that releases it |
| `ControllerEffects.RuntimeUp` | nodeagent/internal/machineservice/machinecontroller/reconciliation.go:95-172 | A runtime comes up only by a successful start of a worker not cancelled, and goes only by dying or by a termination it does not outlive |
| `ControllerEffects.SeenGoneIff` | nodeagent/internal/machineservice/machinecontroller/reconciliation.go:150-163 | A worker takes the runtime to be gone when the probe before its terminate finds none or its terminate returns nil |
| `ControllerEffects.LaunchIff` | nodeagent/internal/machineservice/machinecontroller/reconciliation.go:23-70 | A step launches a worker if and only if an assessment is decided with none on record, the controller not stopping, and the machine wanted Pending and not Pending, wanted Running and neither Running nor Degraded, or wanted Terminated and not Terminated |
| `ControllerEffects.LaunchedIs` | nodeagent/internal/machineservice/machinecontroller/reconciliation.go:36-70 | The launched worker is the only one, is on record, drives the desired state of the moment and is not cancelled |
| `ControllerEffects.ListenerStartedIff` | nodeagent/internal/machineservice/machinecontroller/event_handler.go:22-27 | A step starts a listener if and only if it ends an assessment whose snapshot says Running or Degraded and has no listener |
| `ControllerEffects.ListenerCancelledIff` | nodeagent/internal/machineservice/machinecontroller/event_handler.go:22-27 | A step cancels a listener if and only if it ends an assessment that finds the machine neither Running nor Degraded and this listener on record, or begins the stop of a registered controller |
| `ControllerEffects.WorkerCancelledIff` | nodeagent/internal/machineservice/machinecontroller/controller.go:79-106 | A step cancels a worker if and only if it is the second half of `Stop` and the worker was on record when that began |
| `ControllerEffects.ForgottenIff` | nodeagent/internal/machineservice/machinecontroller/runtime_listener.go:40-66 | A listener is taken off the record exactly by a listener thread's end, a reconciliation exactly by a worker's |
| `ControllerEffects.HearingIs` | nodeagent/internal/machineservice/machinecontroller/runtime_listener.go:40-94 | What a listener publishes: Connected with the first event of a connection, every container event, Disconnected with its end; only a cancelled one ends |
| `ControllerEffects.HandlingIs` | nodeagent/internal/machineservice/machinecontroller/event_handler.go:16-70 | Handling a message changes row and memory alike, the desired state or the state and its time stamp as the message says and the save succeeds, and counts a disconnection of a recorded listener |
| `ControllerEffects.NothingBlocked` | core/eventbus/bus.go:44-67 | While the process lives a handler, a worker and a listener can always go on, whatever their calls answer, and once both handlers are done any pending message can be taken |
| `ControllerTheorems.ShutdownBarrier` | nodeagent/internal/machineservice/events.go:119-140 | Once a registered controller has taken StateChanged(Terminated), no later step of that process starts a reconciliation |
| `ControllerEffects.NoStartAfterStop` | nodeagent/internal/machineservice/machinecontroller/controller.go:79-106 | Once a controller has been removed, every worker of it still in flight has been cancelled, and no runtime is started any more |
| `ControllerTerminated.StaysTerminatedIff` | nodeagent/internal/machineservice/machinecontroller/event_handler.go:35-45 | In every run a recorded Terminated lasts if and only if no other state change is handled and saved afterwards |
| `ControllerTerminated.LeavesTerminatedIff` | nodeagent/internal/machineservice/machinecontroller/event_handler.go:35-45 | A single step takes the row out of Terminated if and only if it handles and saves another state change |
| `ControllerTerminated.TerminatedIsLast` | nodeagent/internal/machineservice/events.go:119-140 | If a registered controller takes Terminated with no other state change and no message of the listener pending, no listener thread and no worker but one that has only to clear itself, the row says Terminated from its save on in every run of the process |
| `ControllerTerminated.PendingChangeUndoes` | core/eventbus/bus.go:44-53 | If another state change is pending when it takes Terminated, a run puts the row on that state afterwards |
| `ControllerTerminated.LateTerminatingUndoes` | nodeagent/internal/machineservice/machinecontroller/reconciliation.go:150-172 | Such a run exists: a worker's own Terminating is handled after its Terminated, and the row says Terminating with everything released |
| `ControllerTheorems.StreakAnnouncements` | nodeagent/internal/machineservice/machinecontroller/event_handler.go:46-70 | In every run the error count equals the disconnections of the current streak, and the streak has announced Degraded and Error at most once, exactly from its first and third failure on |
| `ControllerCrash.CrashesIff` | nodeagent/internal/machineservice/machinecontroller/event_handler.go:50-53 | From a reachable state a step takes the process down if and only if it resets the count of a listener that has left |
| `ControllerCrash.LateConnectedCrashes` | nodeagent/internal/machineservice/machinecontroller/event_handler.go:46-53 | Such a run exists: a machine reloaded in Running and wanted Pending; Connected waits on the bus until its listener has been cancelled and has cleared itself |
| `StateCell.AtomicIff` | nodeagent/internal/machineservice/machinecontroller/controller.go:123-134 | For each updater the code passes: a `SetState` overtaken by another update gives what an atomic one gives if and only if the other stayed within what this one writes without reading it; an increment of the error count reads it, and a reset without a listener fails either way |
| `StateCell.UpdatedIs` | nodeagent/internal/machineservice/machinecontroller/controller.go:123-134 | What each updater leaves, field by field; only a reset without a listener fails |
| `StateCell.HandlerUpdates` | nodeagent/internal/machineservice/machinecontroller/event_handler.go:28-60 | The saves and the count of the controller machine's handler are these updates |
| `StateCell.OvertakenClearLosesState` | nodeagent/internal/machineservice/machinecontroller/controller.go:123-134 | A worker's clear around a saved state change undoes it in memory for every state, so row and memory part |
| `StateCell.OvertakenIncrementForgetsReset` | nodeagent/internal/machineservice/machinecontroller/event_handler.go:50-60 | An increment of the error count overtaken by a reset brings the old count back, for every listener with failures |
| `StateCell.Overtaken` | nodeagent/internal/machineservice/machinecontroller/controller.go:123-134 | The same, run on the cell in its two halves, failures on a nil listener included |
| `StateCell.Cell.SetState` | nodeagent/internal/machineservice/machinecontroller/controller.go:123-134 | Not overtaken: the update of the old state, or the old state when the updater fails |
| `Controller.MachineController.constructor` | nodeagent/internal/machineservice/machinecontroller/controller.go:42-77 | A new controller is the machine's boot state: the row in memory and nothing else, one AssessState pending, no thread |
| `Controller.MachineController.SetDesiredState` | nodeagent/internal/machineservice/machinecontroller/controller.go:136-140 | Publishes the change and touches nothing else |
| `Controller.MachineController.EventHandler` | nodeagent/internal/machineservice/machinecontroller/event_handler.go:12-72 | Handling one event on the object is the machine's handler run to its end; the rows of the single handlers follow |
| `Controller.MachineController.AssessNow` | nodeagent/internal/machineservice/machinecontroller/event_handler.go:16-27 | A reconciliation is recorded for the desired state exactly when none is, the controller is not stopping and the machine is not where it is wanted, state by state; a listener is started for Running or Degraded and cancelled for any other state |
| `Controller.MachineController.SaveState` | nodeagent/internal/machineservice/machinecontroller/event_handler.go:35-45 | Memory and row get the state, and the time stamp exactly for Terminated, if the save succeeds, and stay as they were if not; an assessment is published either way |
| `Controller.MachineController.SaveDesired` | nodeagent/internal/machineservice/machinecontroller/event_handler.go:28-34 | The same of the desired state |
| `Controller.MachineController.ListenerIsConnected` | nodeagent/internal/machineservice/machinecontroller/event_handler.go:46-53 | Running is announced unless the machine is in it, the count is reset, and the process ends without a listener |
| `Controller.MachineController.ListenerIsDisconnected` | nodeagent/internal/machineservice/machinecontroller/event_handler.go:54-70 | The count goes up by one, the third failure announces Error and the first Degraded, and without a listener nothing happens |
| `Controller.MachineController.Reconcile` | nodeagent/internal/machineservice/machinecontroller/reconciliation.go:36-70 | Is the machine's launch: nothing while a reconciliation is recorded or the controller stops, else the record and one worker for the desired state and from the machine of the moment |
| `Controller.MachineController.StartRuntimeListener` | nodeagent/internal/machineservice/machinecontroller/runtime_listener.go:28-37 | Is the machine's step of the same name |
| `Controller.MachineController.ConnectToRuntimeListener` | nodeagent/internal/machineservice/machinecontroller/runtime_listener.go:68-94 | The receive loop is the machine's connect step followed by one receive step per event |
| `Controller.ConnectionPublishes` | nodeagent/internal/machineservice/machinecontroller/runtime_listener.go:77-92 | A connection publishes Connected exactly once, with the first event received whatever it is, and every container event |
| `Controller.MachineController.ReconcileToPending` | nodeagent/internal/machineservice/machinecontroller/reconciliation.go:95-114 | Leaves the state that the worker's steps leave, given the calls it makes; succeeds if and only if what was up could be terminated and the interface and every volume could be prepared; announces Terminating exactly when a runtime was up and the machine was not Terminating |
| `Controller.MachineController.ReconcileToRunning` | nodeagent/internal/machineservice/machinecontroller/reconciliation.go:116-148 | Leaves the state that the worker's steps leave; succeeds if and only if an error left running could be cleaned up, the interface and every volume could be prepared, and a runtime was up or could be started; announces Starting exactly once unless in it; a cancelled worker starts nothing |
| `Controller.MachineController.ReconcileToTerminated` | nodeagent/internal/machineservice/machinecontroller/reconciliation.go:150-172 | Leaves the state that the worker's steps leave; succeeds if and only if what was up could be terminated and the interface and every volume are released already or can be; then the runtime was seen gone and all marks are there; any failure ends in Error |
| `Controller.MachineController.RunWorker` | nodeagent/internal/machineservice/machinecontroller/reconciliation.go:59-93 | The goroutine from launch to end, for each desired state: whether it succeeds, and everything it publishes — Starting or Terminating, then Pending, Running, Terminated, or Error after any failure, Unknown at once for a desired state it does not know, then the completion with its success; memory and row are left alone and its record is cleared |
| `Controller.MachineController.Finish` | nodeagent/internal/machineservice/machinecontroller/reconciliation.go:59-85 | The result's state and the completion are published and the record cleared: two steps of the machine, and its one finishing step when nothing comes between them |
| `Controller.MachineController.ReleaseVolumes` | nodeagent/internal/machineservice/machinecontroller/reconciliation.go:165-169 | Leaves the state that one release step per call leaves, so every mark up to the first failure and none after; succeeds if and only if every volume was marked before or could be removed and saved |
| `Controller.MachineController.ReleaseVolume` | nodeagent/internal/volumeprovider/release.go:13-29 | A marked volume is left alone; otherwise removed, marked, saved, and the mark stays if the save fails |
| `Controller.MachineController.ReleaseInterface` | nodeagent/internal/networkprovider/release_interface.go:32-38 | Marked before it is saved; a marked interface is not saved again |
| `Controller.PrepareMachine` | nodeagent/internal/machineservice/machinecontroller/reconciliation.go:174-216 | Succeeds if and only if the interface is set up and every volume has its container, its image and its storage, storage allocated before counting; the reconciliations to Pending and Running make this call |
| `Controller.MachineController.Stop` | nodeagent/internal/machineservice/machinecontroller/controller.go:79-106 | Stopping and unregistering are the two steps of the machine's termination handler: the recorded listener and worker are cancelled |
| `EventBus.Conservation` | core/eventbus/bus.go:25-67 | Over any run pending and dispatched events are together what was published, and all handlers have seen one serial order |
| `EventBus.OneOrderKept` | core/eventbus/bus.go:55-67 | Every handler has been given a suffix of the dispatches, in dispatch order; `GivenAll` says which |
| `EventBus.GivenAll` | core/eventbus/bus.go:55-67 | Over any run a handler that is subscribed and does not leave is given exactly the events dispatched meanwhile, each once, in order, after what it had |
| `EventBus.GivenAllSince` | core/eventbus/bus.go:31-67 | One that subscribes during the run is given exactly the events dispatched from then on |
| `EventBus.LeftAlone` | core/eventbus/bus.go:39-42 | One that leaves is given nothing more, and the others keep what they have |
| `EventBus.SameDeliveries` | core/eventbus/bus.go:55-67 | Two handlers that stay subscribed are given the same events in the same order |
| `EventBus.Bus.PublishEvent` | core/eventbus/bus.go:25-29 | Adds the event to the multiset of pending ones |
| `EventBus.Bus.DispatchEvent` | core/eventbus/bus.go:55-67 | Each handler has been given the event after what it had, whichever order they were started in, before it returns |
| `EventBus.Bus.DispatchNext` | core/eventbus/bus.go:44-53 | Takes any one pending event, once, and each handler has been given it |
| `EventBus.Bus.SubscribeToEvents` | core/eventbus/bus.go:31-37 | A new handler has been given nothing yet |
| `Addresses.InBlockIff` | nodeagent/internal/networkprovider/provider.go:97-114 | For every prefix length and aligned network address, the address computed for an offset lies in the block (section 3.1 of RFC 4632) if and only if the offset is below 2^(32-ones), and then it is base + offset |
| `Addresses.ExactIffNoCarry` | nodeagent/internal/networkprovider/provider.go:105-112 | For any base the carry-free loop yields base + offset if and only if no byte overflows, and never more than that |
| `Addresses.AlignedNoCarry` | nodeagent/internal/networkprovider/provider.go:105-112 | An aligned base never overflows below the block size |
| `Addresses.MutualInverses` | nodeagent/internal/networkprovider/provider.go:75-114 | Offsets below 2^32 and four-byte addresses correspond one to one, for any base at all |
| `Addresses.AddressOfOffset` | nodeagent/internal/networkprovider/provider.go:75-114 | Address to offset and back is the identity for any base and length |
| `Addresses.OffsetOfAddress` | nodeagent/internal/networkprovider/provider.go:75-114 | Offset to address and back is the offset modulo the address space, negative offsets included |
| `Addresses.CalculateOffsetFromIP` | nodeagent/internal/networkprovider/provider.go:75-95 | The accumulator loop computes the number written by the byte-wise differences |
| `Addresses.CalculateIPFromOffset` | nodeagent/internal/networkprovider/provider.go:97-114 | The loop with its early exit computes the byte-wise sum |
| `Addresses.DecodeEncode` | nodeagent/internal/networkprovider/provider.go:116-125 | Decoding an encoded slot gives the slot modulo 2^24, so the slot itself exactly below 2^24 |
| `Addresses.EncodedIs` | nodeagent/internal/networkprovider/allocate_interface.go:31 | The hardware address is the vendor's three bytes and the number of the slot in the other three |
| `Addresses.EncodeDecode` | nodeagent/internal/networkprovider/provider.go:116-125 | A recognised hardware address is the encoding of what it decodes to |
| `Addresses.MacInjective` | nodeagent/internal/networkprovider/allocate_interface.go:31-36 | Different slots below 2^24 have different hardware addresses |
| `Addresses.IdentityRecovery` | nodeagent/internal/networkprovider/get_interface.go:8-19 | For tables of at most 2^24 slots the address reported for an encoded slot is the slot's; a foreign hardware address is reported with an offset outside every table |
| `AddressTable.EveryRun` | nodeagent/internal/networkprovider/allocate_interface.go:13-53 | From an empty table, over any run of allocations, releases and restarts with saved releases: a slot is taken exactly when reserved or a live interface's, live offsets are distinct, rows and objects agree, free + live + 2 is the table size |
| `AddressTable.RunInv` | nodeagent/internal/networkprovider/release_interface.go:13-41 | The same table invariant over any run of one process whatever fails, and over restarts when releases are saved |
| `AddressTable.Conservation` | nodeagent/internal/networkprovider/allocate_interface.go:46-53 | Free slots, live interfaces and the two reserved offsets make up the table |
| `AddressTable.AllocationFailsIff` | nodeagent/internal/networkprovider/allocate_interface.go:17-20 | No address is found if and only if all but the reserved offsets are live; otherwise the lowest free offset, never a reserved one |
| `AddressTable.LiveDistinct` | nodeagent/internal/networkprovider/allocate_interface.go:22-36 | Live interfaces differ in name and address, and in hardware address for at most 2^24 slots |
| `AddressTable.TapNameInjective` | nodeagent/internal/networkprovider/allocate_interface.go:24 | Different offsets give different device names |
| `AddressTable.RestartIff` | nodeagent/internal/networkprovider/provider.go:44-60 | Rebuilding the table from the rows is sound if and only if no two unreleased rows hold the same offset |
| `AddressTable.ClearsOnce` | nodeagent/internal/networkprovider/release_interface.go:32-38 | However often a release is retried, an interface object clears its slot at most once |
| `AddressTable.ReleaseSparesOthers` | nodeagent/internal/networkprovider/release_interface.go:32-38 | A release never touches the slot of another live interface |
| `AddressTable.FailuresLeave` | nodeagent/internal/networkprovider/release_interface.go:18-30 | A row that cannot be created and a link that cannot be removed leave slots and marks alone |
| `AddressTable.FailedCreateRestores` | nodeagent/internal/machineservice/create.go:55-71 | A machine creation that fails after its allocation leaves the slots as they were if and only if its single release gets past the kernel link |
| `AddressTable.UnsavedStaysUnsaved` | nodeagent/internal/networkprovider/release_interface.go:32-38 | A release whose save failed is never saved by a later retry |
| `AddressTable.UnsavedReleaseStealsSlot` | nodeagent/internal/networkprovider/release_interface.go:33-36 | Why saves must succeed: an unsaved release, a new allocation, a restart and a retry clear a live interface's slot |
| `NetworkProvider.Provider.constructor` | nodeagent/internal/networkprovider/provider.go:26-61 | The table over the loaded rows is the table of a restart |
| `NetworkProvider.ReserveSlots` | nodeagent/internal/networkprovider/provider.go:44-48 | Only the network's offset 0 and the gateway's offset 1 are taken |
| `NetworkProvider.ClaimSlots` | nodeagent/internal/networkprovider/provider.go:56-58 | Each unreleased row's offset bears its name afterwards, in row order |
| `NetworkProvider.Provider.FindAvailableOffset` | nodeagent/internal/networkprovider/allocate_interface.go:46-53 | First fit over the slot array |
| `NetworkProvider.Provider.AllocateInterface` | nodeagent/internal/networkprovider/allocate_interface.go:13-44 | Is the table's allocation: the lowest free slot with its name, address and hardware address; nil if and only if no slot is free or the row could not be created, and then nothing has changed |
| `NetworkProvider.Provider.ReleaseInterface` | nodeagent/internal/networkprovider/release_interface.go:13-41 | Is the table's release: only the interface's slot is cleared, and only the first time; succeeds if and only if the link is gone and the object was marked before or its row is saved now |
| `NetworkProvider.Provider.GetInterface` | nodeagent/internal/networkprovider/get_interface.go:8-19 | The reported address is the one the interface with that hardware address was allocated with |
| `MachineCreation.MachineService.Create` | nodeagent/internal/machineservice/create.go:13-75 | A machine exactly when every fetch, the allocation and both inserts succeed: Pending, wanting what was asked for, with a registered controller over its row, no runtime, and the interface and one volume per container held; on failure no controller, and the slots as before unless the link could not be removed |
| `MachineCreation.BuildVolumes` | nodeagent/internal/machineservice/create.go:23-53 | One volume per container at its position, if every image is found |
| `LogLines.SplitJoins` | init/internal/logservice/log_writer.go:45-59 | Lines and the rest after the last newline make up the bytes; each line has its only newline at its end |
| `LogLines.SplitUnique` | init/internal/logservice/log_writer.go:45-59 | Such a splitting is determined by the bytes |
| `LogLines.SplitInTwo` | init/internal/logservice/log_writer.go:43-52 | Splitting bytes that come in two parts takes the unfinished line of the first along |
| `LogWriter.ChunkIndependence` | init/internal/logservice/log_writer.go:39-67 | For any sequence of writes without errors the lines and the buffer depend only on the total bytes, and the buffer holds no newline |
| `LogWriter.OfferedLines` | init/internal/logservice/log_writer.go:39-67 | Whatever fails, the lines offered to the service are the first lines of the bytes, each once and in order, and the buffer holds exactly the rest |
| `LogWriter.DrainStops` | init/internal/logservice/log_writer.go:45-67 | A drain offers one line after another up to the first failed append and nothing after it; without a failure it leaves no line |
| `LogWriter.FailedDrain` | init/internal/logservice/log_writer.go:61-63 | After a failed append the failing line is gone and the rest of the bytes waits |
| `LogWriter.LineWriter.ReadString` | init/internal/logservice/log_writer.go:46-49 | Through the first newline, or all there is with end-of-file |
| `LogWriter.LineWriter.Write` | init/internal/logservice/log_writer.go:39-67 | The drain loop against its function: lines are offered up to the first failure, each offered line but a failed last one is in the log, as this stream's, and no line waits without a failure; the length reported is that of the bytes, or zero after a failed append |
| `LogWriter.Service.Write` | init/internal/logservice/service.go:40-61 | An entry is appended and given to every handler, or to nobody |
| `HostLog.ExactlyOnce` | vmruntime/internal/runtime/log.go:73-104 | If each connection delivers some prefix of one log, exactly the log's first entries have been handed to `writeLog`, in order, without gap or duplicate, as many as the longest prefix has |
| `HostLog.ReplayAdds` | vmruntime/internal/runtime/log.go:73-104 | From any record on, connections that deliver prefixes of one log hand on exactly its entries past the counter |
| `HostLog.ConnectionAdds` | vmruntime/internal/runtime/log.go:83-100 | For any connection at all: the counter becomes the maximum, and what lies past it is handed on |
| `HostLog.ConnectionStores` | vmruntime/internal/runtime/log.go:91-99 | What is stored is what could be written of it; the rest is counted and never offered again |
| `HostLog.StoresAllOrNothing` | vmruntime/internal/runtime/log.go:91-99 | If everything past the counter can be written all of it is stored, and if nothing can, nothing is |
| `HostLog.ExactIff` | vmruntime/internal/runtime/log.go:83-100 | The record stays exact if and only if what a connection delivers past the counter agrees with the log |
| `HostLog.SkippedForEver` | vmruntime/internal/runtime/log.go:83-100 | An entry that one connection skips is lost for good, whatever later connections deliver of the growing log: the next full connection records the last entry once more in its stead. The record is right if and only if all entries from the skipped one on are alike, as when the last one was skipped |
| `HostLog.LogManager.Listen` | vmruntime/internal/runtime/log.go:73-104 | The receive loop against its function |
| `LogPipeline.Fidelity` | init/internal/logservice/service.go:40-61 | Under every interleaving of writers, appends, reconnects and deliveries, the host's entries of a stream are the first lines of the bytes its container wrote, together a newline-terminated prefix of them |
| `LogPipeline.CaughtUp` | init/internal/logservice/service.go:40-61 | When no line waits and a connection has caught up, every finished line is recorded and only the unfinished last one is missing |
| `LogPipeline.GuestKeeps` | init/internal/logservice/log_writer.go:39-67 | Every step keeps, for every stream, lines in the one log plus buffer equal to the bytes fed |
| `LogPipeline.HostKeeps` | vmruntime/internal/runtime/log.go:83-100 | Every step keeps the host's record a prefix of the guest log and the connection no further than the counter |
| `LogPipeline.CallRuns` | init/internal/logservice/log_writer.go:39-67 | A whole `Write` call is a run of the pipeline's steps, and the log grows by exactly the lines the call completes |
| `LogPipeline.ConnectionRuns` | vmruntime/internal/runtime/log.go:73-104 | A connection that delivers any first part of the log is a run of the pipeline's steps, from the first entry again, and leaves the host as its receive loop does |
| `AgentSync.Converges` | nodeagent/internal/registrationservice/connection_machines.go:31-144 | From a quiet agent and distinct ids, after a successful synchronisation every way of draining leaves every listed controller wanting what the list says, every other one Terminated, and a controller for every id not wanted Terminated |
| `AgentSync.ConvergesIff` | nodeagent/internal/registrationservice/connection_machines.go:31-144 | For any agent: a controller ends up where the list wants it in every order of its messages if and only if no message pending from before says otherwise |
| `AgentSync.AddedIff` | nodeagent/internal/registrationservice/connection_machines.go:70-81 | Exactly the missing ids not wanted Terminated are added |
| `AgentSync.Idempotent` | nodeagent/internal/registrationservice/connection_machines.go:31-144 | Synchronising again creates nothing and leaves every desired state as it is |
| `AgentSync.UnlistedToldAgain` | nodeagent/internal/registrationservice/connection_machines.go:51-63 | An unlisted controller is told to terminate on every synchronisation |
| `AgentSync.HeadedForIff` | core/eventbus/bus.go:44-53 | A controller ends in one desired state in every order of its messages if and only if all of them say so, or none is pending and it is there |
| `AgentSync.Agent.SyncMachines` | nodeagent/internal/registrationservice/connection_machines.go:31-65 | Succeeds if and only if every spec does; then the state is the specified one; otherwise it is the effect of the specs up to the first failing one |
| `AgentSync.Agent.SyncMachineFromSpec` | nodeagent/internal/registrationservice/connection_machines.go:67-144 | Without a machine: created unless wanted Terminated; with one: told exactly of a change of mind; other controllers are left alone. On success the stored events are sent, in order, and after them the two invented ones exactly for a missing machine wanted Terminated; success by cases, with that many sends |
| `AgentSync.Agent.TerminateOthers` | nodeagent/internal/registrationservice/connection_machines.go:51-63 | Every controller without an expected machine gets one more message to terminate, whatever it wants already; the others are left alone |
| `AgentSync.Agent.UpdateDesiredState` | nodeagent/internal/machineservice/update_desired_state.go:9-17 | Not found, or one more message for that controller |
| `AgentSync.Agent.LoadMachines` | nodeagent/internal/machineservice/service.go:79-99 | One quiet controller for exactly the rows that are not terminated, wanting what the row says |
| `AgentRefinement.StepRefines` | nodeagent/internal/machineservice/machinecontroller/event_handler.go:28-34 | Every step of the controller machine is, in the agent's view, a message added, a message handled (with effect exactly when its save succeeds), or nothing |
| `AgentRefinement.RunRefines` | core/eventbus/bus.go:44-67 | However a controller runs on, with its desired states saved, it ends up wanting nothing its messages could not have led to |
| `AgentRefinement.HeadedForArrives` | nodeagent/internal/machineservice/machinecontroller/controller.go:136-140 | What a synchronisation leaves headed for a desired state wants it in every run that has handled its messages |
| `AgentRefinement.BootView` | nodeagent/internal/machineservice/machinecontroller/controller.go:42-77 | A new or reloaded controller wants what its row says and has no change pending |
| `AgentConvergence.ListedConverges` | nodeagent/internal/registrationservice/connection_machines.go:84-93 | From a quiet agent, after a successful synchronisation: every schedule of a listed controller wanted Pending or Running, from the settled state it was found in, with no new connection of its listener and Connected handled only while there is one (`ListenersPresent`), handles its desired-state messages and stops for good wanting what the list says, with nothing left to reconcile |
| `AgentConvergence.CreatedConverges` | nodeagent/internal/registrationservice/connection_machines.go:72-81 | The same of a controller the synchronisation has created, on every schedule without connections of a listener, the service's subscribing and registering included or done |
| `AgentConvergence.LoadedConverges` | nodeagent/internal/machineservice/service.go:79-107 | And of a controller loaded from its row, for what the row says |
| `AgentConvergence.HeadedForConverges` | nodeagent/internal/machineservice/machinecontroller/event_handler.go:16-45 | A settled controller headed for a desired state stops for good in it, on every schedule that meets the condition on listeners |
| `RestartLoop.BoundedStarts` | init/internal/containerservice/container.go:93-96 | On failure with m > 0 retries: exactly min(index of the first zero exit, m) + 1 starts, for every sequence of exits |
| `RestartLoop.UnboundedStarts` | init/internal/containerservice/container.go:93-96 | On failure without a bound: returns at the first zero exit, never when there is none |
| `RestartLoop.FailedStarts` | init/internal/containerservice/container.go:70-98 | A container that can never be started is started m + 1 times under a bound of m, and without a bound for ever |
| `RestartLoop.ZeroEnds` | init/internal/containerservice/container.go:93-96 | A first exit of zero within the bound, after failed starts and other exits, ends the loop there |
| `RestartLoop.SingleStart` | init/internal/containerservice/container.go:88-90 | No spec or "no": one start |
| `RestartLoop.NeverReturns` | init/internal/containerservice/container.go:62-100 | "always" never returns, and neither does the empty policy |
| `RestartLoop.AlwaysEndsIff` | init/internal/containerservice/container.go:62-100 | Which policies end whatever the container does |
| `RestartLoop.ReturnsOnce` | init/internal/containerservice/container.go:62-100 | The number of starts is determined by the exits |
| `RestartLoop.Container.Turn` | init/internal/containerservice/container.go:86-98 | One turn, by policy: "no" and no spec return, "always" and the empty policy go on, "on failure" returns exactly after an exit of zero or with no retry left, so not after a failed start with retries left; the event carries the count so far and no exit code for a failed start or a signal; the 32-bit count goes up when it goes on |
| `RestartLoop.Container.Run` | init/internal/containerservice/container.go:62-100 | The loop watched for any number of turns: returned exactly as the trace function says, restart count equal to the restarts made, one event a turn |
| `RestartLoop.Container.RunToEnd` | init/internal/containerservice/container.go:62-100 | With a bound the loop ends, retries left going down each turn |

## Left out

- The handler that stores events in the database (`events.go:19-117`): it reads the message and writes rows of its own; the controller's state does not depend on it.
- The dispatcher's end after `cancel`: an event may still be taken or not; the machine allows every further dispatch, so the shutdown barrier does not rest on it.
- The ten-second limit in `Stop` and all tickers, back-off and time stamps: a wait may end at any point, and `TerminatedAt`, `ReleasedAt` are reduced to whether they are set.
- Convergence for desired Terminated: the controller stops itself on that state change; `ShutdownBarrier` and `TerminatedMeansReleased` are what holds there.
- "A listener is present whenever the machine runs": not true step by step, since a cancelled listener that has not cleared itself yet makes an assessment skip the start.
- The deletion of the kernel link on release, which happens on every call and not once per object; the slot theorems are about the slot array.
- A 32-bit prefix: there the gateway's entry lies outside the array and `New` panics; `Provider.constructor` asks for at least one host bit.
- The four-byte normal form of addresses and the text form of hardware addresses: addresses are four bytes, hardware addresses six.
- `AllocatedAt` of interfaces and volumes, image pulls and storage beyond whether preparing succeeded.
- Bridge, firewall and tap set-up, processes, mounts, logical volumes, HTTP and gRPC plumbing, the gateway, the CLI: plumbing over libraries.
- The window between history and live handlers in `init/internal/logservice/read.go:20-27`, and guest reboots that truncate the log: a connection is taken to deliver a prefix of one log; `ExactIff` and `SkippedForEver` say what a hole does.
- JSON and protobuf encoding of log entries and events, and the serial-console log of the machine.
- Health checks of containers: they publish events of their own and do not touch the restart loop.
- Concurrent removal of a machine during a synchronisation: the not-found answer of the second loop is ignored in the code and does not occur here.
- The spelling of machine ids: they are numbers here, since they are only compared.
- Controller.MachineController: the object's methods run one at a time; interleavings are the machine's (`ControllerModel`), to whose steps the methods are tied.
