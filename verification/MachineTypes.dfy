/** States, desired states and bus messages of one machine (core/types/machine.go, machinecontroller/event.go). */
module MachineTypes {
  datatype MachineState =
    Pending | Starting | Running | Degraded | Error | Terminating | Terminated | Unknown

  datatype DesiredState = WantPending | WantRunning | WantTerminated | WantUnknown

  /** The persisted columns of a machine. The time stamp is reduced to whether it is set. */
  datatype Machine = Machine(state: MachineState, desired: DesiredState, terminatedAt: bool)

  datatype Message =
    | AssessState
    | DesiredStateChanged(desired: DesiredState)
    | StateChanged(state: MachineState)
    | ReconciliationComplete(success: bool)
    | ContainerStateChanged
    | ListenerConnected
    | ListenerDisconnected

  predicate ShouldReconcile(m: Machine) {
    match m.desired
    case WantPending => m.state != Pending
    case WantRunning => m.state != Running && m.state != Degraded
    case WantTerminated => m.state != Terminated
    case WantUnknown => false
  }

  predicate ShouldListen(m: Machine) {
    m.state == Running || m.state == Degraded
  }
}
