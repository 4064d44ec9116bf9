/**
  `SetState` as it is written: the snapshot is taken under a read lock that is released before the
  write lock is taken. The controller model takes the whole call as one step; here is what that
  assumption stands for, and exactly when a call meets it.
 */
module StateCell {
  import opened Options
  import opened MachineTypes
  import opened ControllerModel

  /** The updaters the controller passes to `SetState`. */
  datatype Update =
    | PutDesired(desired: DesiredState)
    | PutState(state: MachineState)
    | PutReconciliation(recon: Option<Reconciliation>)
    | PutListener(listener: Option<RuntimeListener>)
    | ClearErrors
    | CountError

  /** The updated copy, or nothing when the updater dereferences a listener that is not there. */
  function Updated(u: Update, s: State): Option<State> {
    match u
    case PutDesired(d) => Some(s.(machine := s.machine.(desired := d)))
    case PutState(st) => Some(s.(machine := WithState(s.machine, st)))
    case PutReconciliation(r) => Some(s.(recon := r))
    case PutListener(l) => Some(s.(listener := l))
    case ClearErrors =>
      if s.listener.None? then None else Some(s.(listener := Some(WithErrors(s.listener.value, 0))))
    case CountError =>
      if s.listener.None? then Some(s)
      else Some(s.(listener := Some(WithErrors(s.listener.value, s.listener.value.errors + 1))))
  }

  /** Two copies hold the same listener, whatever its count. */
  predicate SameThread(snapshot: State, now: State) {
    snapshot.listener.Some? && now.listener.Some? && snapshot.listener.value.thread == now.listener.value.thread
  }

  /** Nothing the updater does not write has changed between the snapshot and now. An increment reads the
      count it writes; a reset without a listener fails on either copy. */
  predicate OnlyTouched(u: Update, snapshot: State, now: State) {
    (u.ClearErrors? && snapshot.listener.None? && now.listener.None?) ||
    (&& (u.PutReconciliation? || snapshot.recon == now.recon)
     && (u.PutListener? || snapshot.listener == now.listener || (u.ClearErrors? && SameThread(snapshot, now)))
     && (u.PutDesired? || snapshot.machine.desired == now.machine.desired)
     && (u.PutState? || snapshot.machine.(desired := now.machine.desired) == now.machine))
  }

  class Cell {
    var state: State
    /** An updater has failed on a nil listener, which ends the process. */
    var crashed: bool

    constructor (s: State)
      ensures state == s && !crashed
    {
      state, crashed := s, false;
    }

    method GetState() returns (s: State)
      ensures s == state
    {
      s := state;
    }

    /** The part of `SetState` under the write lock: an updater that returns an error leaves the cell alone. */
    method Commit(snapshot: State, u: Update, ok: bool)
      modifies this
      ensures state == if ok && Updated(u, snapshot).Some? then Updated(u, snapshot).value else old(state)
      ensures crashed == (old(crashed) || Updated(u, snapshot).None?)
    {
      match Updated(u, snapshot)
      case None => crashed := true;
      case Some(s) => if ok { state := s; }
    }

    method SetState(u: Update, ok: bool)
      modifies this
      ensures state == if ok && Updated(u, old(state)).Some? then Updated(u, old(state)).value else old(state)
      ensures crashed == (old(crashed) || Updated(u, old(state)).None?)
    {
      var snapshot := GetState();
      Commit(snapshot, u, ok);
    }
  }

  /** What each updater leaves, field by field; only a reset can fail. */
  lemma UpdatedIs(u: Update, s: State)
    ensures Updated(u, s).None? <==> u == ClearErrors && s.listener == None
    ensures Updated(u, s).Some? ==>
      var t := Updated(u, s).value;
      && t.machine == Machine(if u.PutState? then u.state else s.machine.state,
                              if u.PutDesired? then u.desired else s.machine.desired,
                              if u.PutState? then u.state == Terminated else s.machine.terminatedAt)
      && t.recon == (if u.PutReconciliation? then u.recon else s.recon)
      && t.listener == (if u.PutListener? then u.listener
                        else if s.listener.None? then None
                        else Some(RuntimeListener(s.listener.value.thread,
                               if u.ClearErrors? then 0
                               else if u.CountError? then s.listener.value.errors + 1
                               else s.listener.value.errors)))
  {
  }

  /** The handler's saves and its count are such calls: what it leaves in memory is the updater's. */
  lemma HandlerUpdates(s: State, row: Machine, d: DesiredState, st: MachineState)
    ensures Handle(s, row, DesiredStateChanged(d), true).state == Updated(PutDesired(d), s).value
    ensures Handle(s, row, StateChanged(st), true).state == Updated(PutState(st), s).value
    ensures Handle(s, row, ListenerDisconnected, true).state == Updated(CountError, s).value
  {
  }

  /** A call that another update overtakes is as good as an atomic one exactly when the other update
      stayed within what this call writes without reading it. */
  lemma AtomicIff(u: Update, snapshot: State, now: State)
    ensures Updated(u, snapshot) == Updated(u, now) <==> OnlyTouched(u, snapshot, now)
  {
  }

  /** A worker clearing its reconciliation around a save of a new machine state undoes that save in
      memory, so memory and row part, for every state and every real change. */
  lemma OvertakenClearLosesState(s: State, st: MachineState)
    requires st != s.machine.state
    ensures var row := WithState(s.machine, st);
            var now := Updated(PutState(st), s).value;
            now.machine == row && Updated(PutReconciliation(None), s).value.machine != row
  {
  }

  /** An overtaken increment brings back the count from before a reset, for every listener with failures. */
  lemma OvertakenIncrementForgetsReset(s: State)
    requires s.listener.Some? && s.listener.value.errors > 0
    ensures var now := Updated(ClearErrors, s).value;
            Updated(CountError, s) != Updated(CountError, now)
  {
  }

  /** What a call leaves: its update, or the old state when its updater fails on a nil listener. */
  function Left(u: Update, s: State): State {
    if Updated(u, s).Some? then Updated(u, s).value else s
  }

  /** The two halves of one call with another call in between, run on the cell: it leaves what the two would
      leave one after the other if and only if the other one kept to the condition. */
  method Overtaken(c: Cell, u: Update, v: Update)
    modifies c
    ensures c.state == if Updated(u, old(c.state)).Some? then Left(u, old(c.state)) else Left(v, old(c.state))
    ensures c.crashed == (old(c.crashed) || Updated(u, old(c.state)).None? || Updated(v, old(c.state)).None?)
    ensures Updated(u, old(c.state)) == Updated(u, Left(v, old(c.state))) <==>
      OnlyTouched(u, old(c.state), Left(v, old(c.state)))
  {
    var snapshot := c.GetState();
    c.SetState(v, true);
    c.Commit(snapshot, u, true);
    AtomicIff(u, snapshot, Left(v, snapshot));
  }
}
