/**
  The agent's view of a controller, its desired state and the desired-state messages still to be handled,
  is what the controller's own steps make of it: nothing but `SetDesiredState` adds a message, and nothing
  but handling one changes the desired state.
 */
module AgentRefinement {
  import opened MachineTypes
  import opened ControllerModel
  import opened ControllerSafety
  import opened ControllerTheorems
  import AgentSync

  /** How many changes to `d` are pending or about to be handled. */
  function Changes(s: Sys, d: DesiredState): nat {
    s.bus[DesiredStateChanged(d)] + if s.core == Begin(DesiredStateChanged(d)) then 1 else 0
  }

  function Wanted(s: Sys): multiset<DesiredState> {
    multiset{}[WantPending := Changes(s, WantPending)][WantRunning := Changes(s, WantRunning)]
      [WantTerminated := Changes(s, WantTerminated)][WantUnknown := Changes(s, WantUnknown)]
  }

  lemma WantedIs(s: Sys, d: DesiredState)
    ensures Wanted(s)[d] == Changes(s, d)
  {
    match d
    case WantPending =>
    case WantRunning =>
    case WantTerminated =>
    case WantUnknown =>
  }

  function View(s: Sys): AgentSync.Ctrl {
    AgentSync.Ctrl(s.state.machine.desired, Wanted(s))
  }

  /** The message whose handling the step is, if it is a desired-state message. */
  predicate Handles(s: Sys, a: Action, d: DesiredState) {
    a.Core? && s.core == Begin(DesiredStateChanged(d))
  }

  /** A controller just created or reloaded wants what its row says and has nothing pending. */
  lemma BootView(row: Machine, res: Resources)
    ensures View(Boot(row, res)) == AgentSync.Ctrl(row.desired, multiset{})
  {
    forall d ensures Wanted(Boot(row, res))[d] == 0 { WantedIs(Boot(row, res), d); }
  }

  /** Handling a desired-state message puts the machine on it when the save succeeds. */
  function DesiredAfter(s: Sys, a: Action): DesiredState {
    if a.Core? && a.dbOk && s.core.Begin? && s.core.message.DesiredStateChanged? then s.core.message.desired
    else s.state.machine.desired
  }

  function WantedAfter(s: Sys, a: Action): multiset<DesiredState> {
    if a.Desire? then Wanted(s) + multiset{a.desired}
    else if a.Core? && s.core.Begin? && s.core.message.DesiredStateChanged? then
      Wanted(s) - multiset{s.core.message.desired}
    else Wanted(s)
  }

  lemma QuietEmits(s: Sys, a: Action, d: DesiredState)
    requires Enabled(s, a) && !a.Desire?
    ensures DesiredStateChanged(d) !in Emits(s, a)
  {
    match a
    case Work(id, o) => QuietAdvance(s.workers[id], s.res, o, d);
    case _ =>
  }

  lemma QuietAdvance(w: Worker, r: Resources, o: Outcome, d: DesiredState)
    ensures DesiredStateChanged(d) !in Advance(w, r, o).published
  {
  }

  lemma CoreChanges(s: Sys, dbOk: bool, d: DesiredState)
    requires s.core != CoreIdle
    ensures Changes(CoreStep(s, dbOk), d) ==
      Changes(s, d) - if s.core == Begin(DesiredStateChanged(d)) then 1 else 0
  {
    CoreBus(s, dbOk);
    match s.core
    case Listen(snapshot) => ListenFrame(s, snapshot);
    case _ =>
  }

  lemma SameCore(s: Sys, a: Action)
    requires Enabled(s, a) && !a.Core? && !a.Pick? && !a.Restart?
    ensures Apply(s, a).core == s.core
  {
    if a.Term? { TermFrame(s); }
  }

  lemma OtherChanges(s: Sys, a: Action, d: DesiredState)
    requires Enabled(s, a) && !a.Core? && !a.Pick? && !a.Restart?
    ensures Changes(Apply(s, a), d) == Changes(s, d) + if a == Desire(d) then 1 else 0
  {
    SameCore(s, a);
    ApplyBus(s, a);
    if !a.Desire? { QuietEmits(s, a, d); }
  }

  lemma PickChanges(s: Sys, m: Message, d: DesiredState)
    requires Enabled(s, Pick(m))
    ensures Changes(Apply(s, Pick(m)), d) == Changes(s, d)
  {
  }

  lemma StepChanges(s: Sys, a: Action, d: DesiredState)
    requires Enabled(s, a) && !a.Restart?
    ensures Changes(Apply(s, a), d) ==
      Changes(s, d) + (if a == Desire(d) then 1 else 0) - (if Handles(s, a, d) then 1 else 0)
  {
    match a
    case Core(dbOk) => CoreChanges(s, dbOk, d);
    case Pick(m) => PickChanges(s, m, d);
    case _ => OtherChanges(s, a, d);
  }

  lemma HandleDesired(st: State, row: Machine, m: Message, dbOk: bool)
    ensures Handle(st, row, m, dbOk).state.machine.desired ==
      if m.DesiredStateChanged? && dbOk then m.desired else st.machine.desired
  {
  }

  lemma CoreDesired(s: Sys, dbOk: bool)
    requires s.core != CoreIdle
    ensures CoreStep(s, dbOk).state.machine.desired == DesiredAfter(s, Core(dbOk))
  {
    match s.core
    case Begin(m) => HandleDesired(s.state, s.row, m, dbOk);
    case _ =>
  }

  lemma StepDesired(s: Sys, a: Action)
    requires Enabled(s, a) && !a.Restart?
    ensures Apply(s, a).state.machine.desired == DesiredAfter(s, a)
  {
    match a
    case Core(dbOk) => CoreDesired(s, dbOk);
    case Term => TermFrame(s);
    case _ =>
  }

  lemma WantedAfterIs(s: Sys, a: Action, d: DesiredState)
    requires Enabled(s, a) && !a.Restart?
    ensures WantedAfter(s, a)[d] ==
      Changes(s, d) + (if a == Desire(d) then 1 else 0) - (if Handles(s, a, d) then 1 else 0)
  {
    WantedIs(s, d);
  }

  lemma StepWanted(s: Sys, a: Action, t: Sys, d: DesiredState)
    requires Enabled(s, a) && !a.Restart? && t == Apply(s, a)
    ensures Wanted(t)[d] == WantedAfter(s, a)[d]
  {
    StepChanges(s, a, d);
    WantedAfterIs(s, a, d);
    WantedIs(t, d);
  }

  /** Every step of a controller is, in the agent's view, a message added, a message handled (with or without
      effect, as its save succeeds), or nothing. */
  lemma StepRefines(s: Sys, a: Action)
    requires Enabled(s, a) && !a.Restart?
    ensures View(Apply(s, a)) == AgentSync.Ctrl(DesiredAfter(s, a), WantedAfter(s, a))
  {
    StepDesired(s, a);
    var t := Apply(s, a);
    forall d ensures Wanted(t)[d] == WantedAfter(s, a)[d] { StepWanted(s, a, t, d); }
  }

  /** A step of this process that sets no desired state, and does not fail to save one. */
  predicate DesiresSaved(s: Sys, a: Action) {
    !a.Restart? && !a.Desire? && (a.Core? && s.core.Begin? && s.core.message.DesiredStateChanged? ==> a.dbOk)
  }

  lemma HandledEndsIn(c: AgentSync.Ctrl, d: DesiredState, e: DesiredState)
    requires d in c.pending && AgentSync.CanEndIn(AgentSync.Ctrl(d, c.pending - multiset{d}), e)
    ensures AgentSync.CanEndIn(c, e)
  {
    AgentSync.EndsInPending(AgentSync.Ctrl(d, c.pending - multiset{d}), e);
    AgentSync.PendingEndsIn(c, e);
  }

  lemma StepEndsIn(s: Sys, a: Action, d: DesiredState)
    requires Enabled(s, a) && DesiresSaved(s, a) && AgentSync.CanEndIn(View(Apply(s, a)), d)
    ensures AgentSync.CanEndIn(View(s), d)
  {
    StepRefines(s, a);
    var e := DesiredAfter(s, a);
    if Handles(s, a, e) {
      WantedIs(s, e);
      HandledEndsIn(View(s), e, d);
    }
  }

  /** However a controller runs on, it ends up wanting nothing its messages could not have led to. */
  lemma {:induction false} RunRefines(s: Sys, run: seq<Action>, d: DesiredState)
    requires Legal(s, run) && Obeys(s, run, DesiresSaved) && AgentSync.CanEndIn(View(Exec(s, run)), d)
    ensures AgentSync.CanEndIn(View(s), d)
    decreases |run|
  {
    if run != [] {
      RunRefines(Apply(s, run[0]), run[1..], d);
      StepEndsIn(s, run[0], d);
    }
  }

  /** A controller headed for `d` in the agent's view, as a synchronisation leaves it, wants `d` in every
      run in which its desired-state messages have all been handled. */
  lemma HeadedForArrives(s: Sys, run: seq<Action>, d: DesiredState)
    requires AgentSync.HeadedFor(View(s), d) && Legal(s, run) && Obeys(s, run, DesiresSaved)
    requires Wanted(Exec(s, run)) == multiset{}
    ensures Exec(s, run).state.machine.desired == d
  {
    var e := Exec(s, run).state.machine.desired;
    AgentSync.PendingEndsIn(View(Exec(s, run)), e);
    RunRefines(s, run, e);
  }
}
