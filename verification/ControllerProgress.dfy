/** A machine that needs reconciling is always going to be looked at again, when the worker's last
    publish and its clear are one step; and exactly when it is not, when they are two. */
module ControllerProgress {
  import opened Options
  import opened MachineTypes
  import opened ControllerModel
  import opened ControllerSafety
  import opened ControllerTheorems

  predicate WakesUp(m: Message) {
    m.AssessState? || m.StateChanged? || m.DesiredStateChanged?
  }

  /** These are the messages whose handling ends in an assessment or in publishing one. */
  lemma WakesUpIff(st: State, row: Machine, m: Message, dbOk: bool)
    ensures var rest := Handle(st, row, m, dbOk).rest;
            WakesUp(m) <==> rest == Decide(st) || rest == PublishAssess
  {
  }

  /** An assessment is coming: a message that leads to one is pending or being handled. */
  ghost predicate Wakeup(s: Sys) {
    (exists m :: m in s.bus && WakesUp(m)) ||
    (s.core.Begin? && WakesUp(s.core.message)) || s.core.Decide? || s.core == PublishAssess
  }

  /** Reconciliation is needed, no worker is at it and no assessment is coming. */
  ghost predicate Stuck(s: Sys) {
    !s.crashed && !s.stopping && ShouldReconcile(s.state.machine) && s.workers == map[] && !Wakeup(s)
  }

  /** A worker clears its reconciliation while one is needed and no assessment is coming. */
  ghost predicate Strands(s: Sys, a: Action) {
    && a.Work? && a.worker in s.workers && s.workers[a.worker].pc == Published
    && !s.crashed && !s.stopping && ShouldReconcile(s.state.machine) && !Wakeup(s)
  }

  lemma CoreProgress(s: Sys, dbOk: bool)
    requires Inv(s) && !Stuck(s) && s.core != CoreIdle && !s.crashed
    ensures !Stuck(CoreStep(s, dbOk))
  {
    var t := CoreStep(s, dbOk);
    CoreBus(s, dbOk);
    match s.core
    case Begin(m) => assert WakesUp(m) ==> t.core.Decide? || t.core == PublishAssess;
    case Decide(snapshot) =>
      if s.state.recon.Some? { assert s.state.recon.value.worker in t.workers; }
      else if ShouldReconcile(s.state.machine) && !s.stopping { assert s.nextId in t.workers; }
    case PublishAssess => assert AssessState in t.bus;
    case Listen(snapshot) => ListenFrame(s, snapshot);
    case _ =>
  }

  lemma WorkProgress(s: Sys, id: nat, o: Outcome)
    requires Inv(s) && !Stuck(s) && id in s.workers && !s.crashed
    ensures Stuck(WorkStep(s, id, o)) <==> Strands(s, Work(id, o))
  {
    if s.workers[id].pc != Published {
      assert id in WorkStep(s, id, o).workers;
    } else {
      assert s.workers.Keys == {id};
      assert WorkStep(s, id, o).workers == map[];
    }
  }

  /** More messages and the same handler, machine and workers: still not stuck. */
  lemma MoreMessages(s: Sys, t: Sys)
    requires !Stuck(s) && s.bus <= t.bus && t.core == s.core && t.state.machine == s.state.machine
    requires t.workers.Keys == s.workers.Keys && t.crashed == s.crashed && (s.stopping ==> t.stopping)
    ensures !Stuck(t)
  {
    if s.workers != map[] { var id :| id in s.workers; assert id in t.workers; }
  }

  lemma PickProgress(s: Sys, m: Message)
    requires !Stuck(s) && Enabled(s, Pick(m))
    ensures !Stuck(Apply(s, Pick(m)))
  {
    var t := Apply(s, Pick(m));
    assert t.bus + multiset{m} == s.bus;
    if s.crashed || s.stopping || s.workers != map[] {
    } else if ShouldReconcile(s.state.machine) {
      var w :| w in s.bus && WakesUp(w);
      assert w in t.bus || w == m;
    }
  }

  /** From a state that is not stuck, the next one is stuck exactly when the step strands the machine. */
  lemma StuckIffStranded(s: Sys, a: Action)
    requires Inv(s) && !Stuck(s) && Enabled(s, a)
    ensures Stuck(Apply(s, a)) <==> Strands(s, a)
  {
    match a
    case Core(dbOk) => CoreProgress(s, dbOk);
    case Work(id, o) => WorkProgress(s, id, o);
    case Pick(m) => PickProgress(s, m);
    case Restart => assert AssessState in Apply(s, a).bus;
    case Finish(id) => assert StateChanged(s.workers[id].pc.result) in Apply(s, a).bus;
    case Term => TermFrame(s); MoreMessages(s, TermStep(s));
    case Desire(d) => MoreMessages(s, Apply(s, a));
    case Hear(id, h) => MoreMessages(s, HearStep(s, id, h));
    case _ => MoreMessages(s, Apply(s, a));
  }

  // ---------------------------------------------------------------- stuck for ever

  predicate Inert(m: Message) {
    m.ReconciliationComplete? || m == ContainerStateChanged
  }

  /** Stuck, and no listener is left that could still announce something. */
  ghost predicate Deserted(s: Sys) {
    && Stuck(s) && s.threads == map[] && (forall m :: m in s.bus ==> Inert(m))
    && (s.core == CoreIdle || (s.core.Begin? && Inert(s.core.message)))
    && (s.term == TermIdle || (s.term.TermBegin? && s.term.message != StateChanged(Terminated)))
  }

  predicate LeftAlone(s: Sys, a: Action) {
    !a.Desire? && !a.Restart?
  }

  lemma DesertedPick(s: Sys, m: Message)
    requires Deserted(s) && Enabled(s, Pick(m))
    ensures Deserted(Apply(s, Pick(m)))
  {
    var t := Apply(s, Pick(m));
    assert t.bus + multiset{m} == s.bus;
  }

  lemma DesertedStep(s: Sys, a: Action)
    requires Deserted(s) && Enabled(s, a) && LeftAlone(s, a)
    ensures Deserted(Apply(s, a)) && Apply(s, a).state.machine == s.state.machine
  {
    match a
    case Pick(m) => DesertedPick(s, m);
    case Core(dbOk) =>
      assert CoreStep(s, dbOk).bus == s.bus + multiset{};
    case _ =>
  }

  /** Such a controller stays so in every run until a desired state is set or the process starts over. */
  lemma {:induction false} DesertedForEver(s: Sys, run: seq<Action>)
    requires Deserted(s) && Legal(s, run) && Obeys(s, run, LeftAlone)
    ensures Deserted(Exec(s, run)) && Exec(s, run).state.machine == s.state.machine
    decreases |run|
  {
    if run != [] {
      DesertedStep(s, run[0]);
      DesertedForEver(Apply(s, run[0]), run[1..]);
    }
  }

  // ---------------------------------------------------------------- what gets a controller stuck

  /** The recorded reconciliation's worker has made its last publish and has still to clear itself. */
  predicate LeftToClear(s: Sys) {
    s.state.recon.Some? && s.state.recon.value.worker in s.workers &&
    s.workers[s.state.recon.value.worker].pc == Published
  }

  /** The step is not an assessment that calls for a reconciliation and is turned away by such a record. */
  predicate SkipsNone(s: Sys, a: Action) {
    !(a.Core? && s.core.Decide? && ShouldReconcile(s.core.snapshot.machine) && LeftToClear(s))
  }

  /** While a worker has still to clear itself, an assessment of what it announced is on its way. */
  ghost predicate Awake(s: Sys) {
    LeftToClear(s) && !s.crashed && !s.stopping && ShouldReconcile(s.state.machine) ==> Wakeup(s)
  }

  lemma CoreAwake(s: Sys, dbOk: bool)
    requires Inv(s) && Awake(s) && s.core != CoreIdle && !s.crashed && SkipsNone(s, Core(dbOk))
    ensures Awake(CoreStep(s, dbOk))
  {
    var t := CoreStep(s, dbOk);
    CoreBus(s, dbOk);
    match s.core
    case Begin(m) => assert WakesUp(m) ==> t.core.Decide? || t.core == PublishAssess;
    case PublishAssess => assert AssessState in t.bus;
    case Listen(snapshot) => ListenFrame(s, snapshot);
    case _ =>
  }

  lemma PickAwake(s: Sys, m: Message)
    requires Awake(s) && Enabled(s, Pick(m))
    ensures Awake(Apply(s, Pick(m)))
  {
    var t := Apply(s, Pick(m));
    assert t.bus + multiset{m} == s.bus;
    if LeftToClear(s) && !s.stopping && ShouldReconcile(s.state.machine) {
      var w :| w in s.bus && WakesUp(w);
      assert w in t.bus || w == m;
    }
  }

  lemma WorkAwake(s: Sys, id: nat, o: Outcome)
    requires Inv(s) && id in s.workers
    ensures Awake(WorkStep(s, id, o))
  {
    var t := WorkStep(s, id, o);
    AdvancePublishes(s.workers[id], s.res, o);
    if LeftToClear(t) {
      assert s.workers[id].pc.Done?;
      assert StateChanged(s.workers[id].pc.result) in t.bus;
    }
  }

  /** More messages and the same handler, machine and workers. */
  lemma MoreAwake(s: Sys, t: Sys)
    requires Awake(s) && s.bus <= t.bus && t.core == s.core && t.state.machine == s.state.machine
    requires t.state.recon == s.state.recon && t.workers.Keys == s.workers.Keys
    requires forall id :: id in s.workers ==> t.workers[id].pc == s.workers[id].pc
    requires t.crashed == s.crashed && (s.stopping ==> t.stopping)
    ensures Awake(t)
  {
  }

  lemma AwakeStep(s: Sys, a: Action)
    requires Inv(s) && Awake(s) && Enabled(s, a) && SkipsNone(s, a)
    ensures Awake(Apply(s, a))
  {
    match a
    case Core(dbOk) => CoreAwake(s, dbOk);
    case Work(id, o) => WorkAwake(s, id, o);
    case Pick(m) => PickAwake(s, m);
    case Finish(id) =>
    case Restart =>
    case Term => TermFrame(s); MoreAwake(s, TermStep(s));
    case Hear(id, h) => MoreAwake(s, HearStep(s, id, h));
    case _ => MoreAwake(s, Apply(s, a));
  }

  lemma {:induction false} AwakeRun(s: Sys, run: seq<Action>)
    requires Inv(s) && !Stuck(s) && Awake(s) && Legal(s, run) && Obeys(s, run, SkipsNone)
    ensures !Stuck(Exec(s, run)) && Awake(Exec(s, run))
    decreases |run|
  {
    if run != [] {
      InvStep(s, run[0]);
      AwakeStep(s, run[0]);
      AwakeNotStranded(s, run[0]);
      StuckIffStranded(s, run[0]);
      AwakeRun(Apply(s, run[0]), run[1..]);
    }
  }

  lemma AwakeNotStranded(s: Sys, a: Action)
    requires Inv(s) && Awake(s)
    ensures !Strands(s, a)
  {
  }

  /** The machine with publish and clear as two steps gets stuck only after turning an assessment away: as
      long as none that calls for a reconciliation is decided between a worker's last publish and its clear,
      no reachable state is stuck. */
  lemma NeverStuckUnlessSkipped(s: Sys)
    requires ReachableUnder(s, SkipsNone)
    ensures !Stuck(s)
  {
    var row, res, run :|
      LiveRow(row) && Legal(Boot(row, res), run) && Obeys(Boot(row, res), run, SkipsNone) &&
      s == Exec(Boot(row, res), run);
    BootInv(row, res);
    assert AssessState in Boot(row, res).bus;
    AwakeRun(Boot(row, res), run);
  }

  // ---------------------------------------------------------------- publish and clear as one step

  /** The worker's last publish is taken together with its clear. */
  predicate PublishClears(s: Sys, a: Action) {
    !(a.Work? && a.worker in s.workers && s.workers[a.worker].pc.Done?)
  }

  ghost predicate NonePublished(s: Sys) {
    forall id :: id in s.workers ==> s.workers[id].pc != Published
  }

  lemma AdvancePublishes(w: Worker, r: Resources, o: Outcome)
    ensures Advance(w, r, o).worker.pc == Published <==> w.pc == Published || w.pc.Done?
  {
  }

  lemma NonePublishedStep(s: Sys, a: Action)
    requires NonePublished(s) && Enabled(s, a) && PublishClears(s, a)
    ensures NonePublished(Apply(s, a))
  {
    match a
    case Core(dbOk) => CoreFrame(s, dbOk);
    case Work(id, o) => AdvancePublishes(s.workers[id], s.res, o);
    case Term => TermFrame(s);
    case _ =>
  }

  /** Then no worker is ever left to clear itself, so no assessment is turned away by one. */
  lemma {:induction false} NoneSkipped(s: Sys, run: seq<Action>)
    requires Inv(s) && NonePublished(s) && Legal(s, run) && Obeys(s, run, PublishClears)
    ensures Obeys(s, run, SkipsNone) && NonePublished(Exec(s, run))
    decreases |run|
  {
    if run != [] {
      InvStep(s, run[0]);
      NonePublishedStep(s, run[0]);
      NoneSkipped(Apply(s, run[0]), run[1..]);
    }
  }

  /** With publish and clear as one step, no reachable state is stuck: whenever no worker is in flight and no
      assessment is coming, a machine wanted Pending is Pending, one wanted Running is Running or Degraded, and
      one wanted Terminated is Terminated. */
  lemma NeverStuck(s: Sys)
    requires ReachableUnder(s, PublishClears)
    ensures !Stuck(s) && NonePublished(s)
    ensures
      && !s.crashed && !s.stopping && s.workers == map[] && !s.core.Decide? && s.core != PublishAssess
      && (forall m :: m in s.bus || s.core == Begin(m) ==>
            !m.AssessState? && !m.StateChanged? && !m.DesiredStateChanged?)
      ==>
      && (s.row.desired == WantPending ==> s.row.state == Pending)
      && (s.row.desired == WantRunning ==> s.row.state == Running || s.row.state == Degraded)
      && (s.row.desired == WantTerminated ==> s.row.state == Terminated)
  {
    var row, res, run :|
      LiveRow(row) && Legal(Boot(row, res), run) && Obeys(Boot(row, res), run, PublishClears) &&
      s == Exec(Boot(row, res), run);
    BootInv(row, res);
    NoneSkipped(Boot(row, res), run);
    NeverStuckUnlessSkipped(s);
    ReachableUnderInv(s, PublishClears);
  }

  // ---------------------------------------------------------------- and as two

  lemma {:induction false} ExecAppend(s: Sys, run: seq<Action>, a: Action)
    requires Legal(s, run) && Enabled(Exec(s, run), a)
    ensures Legal(s, run + [a]) && Exec(s, run + [a]) == Apply(Exec(s, run), a)
    decreases |run|
  {
    if run == [] {
      assert run + [a] == [a];
    } else {
      ExecAppend(Apply(s, run[0]), run[1..], a);
      assert (run + [a])[1..] == run[1..] + [a];
    }
  }

  lemma ReachableStep(s: Sys, a: Action)
    requires Reachable(s) && Enabled(s, a)
    ensures Reachable(Apply(s, a))
  {
    var row, res, run :| LiveRow(row) && Legal(Boot(row, res), run) && s == Exec(Boot(row, res), run);
    ExecAppend(Boot(row, res), run, a);
  }

  lemma ReachableBoot(row: Machine, res: Resources)
    requires LiveRow(row)
    ensures Reachable(Boot(row, res))
  {
    assert Legal(Boot(row, res), []) && Boot(row, res) == Exec(Boot(row, res), []);
  }

  /** A set of states that no step leaves. */
  ghost predicate StepClosed(r: Sys -> bool) {
    forall s, a :: r(s) && Enabled(s, a) ==> r(Apply(s, a))
  }

  lemma Take(r: Sys -> bool, s: Sys, a: Action) returns (t: Sys)
    requires StepClosed(r) && r(s) && Enabled(s, a)
    ensures r(t) && t == Apply(s, a)
  {
    t := Apply(s, a);
  }

  lemma AssessBegun(r: Sys -> bool, s: Sys) returns (t: Sys)
    requires StepClosed(r) && r(s) && Enabled(s, Pick(AssessState)) && s.phase == Fresh
    ensures r(t) && t == s.(bus := s.bus - multiset{AssessState}, core := Decide(s.state))
  {
    var s1 := Take(r, s, Pick(AssessState));
    assert s1 == s.(bus := s.bus - multiset{AssessState}, core := Begin(AssessState));
    t := Take(r, s1, Core(true));
  }

  lemma AssessDecided(r: Sys -> bool, s: Sys) returns (t: Sys)
    requires StepClosed(r) && r(s) && !s.crashed && s.core == Decide(s.state)
    ensures r(t) && t == (if ShouldReconcile(s.state.machine) then Launch(s) else s).(core := Listen(s.state))
  {
    t := Take(r, s, Core(true));
  }

  lemma AssessEnded(r: Sys -> bool, s: Sys, snapshot: State) returns (t: Sys)
    requires StepClosed(r) && r(s) && !s.crashed && s.core == Listen(snapshot)
    ensures r(t) && t == ListenStep(s, snapshot).(core := CoreIdle)
  {
    t := Take(r, s, Core(true));
  }

  /** The dispatcher takes an AssessState and its whole handling runs without interruption. */
  lemma Assessed(r: Sys -> bool, s: Sys) returns (t: Sys)
    requires StepClosed(r) && r(s) && Enabled(s, Pick(AssessState)) && s.phase == Fresh
    ensures r(t)
    ensures var u := s.(bus := s.bus - multiset{AssessState}, core := Decide(s.state));
            var v := (if ShouldReconcile(s.state.machine) then Launch(u) else u).(core := Listen(s.state));
            t == ListenStep(v, s.state).(core := CoreIdle)
  {
    t := AssessBegun(r, s);
    t := AssessDecided(r, t);
    t := AssessEnded(r, t, s.state);
  }

  lemma StateChangedHandled(r: Sys -> bool, s: Sys, st: MachineState) returns (t: Sys)
    requires StepClosed(r) && r(s) && Enabled(s, Pick(StateChanged(st))) && s.phase == Fresh
    ensures r(t)
    ensures t == s.(state := s.state.(machine := WithState(s.state.machine, st)), row := WithState(s.row, st),
                    bus := s.bus - multiset{StateChanged(st)} + multiset{AssessState})
  {
    var s1 := Take(r, s, Pick(StateChanged(st)));
    var s2 := Take(r, s1, Core(true));
    assert s2.core == PublishAssess;
    t := Take(r, s2, Core(true));
  }

  /** A worker that is launched for a machine in Starting and fails to prepare it, up to its last publish. */
  lemma FailedWorker(r: Sys -> bool, s: Sys) returns (t: Sys)
    requires StepClosed(r) && r(s) && 0 in s.workers && !s.crashed
    requires s.workers[0].pc == RunningAnnounce && s.workers[0].snapshot.state == Starting
    ensures r(t)
    ensures t == s.(workers := s.workers[0 := s.workers[0].(pc := Published)], bus := s.bus + Result(Error, false))
  {
    var failing := Outcome(false, false, false);
    var s1 := Take(r, s, Work(0, failing));
    assert s1.workers == s.workers[0 := s.workers[0].(pc := RunningPrepare)];
    var s2 := Take(r, s1, Work(0, failing));
    assert s2.workers == s.workers[0 := s.workers[0].(pc := FAILED)];
    t := Take(r, s2, Work(0, failing));
    assert t.workers == s.workers[0 := s.workers[0].(pc := Published)];
  }

  /** A worker launched in Starting has announced its failure, and has still to clear itself. */
  function FailedStart(st: MachineState, bus: multiset<Message>): Sys {
    var row := Machine(st, WantRunning, false);
    Boot(row, Resources(false, Held, [])).(
      state := State(row, Some(Reconciliation(0, WantRunning)), None),
      workers := map[0 := Worker(WantRunning, Machine(Starting, WantRunning, false), Published, false, false)],
      nextId := 1, bus := bus)
  }

  lemma FailedStartHappens(r: Sys -> bool)
    requires StepClosed(r) && r(Boot(Machine(Starting, WantRunning, false), Resources(false, Held, [])))
    ensures r(FailedStart(Starting, Result(Error, false)))
  {
    var s1 := Assessed(r, Boot(Machine(Starting, WantRunning, false), Resources(false, Held, [])));
    assert s1.workers[0].pc == RunningAnnounce && s1.bus == multiset{};
    var s2 := FailedWorker(r, s1);
    assert s2.bus == Result(Error, false);
    assert s2 == FailedStart(Starting, Result(Error, false));
  }

  lemma FailureHandled(r: Sys -> bool)
    requires StepClosed(r) && r(FailedStart(Starting, Result(Error, false)))
    ensures r(FailedStart(Error, multiset{ReconciliationComplete(false), AssessState}))
  {
    var s := FailedStart(Starting, Result(Error, false));
    var t := StateChangedHandled(r, s, Error);
    assert t.bus == multiset{ReconciliationComplete(false), AssessState};
    assert t == FailedStart(Error, multiset{ReconciliationComplete(false), AssessState});
  }

  lemma AssessmentSkipped(r: Sys -> bool)
    requires StepClosed(r) && r(FailedStart(Error, multiset{ReconciliationComplete(false), AssessState}))
    ensures r(FailedStart(Error, multiset{ReconciliationComplete(false)}))
  {
    var t := Assessed(r, FailedStart(Error, multiset{ReconciliationComplete(false), AssessState}));
    assert t.bus == multiset{ReconciliationComplete(false)};
    assert t == FailedStart(Error, multiset{ReconciliationComplete(false)});
  }

  lemma FailedStartSticks(r: Sys -> bool)
    requires StepClosed(r) && r(FailedStart(Error, multiset{ReconciliationComplete(false)}))
    ensures exists s :: r(s) && Deserted(s) && s.state.machine == Machine(Error, WantRunning, false)
  {
    var t := Take(r, FailedStart(Error, multiset{ReconciliationComplete(false)}), Work(0, Outcome(true, true, true)));
    assert t.workers == map[] && t.bus == multiset{ReconciliationComplete(false)};
    assert Deserted(t);
  }

  /** Taken as two steps, an assessment between them is skipped and nothing retries it: a machine reloaded
      in Starting whose preparation fails is deserted in Error, wanted Running. */
  lemma LiteralGetsStuck()
    ensures exists s :: Reachable(s) && Deserted(s) && s.state.machine == Machine(Error, WantRunning, false)
  {
    var row := Machine(Starting, WantRunning, false);
    ReachableBoot(row, Resources(false, Held, []));
    forall s, a | Reachable(s) && Enabled(s, a) ensures Reachable(Apply(s, a)) { ReachableStep(s, a); }
    FailedStartHappens(s => Reachable(s));
    FailureHandled(s => Reachable(s));
    AssessmentSkipped(s => Reachable(s));
    FailedStartSticks(s => Reachable(s));
  }
}
