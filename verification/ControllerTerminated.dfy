/**
  How long a recorded Terminated lasts. The bus has no order and the dispatcher may take one more event
  while it is being stopped, so a change announced earlier can be handled later.
 */
module ControllerTerminated {
  import opened Options
  import opened MachineTypes
  import opened ControllerModel
  import opened ControllerSafety
  import opened ControllerTheorems
  import opened ControllerProgress

  const TERMINATED := StateChanged(Terminated)

  // ---------------------------------------------------------------- the exact condition

  /** Another state change is handled and saved. */
  predicate Overwrites(s: Sys, a: Action) {
    a == Core(true) && s.core.Begin? && s.core.message.StateChanged? && s.core.message != TERMINATED
  }

  lemma RowAfterBegin(st: State, row: Machine, m: Message, dbOk: bool)
    ensures Handle(st, row, m, dbOk).row.state == if m.StateChanged? && dbOk then m.state else row.state
  {
  }

  lemma CoreKeepsRow(s: Sys, dbOk: bool)
    requires !s.core.Begin?
    ensures CoreStep(s, dbOk).row == s.row
  {
    match s.core
    case Listen(snapshot) => ListenFrame(s, snapshot);
    case _ =>
  }

  /** A row leaves Terminated in exactly such a step. */
  lemma LeavesTerminatedIff(s: Sys, a: Action)
    requires s.row.state == Terminated && Enabled(s, a)
    ensures Apply(s, a).row.state != Terminated <==> Overwrites(s, a)
  {
    match a
    case Core(dbOk) =>
      if s.core.Begin? { RowAfterBegin(s.state, s.row, s.core.message, dbOk); } else { CoreKeepsRow(s, dbOk); }
    case Term => TermFrame(s);
    case _ =>
  }

  /** The row says Terminated all along. */
  predicate TerminatedThroughout(s: Sys, run: seq<Action>)
    requires Legal(s, run)
    decreases |run|
  {
    s.row.state == Terminated && (run == [] || TerminatedThroughout(Apply(s, run[0]), run[1..]))
  }

  predicate OverwritesNot(s: Sys, a: Action) { !Overwrites(s, a) }

  /** In every run a recorded Terminated lasts if and only if no other state change is handled and saved. */
  lemma {:induction false} StaysTerminatedIff(s: Sys, run: seq<Action>)
    requires s.row.state == Terminated && Legal(s, run)
    ensures TerminatedThroughout(s, run) <==> Obeys(s, run, OverwritesNot)
    decreases |run|
  {
    if run != [] {
      var t := Apply(s, run[0]);
      LeavesTerminatedIff(s, run[0]);
      if t.row.state == Terminated {
        StaysTerminatedIff(t, run[1..]);
      } else {
        assert !TerminatedThroughout(t, run[1..]);
      }
    }
  }

  // ---------------------------------------------------------------- when it is the last word

  /** Not another state change, and nothing that the handler answers with one. */
  predicate ChangesNothing(m: Message) {
    (m.StateChanged? ==> m == TERMINATED) && m != ListenerConnected && m != ListenerDisconnected
  }

  ghost predicate NothingComing(s: Sys) {
    && (forall m :: m in s.bus ==> ChangesNothing(m)) && s.threads == map[]
    && forall id :: id in s.workers ==> s.workers[id].pc == Published
  }

  /** Terminated is being recorded by a registered controller, or has been, and nothing else is coming. */
  ghost predicate Closing(s: Sys) {
    && ShuttingDown(s) && NothingComing(s)
    && (s.core.Begin? ==> ChangesNothing(s.core.message)) && s.core != ResetErrors && s.core != CheckErrors
    && (s.row.state == Terminated || s.core == Begin(TERMINATED))
  }

  /** Within one process, and the first save of Terminated succeeds. */
  predicate RecordsIt(s: Sys, a: Action) {
    !a.Restart? && (s.core == Begin(TERMINATED) && s.row.state != Terminated && a.Core? ==> a.dbOk)
  }

  lemma ClosingBegin(s: Sys, m: Message, dbOk: bool)
    requires Closing(s) && s.core == Begin(m) && RecordsIt(s, Core(dbOk))
    ensures Closing(BeginCore(s, m, dbOk))
  {
    RowAfterBegin(s.state, s.row, m, dbOk);
    assert BeginCore(s, m, dbOk).bus == s.bus + multiset{};
  }

  /** A handler that goes on does so over a machine already recorded as Terminated, stopping. */
  lemma ClosingCore(s: Sys, dbOk: bool)
    requires Inv(s) && Closing(s) && s.core != CoreIdle && !s.core.Begin?
    ensures Closing(CoreStep(s, dbOk))
  {
    match s.core
    case Decide(snapshot) => assert s.stopping;
    case Listen(snapshot) => assert !ShouldListen(snapshot.machine);
    case PublishAssess =>
  }

  lemma ClosingPick(s: Sys, m: Message)
    requires Closing(s) && Enabled(s, Pick(m))
    ensures Closing(Apply(s, Pick(m)))
  {
    var t := Apply(s, Pick(m));
    assert t.bus + multiset{m} == s.bus;
  }

  lemma ClosingStep(s: Sys, a: Action)
    requires Inv(s) && Closing(s) && Enabled(s, a) && RecordsIt(s, a)
    ensures Closing(Apply(s, a))
  {
    match a
    case Core(dbOk) => if s.core.Begin? { ClosingBegin(s, s.core.message, dbOk); } else { ClosingCore(s, dbOk); }
    case Pick(m) => ClosingPick(s, m);
    case Term => TermFrame(s); ShuttingDownStep(s, a);
    case _ =>
  }

  lemma {:induction false} ClosingRun(s: Sys, run: seq<Action>)
    requires Inv(s) && Closing(s) && Legal(s, run) && Obeys(s, run, RecordsIt)
    ensures Closing(Exec(s, run))
    decreases |run|
  {
    if run != [] {
      InvStep(s, run[0]);
      ClosingStep(s, run[0]);
      ClosingRun(Apply(s, run[0]), run[1..]);
    }
  }

  /** When a registered controller takes Terminated with no other state change and no message of the listener
      on the bus, no listener thread and no worker but one that has only to clear itself, the row says
      Terminated from its save on, in every run, whatever desired states are still set. */
  lemma TerminatedIsLast(s: Sys, run: seq<Action>)
    requires Reachable(s) && s.phase == Registered && Enabled(s, Pick(TERMINATED)) && NothingComing(s)
    requires Legal(Apply(s, Pick(TERMINATED)), run) && Obeys(Apply(s, Pick(TERMINATED)), run, RecordsIt)
    ensures var t := Exec(Apply(s, Pick(TERMINATED)), run);
            t.row.state == Terminated || t.core == Begin(TERMINATED)
  {
    ReachableInv(s);
    InvStep(s, Pick(TERMINATED));
    var t := Apply(s, Pick(TERMINATED));
    assert t.bus + multiset{TERMINATED} == s.bus;
    ClosingRun(t, run);
  }

  // ---------------------------------------------------------------- and when it is not

  lemma RunOn(s: Sys, a: Action, rest: seq<Action>)
    requires Enabled(s, a) && Legal(Apply(s, a), rest)
    ensures Legal(s, [a] + rest) && Exec(s, [a] + rest) == Exec(Apply(s, a), rest)
  {
    assert ([a] + rest)[1..] == rest;
  }

  lemma RunTwo(s: Sys, a: Action, b: Action)
    requires Enabled(s, a) && Enabled(Apply(s, a), b)
    ensures Legal(s, [a, b]) && Exec(s, [a, b]) == Apply(Apply(s, a), b)
  {
    assert [b][1..] == [];
    RunOn(s, a, [b]);
    assert [a] + [b] == [a, b];
  }

  /** A pending state change can be handled after Terminated has been recorded, and then the row says that. */
  lemma OtherChangeUndoes(s: Sys, st: MachineState)
    requires Enabled(s, Pick(StateChanged(st)))
    ensures Legal(s, [Pick(StateChanged(st)), Core(true)])
    ensures Exec(s, [Pick(StateChanged(st)), Core(true)]).row.state == st
  {
    RunTwo(s, Pick(StateChanged(st)), Core(true));
    RowAfterBegin(s.state, s.row, StateChanged(st), true);
  }

  lemma Stopped(r: Sys -> bool, s: Sys) returns (t: Sys)
    requires StepClosed(r) && r(s) && !s.crashed && s.term == TermBegin(TERMINATED) && s.phase == Registered
    ensures r(t) && t.term == TermIdle && t.row == s.row && t.bus == s.bus && t.core == s.core && !t.crashed
  {
    var u := Take(r, s, Term);
    TermFrame(s);
    assert u.term.TermWait?;
    t := Take(r, u, Term);
    TermFrame(u);
  }

  /** A registered controller's dispatch of Terminated, handled and its stop carried out, uninterrupted. */
  lemma TerminatedDispatched(r: Sys -> bool, s: Sys) returns (t: Sys)
    requires StepClosed(r) && r(s) && Enabled(s, Pick(TERMINATED)) && s.phase == Registered
    ensures r(t) && t.row.state == Terminated && t.bus == s.bus - multiset{TERMINATED} + multiset{AssessState}
    ensures t.core == CoreIdle && t.term == TermIdle && !t.crashed
  {
    var s1 := Take(r, s, Pick(TERMINATED));
    assert s1 == s.(bus := s.bus - multiset{TERMINATED}, core := Begin(TERMINATED), term := TermBegin(TERMINATED));
    var s2 := Take(r, s1, Core(true));
    assert s2.core == PublishAssess && s2.bus == s1.bus && s2.row.state == Terminated && s2.term == s1.term;
    var s3 := Take(r, s2, Core(true));
    t := Stopped(r, s3);
  }

  /** If it was announced before, another change undoes it, whatever that change is. */
  lemma PendingChangeUndoes(r: Sys -> bool, s: Sys, st: MachineState) returns (t: Sys)
    requires StepClosed(r) && r(s) && Enabled(s, Pick(TERMINATED)) && s.phase == Registered
    requires StateChanged(st) in s.bus && st != Terminated
    ensures r(t) && t.row.state == Terminated && Legal(t, [Pick(StateChanged(st)), Core(true)])
    ensures Exec(t, [Pick(StateChanged(st)), Core(true)]).row.state == st
  {
    t := TerminatedDispatched(r, s);
    OtherChangeUndoes(t, st);
  }

  lemma Taken(r: Sys -> bool, s: Sys, m: Message) returns (t: Sys)
    requires StepClosed(r) && r(s) && Enabled(s, Pick(m)) && s.phase == Registered && m != TERMINATED
    ensures r(t) && t == s.(bus := s.bus - multiset{m}, core := Begin(m))
  {
    var u := Take(r, s, Pick(m));
    assert u == s.(bus := s.bus - multiset{m}, core := Begin(m), term := TermBegin(m));
    t := Take(r, u, Term);
  }

  /** A registered controller takes an AssessState with no listener to look after. */
  lemma AssessedRegistered(r: Sys -> bool, s: Sys) returns (t: Sys)
    requires StepClosed(r) && r(s) && Enabled(s, Pick(AssessState)) && s.phase == Registered
    requires !ShouldListen(s.state.machine) && s.state.listener.None? && ShouldReconcile(s.state.machine)
    ensures r(t) && t == Launch(s.(bus := s.bus - multiset{AssessState}))
  {
    var s1 := Taken(r, s, AssessState);
    var s2 := Take(r, s1, Core(true));
    assert s1.bus + multiset{} == s1.bus;
    assert s2 == s1.(core := Decide(s.state));
    var s3 := AssessDecided(r, s2);
    t := AssessEnded(r, s3, s.state);
  }

  const FAILED_ROW := Machine(Error, WantTerminated, false)

  /** A machine in Error wanted Terminated, its runtime still up, and its controller registered. */
  function Ending(bus: multiset<Message>, pc: WorkerPc, gone: bool, res: Resources): Sys {
    Boot(FAILED_ROW, res).(
      state := State(FAILED_ROW, Some(Reconciliation(0, WantTerminated)), None), bus := bus, nextId := 1,
      workers := map[0 := Worker(WantTerminated, FAILED_ROW, pc, false, gone)], phase := Registered)
  }

  lemma EndingBegins(r: Sys -> bool)
    requires StepClosed(r) && r(Boot(FAILED_ROW, Resources(true, Held, [])))
    ensures r(Ending(multiset{}, TerminatedProbe, false, Resources(true, Held, [])))
  {
    var s := Take(r, Boot(FAILED_ROW, Resources(true, Held, [])), Subscribe);
    s := Take(r, s, Register);
    var t := AssessedRegistered(r, s);
    assert t.bus == multiset{};
    assert t == Ending(multiset{}, TerminatedProbe, false, Resources(true, Held, []));
  }

  lemma EndingTerminates(r: Sys -> bool)
    requires StepClosed(r) && r(Ending(multiset{}, TerminatedProbe, false, Resources(true, Held, [])))
    ensures r(Ending(multiset{StateChanged(Terminating)}, TerminatedInterface, true, Resources(false, Held, [])))
  {
    var yes := Outcome(true, true, false);
    var s := Ending(multiset{}, TerminatedProbe, false, Resources(true, Held, []));
    var t := Take(r, s, Work(0, yes));
    assert t.bus == multiset{StateChanged(Terminating)};
    assert t == Ending(multiset{StateChanged(Terminating)}, TerminatedTerminate, false, Resources(true, Held, []));
    var u := Take(r, t, Work(0, yes));
    assert u.bus == multiset{StateChanged(Terminating)};
    assert u == Ending(multiset{StateChanged(Terminating)}, TerminatedInterface, true, Resources(false, Held, []));
  }

  lemma EndingReleases(r: Sys -> bool)
    requires StepClosed(r)
    requires r(Ending(multiset{StateChanged(Terminating)}, TerminatedInterface, true, Resources(false, Held, [])))
    ensures r(Ending(multiset{StateChanged(Terminating)}, Done(Terminated, true), true, Resources(false, Saved, [])))
  {
    var yes, bus := Outcome(true, true, false), multiset{StateChanged(Terminating)};
    var s := Ending(bus, TerminatedInterface, true, Resources(false, Held, []));
    assert bus + multiset{} == bus;
    var t := Take(r, s, Work(0, yes));
    assert t == Ending(bus, TerminatedVolume(0), true, Resources(false, Saved, []));
    var u := Take(r, t, Work(0, yes));
    assert u == Ending(bus, Done(Terminated, true), true, Resources(false, Saved, []));
  }

  lemma EndingAnnounces(r: Sys -> bool)
    requires StepClosed(r)
    requires r(Ending(multiset{StateChanged(Terminating)}, Done(Terminated, true), true, Resources(false, Saved, [])))
    ensures exists s :: r(s) && s.row.state == Terminated &&
                        Legal(s, [Pick(StateChanged(Terminating)), Core(true)]) &&
                        Exec(s, [Pick(StateChanged(Terminating)), Core(true)]).row.state == Terminating
  {
    var s := Ending(multiset{StateChanged(Terminating)}, Done(Terminated, true), true, Resources(false, Saved, []));
    var t := Take(r, s, Finish(0));
    assert t.bus == multiset{StateChanged(Terminating), TERMINATED, ReconciliationComplete(true)};
    var u := PendingChangeUndoes(r, t, Terminating);
  }

  /** A recorded Terminated need not last: a worker's own Terminating, announced before its Terminated, is
      handled after it, and the row says Terminating again with everything released. */
  lemma LateTerminatingUndoes()
    ensures exists s :: Reachable(s) && s.row.state == Terminated &&
                        Legal(s, [Pick(StateChanged(Terminating)), Core(true)]) &&
                        Exec(s, [Pick(StateChanged(Terminating)), Core(true)]).row.state == Terminating
  {
    ReachableBoot(FAILED_ROW, Resources(true, Held, []));
    forall s, a | Reachable(s) && Enabled(s, a) ensures Reachable(Apply(s, a)) { ReachableStep(s, a); }
    EndingBegins(s => Reachable(s));
    EndingTerminates(s => Reachable(s));
    EndingReleases(s => Reachable(s));
    EndingAnnounces(s => Reachable(s));
  }
}
