/**
  From the control plane's list to the machines: once a synchronisation has succeeded on a quiet agent,
  every listed controller wanted Pending or Running, whether it was there before, was loaded from its row
  or has just been created, ends up wanting what the list says and having it.
 */
module AgentConvergence {
  import opened MachineTypes
  import opened ControllerModel
  import opened ControllerSafety
  import opened ControllerTheorems
  import opened ControllerProgress
  import opened ControllerConvergence
  import opened AgentRefinement
  import AgentSync

  // ---------------------------------------------------------------- one controller

  /** What a schedule's states want is something its first state's messages could have led to. */
  lemma {:induction false} ScheduleRefines(f: nat -> Sys, n: nat, d: DesiredState)
    requires Schedule(f) && AgentSync.CanEndIn(View(f(n)), d)
    ensures AgentSync.CanEndIn(View(f(0)), d)
    decreases n
  {
    if n > 0 {
      var i: nat := n - 1;
      assert Moves(f(i), f(i + 1)) || f(i + 1) == f(i);
      if f(n) != f(i) {
        MoveEndsIn(f(i), f(n), d);
      }
      ScheduleRefines(f, i, d);
    }
  }

  lemma MoveEndsIn(s: Sys, t: Sys, d: DesiredState)
    requires Moves(s, t) && AgentSync.CanEndIn(View(t), d)
    ensures AgentSync.CanEndIn(View(s), d)
  {
    var a :| CalmStep(s, a) && t == Apply(s, a);
    StepEndsIn(s, a, d);
  }

  lemma NothingWanted(s: Sys)
    requires s.bus == multiset{} && s.core == CoreIdle
    ensures Wanted(s) == multiset{}
  {
    forall d ensures Wanted(s)[d] == 0 { WantedIs(s, d); }
  }

  /** The schedule stops for good with the machine where `d` wants it. */
  ghost predicate StopsOn(f: nat -> Sys, n: nat, d: DesiredState) {
    StopsAt(f, n) && f(n).state.machine.desired == d
  }

  /** A settled controller headed for `d`: every schedule handles its desired-state messages and comes to a
      stop wanting `d`, with nothing left to reconcile. */
  lemma HeadedForConverges(f: nat -> Sys, d: DesiredState) returns (n: nat)
    requires ReachableUnder(f(0), PublishClears) && Settled(f(0)) && Schedule(f) && ListenersPresent(f)
    requires AgentSync.HeadedFor(View(f(0)), d)
    ensures StopsOn(f, n, d)
  {
    ReachableUnderInv(f(0), PublishClears);
    NeverStuck(f(0));
    n := CalmConvergence(f);
    NothingWanted(f(n));
    AgentSync.PendingEndsIn(View(f(n)), f(n).state.machine.desired);
    ScheduleRefines(f, n, f(n).state.machine.desired);
  }

  // ---------------------------------------------------------------- after a synchronisation

  /** What `syncMachineFromSpec` does to a controller it finds. */
  function ToldOfChange(s: Sys, d: DesiredState): Sys
    requires s.phase == Registered && !s.crashed
  {
    if s.state.machine.desired != d then Apply(s, Desire(d)) else s
  }

  lemma {:induction false} ObeysAppend(s: Sys, run: seq<Action>, a: Action, p: (Sys, Action) -> bool)
    requires Legal(s, run) && Obeys(s, run, p) && Enabled(Exec(s, run), a) && p(Exec(s, run), a)
    ensures Legal(s, run + [a]) && Obeys(s, run + [a], p) && Exec(s, run + [a]) == Apply(Exec(s, run), a)
    decreases |run|
  {
    if run == [] {
      assert run + [a] == [a] && [a][1..] == [];
    } else {
      ObeysAppend(Apply(s, run[0]), run[1..], a, p);
      assert (run + [a])[1..] == run[1..] + [a];
    }
  }

  lemma ReachableOneMore(s: Sys, a: Action, p: (Sys, Action) -> bool)
    requires ReachableUnder(s, p) && Enabled(s, a) && p(s, a)
    ensures ReachableUnder(Apply(s, a), p)
  {
    var row, res, run :|
      LiveRow(row) && Legal(Boot(row, res), run) && Obeys(Boot(row, res), run, p) && s == Exec(Boot(row, res), run);
    ObeysAppend(Boot(row, res), run, a, p);
  }

  lemma ToldKeeps(s: Sys, d: DesiredState)
    requires ReachableUnder(s, PublishClears) && Settled(s) && s.phase == Registered && Lasting(d)
    ensures ReachableUnder(ToldOfChange(s, d), PublishClears) && Settled(ToldOfChange(s, d))
  {
    if s.state.machine.desired != d { ReachableOneMore(s, Desire(d), PublishClears); }
  }

  /** In the agent's view it is what the synchronisation's specification says. */
  lemma ToldView(cs: AgentSync.Controllers, r: AgentSync.Controllers, id: AgentSync.Id, s: Sys, d: DesiredState)
    requires s.phase == Registered && !s.crashed
    requires id in cs && View(s) == cs[id] && AgentSync.SettledAt(cs, r, id, d)
    ensures id in r && View(ToldOfChange(s, d)) == r[id]
  {
    if s.state.machine.desired != d { StepRefines(s, Desire(d)); }
  }

  /** The list, and the answers of the calls made for it, brought a quiet agent into line. */
  ghost predicate SyncSucceeded(cs: AgentSync.Controllers, specs: seq<AgentSync.Spec>,
                                answers: seq<AgentSync.Answers>)
  {
    AgentSync.Quiet(cs) && AgentSync.DistinctIds(specs) && |specs| == |answers| &&
    AgentSync.AllOk(cs, specs, answers, |specs|)
  }

  /** The list wants this machine in the state `d`, and wants it kept. */
  predicate Keeps(specs: seq<AgentSync.Spec>, id: AgentSync.Id, d: DesiredState) {
    AgentSync.Lists(specs, |specs|, id) && d == AgentSync.Target(specs, |specs|, id) && Lasting(d)
  }

  /** A controller that was there: from the state it was found in, told of a change if there is one, on every
      schedule without new connections of its listener in which Connected is handled only while there is one. */
  lemma ListedConverges(cs: AgentSync.Controllers, specs: seq<AgentSync.Spec>, answers: seq<AgentSync.Answers>,
                        id: AgentSync.Id, d: DesiredState, s: Sys, f: nat -> Sys)
    requires SyncSucceeded(cs, specs, answers) && Keeps(specs, id, d)
    requires id in cs && View(s) == cs[id] && s.phase == Registered
    requires ReachableUnder(s, PublishClears) && Settled(s)
    requires f(0) == ToldOfChange(s, d) && Schedule(f) && ListenersPresent(f)
    ensures exists n: nat :: StopsOn(f, n, d)
  {
    var r := AgentSync.AfterSync(cs, specs, answers);
    AgentSync.AfterSyncAt(cs, specs, answers, id);
    ToldKeeps(s, d);
    ToldView(cs, r, id, s, d);
    AgentSync.ConvergesIff(cs, specs, answers, id);
    var n := HeadedForConverges(f, d);
  }

  lemma BootInView(row: Machine, res: Resources, phase: Phase)
    ensures View(BootIn(row, res, phase)) == AgentSync.Ctrl(row.desired, multiset{})
  {
    BootView(row, res);
    assert Wanted(BootIn(row, res, phase)) == Wanted(Boot(row, res));
  }

  /** A controller that was not: created over a new row for what the list says, and in the service's hands or
      on its way there. */
  lemma CreatedConverges(cs: AgentSync.Controllers, specs: seq<AgentSync.Spec>, answers: seq<AgentSync.Answers>,
                         id: AgentSync.Id, d: DesiredState, res: Resources, phase: Phase, f: nat -> Sys)
    requires SyncSucceeded(cs, specs, answers) && Keeps(specs, id, d) && id !in cs
    requires f(0) == BootIn(Machine(Pending, d, false), res, phase) && phase != Unregistered && Schedule(f)
    ensures id in AgentSync.AfterSync(cs, specs, answers)
    ensures View(f(0)) == AgentSync.AfterSync(cs, specs, answers)[id]
    ensures exists n: nat :: StopsOn(f, n, d)
  {
    AgentSync.AfterSyncAt(cs, specs, answers, id);
    BootInView(Machine(Pending, d, false), res, phase);
    BootSettled(Machine(Pending, d, false), res, phase);
    AgentSync.ConvergesIff(cs, specs, answers, id);
    NoneToMiss(f);
    var n := HeadedForConverges(f, d);
  }

  /** A controller loaded from its row at the start of the process, until the list says otherwise. */
  lemma LoadedConverges(row: Machine, res: Resources, phase: Phase, f: nat -> Sys)
    requires LiveRow(row) && Lasting(row.desired)
    requires f(0) == BootIn(row, res, phase) && phase != Unregistered && Schedule(f)
    ensures View(f(0)) == AgentSync.Ctrl(row.desired, multiset{})
    ensures exists n: nat :: StopsOn(f, n, row.desired)
  {
    BootInView(row, res, phase);
    BootSettled(row, res, phase);
    AgentSync.HeadedForIff(View(f(0)), row.desired);
    NoneToMiss(f);
    var n := HeadedForConverges(f, row.desired);
  }
}
