/** What holds in every state and at every step of every run of a controller, restarts included. */
module ControllerTheorems {
  import opened Options
  import opened MachineTypes
  import opened ControllerModel
  import opened ControllerSafety

  /** Every step of the run satisfies a condition on the state it is taken in. */
  predicate Obeys(s: Sys, run: seq<Action>, p: (Sys, Action) -> bool)
    requires Legal(s, run)
    decreases |run|
  {
    run == [] || (p(s, run[0]) && Obeys(Apply(s, run[0]), run[1..], p))
  }

  ghost predicate ReachableUnder(s: Sys, p: (Sys, Action) -> bool) {
    exists row, res, run ::
      LiveRow(row) && Legal(Boot(row, res), run) && Obeys(Boot(row, res), run, p) && s == Exec(Boot(row, res), run)
  }

  ghost predicate Reachable(s: Sys) {
    exists row, res, run :: LiveRow(row) && Legal(Boot(row, res), run) && s == Exec(Boot(row, res), run)
  }

  lemma ReachableInv(s: Sys)
    requires Reachable(s)
    ensures Inv(s)
  {
    var row, res, run :| LiveRow(row) && Legal(Boot(row, res), run) && s == Exec(Boot(row, res), run);
    BootInv(row, res);
    InvRun(Boot(row, res), run);
  }

  lemma ReachableUnderInv(s: Sys, p: (Sys, Action) -> bool)
    requires ReachableUnder(s, p)
    ensures Inv(s)
  {
    var row, res, run :|
      LiveRow(row) && Legal(Boot(row, res), run) && Obeys(Boot(row, res), run, p) && s == Exec(Boot(row, res), run);
    BootInv(row, res);
    InvRun(Boot(row, res), run);
  }

  // ---------------------------------------------------------------- one worker, one listener

  lemma OneOfEach(s: Sys)
    requires Reachable(s)
    ensures |s.workers| <= 1 && |s.threads| <= 1
    ensures s.state.recon.Some? <==> |s.workers| == 1
    ensures s.state.listener.Some? <==> |s.threads| == 1
    ensures forall id :: id in s.workers ==> s.state.recon.value.desired == s.workers[id].desired
  {
    ReachableInv(s);
    assert s.workers.Keys == if s.state.recon.Some? then {s.state.recon.value.worker} else {};
    assert s.threads.Keys == if s.state.listener.Some? then {s.state.listener.value.thread} else {};
  }

  // ---------------------------------------------------------------- one runtime

  /** The step, if it is the probe before a start, answers whether the runtime is up. */
  predicate ProbeAccurate(s: Sys, a: Action) {
    a.Work? && a.worker in s.workers && s.workers[a.worker].pc == RunningProbe ==> (a.outcome.ok <==> s.res.up)
  }

  predicate CallsStart(s: Sys, a: Action) {
    a.Work? && a.worker in s.workers && s.workers[a.worker].pc == RunningStart && !s.workers[a.worker].cancelled
  }

  ghost predicate DownBeforeStart(s: Sys) {
    forall id :: id in s.workers && s.workers[id].pc == RunningStart ==> !s.res.up
  }

  lemma StartAfterProbe(w: Worker, r: Resources, o: Outcome)
    ensures Advance(w, r, o).worker.pc == RunningStart ==>
              w.pc == RunningProbe && !o.ok && Advance(w, r, o).res == r
  {
  }

  lemma DownBeforeStartStep(s: Sys, a: Action)
    requires Inv(s) && DownBeforeStart(s) && Enabled(s, a) && ProbeAccurate(s, a)
    ensures DownBeforeStart(Apply(s, a))
  {
    match a
    case Work(id, o) =>
      assert s.workers.Keys == {id};
      StartAfterProbe(s.workers[id], s.res, o);
    case Core(dbOk) => CoreFrame(s, dbOk);
    case Term => TermFrame(s);
    case _ =>
  }

  lemma {:induction false} DownBeforeStartRun(s: Sys, run: seq<Action>)
    requires Inv(s) && DownBeforeStart(s) && Legal(s, run) && Obeys(s, run, ProbeAccurate)
    ensures DownBeforeStart(Exec(s, run))
    decreases |run|
  {
    if run != [] {
      InvStep(s, run[0]);
      DownBeforeStartStep(s, run[0]);
      DownBeforeStartRun(Apply(s, run[0]), run[1..]);
    }
  }

  /** If the probe before a start is accurate, no runtime is ever started over a live one, in any run with any
      restarts. */
  lemma NoDoubleStart(s: Sys, a: Action)
    requires ReachableUnder(s, ProbeAccurate) && Enabled(s, a) && CallsStart(s, a)
    ensures !s.res.up
  {
    var row, res, run :|
      LiveRow(row) && Legal(Boot(row, res), run) && Obeys(Boot(row, res), run, ProbeAccurate) &&
      s == Exec(Boot(row, res), run);
    BootInv(row, res);
    DownBeforeStartRun(Boot(row, res), run);
  }

  // ---------------------------------------------------------------- terminated means released

  predicate MarksGrow(before: Resources, after: Resources) {
    && (before.iface != Held ==> after.iface == before.iface)
    && |after.volumes| == |before.volumes|
    && forall j :: 0 <= j < |before.volumes| && before.volumes[j] != Held ==> after.volumes[j] == before.volumes[j]
  }

  predicate AnnouncesTerminated(s: Sys, a: Action)
    requires Enabled(s, a)
  {
    Apply(s, a).bus[StateChanged(Terminated)] > s.bus[StateChanged(Terminated)]
  }

  lemma OthersAnnounceNone(s: Sys, a: Action)
    requires Enabled(s, a) && !a.Work? && !a.Finish?
    ensures StateChanged(Terminated) !in Emits(s, a)
  {
    match a
    case Core(dbOk) => match s.core { case Begin(m) => case _ => }
    case _ =>
  }

  lemma OnlyWorkersAnnounce(s: Sys, a: Action)
    requires Enabled(s, a) && AnnouncesTerminated(s, a)
    ensures a.Work? || a.Finish?
  {
    if !a.Pick? && !a.Restart? && !a.Work? && !a.Finish? {
      ApplyBus(s, a);
      OthersAnnounceNone(s, a);
    }
  }

  /** A step that announces Terminated is a worker's last publish: that worker saw the runtime gone,
      and every resource carries its mark. */
  lemma TerminatedMeansReleased(s: Sys, a: Action)
    requires Reachable(s) && Enabled(s, a) && AnnouncesTerminated(s, a)
    ensures a.Work? || a.Finish?
    ensures s.workers[a.worker].pc.Done? && s.workers[a.worker].pc.result == Terminated
    ensures s.workers[a.worker].desired == WantTerminated && s.workers[a.worker].gone
    ensures s.res.iface != Held && forall j :: 0 <= j < |s.res.volumes| ==> s.res.volumes[j] != Held
  {
    ReachableInv(s);
    OnlyWorkersAnnounce(s, a);
    var w := s.workers[a.worker];
    if a.Work? && w.pc != Published { AdvanceOnPath(w, s.res, a.outcome); }
    assert OnPath(s.res, w);
  }

  /** A recorded Terminated has its marks too. */
  lemma TerminatedRowReleased(s: Sys)
    requires Reachable(s) && s.row.state == Terminated
    ensures s.res.iface != Held && forall j :: 0 <= j < |s.res.volumes| ==> s.res.volumes[j] != Held
  {
    ReachableInv(s);
  }

  lemma MarksGrowStep(s: Sys, a: Action)
    requires Enabled(s, a) && !a.Restart?
    ensures MarksGrow(s.res, Apply(s, a).res)
  {
    match a
    case Work(id, o) => if s.workers[id].pc != Published { MarksGrowAdvance(s.workers[id], s.res, o); }
    case _ =>
  }

  lemma MarksGrowAdvance(w: Worker, r: Resources, o: Outcome)
    ensures MarksGrow(r, Advance(w, r, o).res)
  {
  }

  predicate NoRestart(s: Sys, a: Action) { !a.Restart? }

  /** Over any failed and retried terminations of one process the released set only grows. */
  lemma {:induction false} ReleasedOnlyGrows(s: Sys, run: seq<Action>)
    requires Legal(s, run) && Obeys(s, run, NoRestart)
    ensures MarksGrow(s.res, Exec(s, run).res)
    decreases |run|
  {
    if run != [] {
      MarksGrowStep(s, run[0]);
      ReleasedOnlyGrows(Apply(s, run[0]), run[1..]);
    }
  }

  predicate StaysSaved(before: Mark, after: Mark) {
    before == Saved ==> after == Saved
  }

  predicate SavedStays(before: Resources, after: Resources) {
    && StaysSaved(before.iface, after.iface)
    && |after.volumes| == |before.volumes|
    && forall j :: 0 <= j < |before.volumes| ==> StaysSaved(before.volumes[j], after.volumes[j])
  }

  /** And what was saved stays released over any run at all, restarts included. */
  lemma {:induction false} SavedReleasesStay(s: Sys, run: seq<Action>)
    requires Legal(s, run)
    ensures SavedStays(s.res, Exec(s, run).res)
    decreases |run|
  {
    if run != [] {
      if run[0].Restart? {
        assert SavedStays(s.res, Apply(s, run[0]).res);
      } else {
        MarksGrowStep(s, run[0]);
      }
      SavedReleasesStay(Apply(s, run[0]), run[1..]);
    }
  }

  // ---------------------------------------------------------------- memory, row, restart

  /** Memory equals the row at every point, and a crash at any point loses no state: the controller
      rebuilt from the row starts with the same state and desired state and one AssessState. */
  lemma RestartRefines(s: Sys)
    requires Reachable(s)
    ensures s.row == s.state.machine && (s.row.terminatedAt <==> s.row.state == Terminated)
    ensures s.row.state != Terminated ==>
              && Enabled(s, Restart)
              && Apply(s, Restart).state == State(s.state.machine, None, None)
              && Apply(s, Restart).row == s.row
              && Apply(s, Restart).bus == multiset{AssessState}
              && Apply(s, Restart).workers == map[] && Apply(s, Restart).threads == map[]
              && Apply(s, Restart).phase == Fresh && !Apply(s, Restart).stopping && !Apply(s, Restart).crashed
              && Reachable(Apply(s, Restart))
  {
    ReachableInv(s);
    if s.row.state != Terminated {
      var res := ReloadedResources(s.res);
      assert LiveRow(s.row) && Legal(Boot(s.row, res), []) && Rebuild(s) == Exec(Boot(s.row, res), []);
    }
  }

  // ---------------------------------------------------------------- shutdown barrier

  ghost predicate Launches(s: Sys, a: Action)
    requires Enabled(s, a)
  {
    exists id :: id in Apply(s, a).workers && id !in s.workers
  }

  /** Terminated is being dispatched to a registered controller, or its Stop has begun. */
  predicate ShuttingDown(s: Sys) {
    s.stopping ||
    (s.term == TermBegin(StateChanged(Terminated)) && s.phase == Registered &&
     (s.core == Begin(StateChanged(Terminated)) || s.core == PublishAssess || s.core == CoreIdle))
  }

  lemma ShuttingDownStep(s: Sys, a: Action)
    requires ShuttingDown(s) && Enabled(s, a) && !a.Restart?
    ensures ShuttingDown(Apply(s, a)) && !Launches(s, a)
  {
    match a
    case Core(dbOk) =>
      match s.core {
        case Begin(m) =>
        case _ =>
      }
    case Work(id, o) => assert WorkStep(s, id, o).workers.Keys <= s.workers.Keys;
    case _ =>
  }

  lemma {:induction false} ShuttingDownRun(s: Sys, run: seq<Action>)
    requires ShuttingDown(s) && Legal(s, run) && Obeys(s, run, NoRestart)
    ensures ShuttingDown(Exec(s, run))
    decreases |run|
  {
    if run != [] {
      ShuttingDownStep(s, run[0]);
      ShuttingDownRun(Apply(s, run[0]), run[1..]);
    }
  }

  /** Once a registered controller's dispatcher has taken StateChanged(Terminated), no later step of
      this process starts a reconciliation, whatever else is pending and however the rest interleaves. */
  lemma ShutdownBarrier(s: Sys, run: seq<Action>, a: Action)
    requires s.phase == Registered && Enabled(s, Pick(StateChanged(Terminated)))
    requires Legal(Apply(s, Pick(StateChanged(Terminated))), run)
    requires Obeys(Apply(s, Pick(StateChanged(Terminated))), run, NoRestart)
    requires Enabled(Exec(Apply(s, Pick(StateChanged(Terminated))), run), a) && !a.Restart?
    ensures !Launches(Exec(Apply(s, Pick(StateChanged(Terminated))), run), a)
  {
    var s1 := Apply(s, Pick(StateChanged(Terminated)));
    ShuttingDownRun(s1, run);
    ShuttingDownStep(Exec(s1, run), a);
  }

  // ---------------------------------------------------------------- listener streaks

  /** A streak as an observer of the event handler sees it: disconnections dispatched with the listener
      present, and the announcements made for them. */
  datatype Streak = Streak(failures: nat, degraded: nat, errored: nat)

  const NEW_STREAK := Streak(0, 0, 0)

  function Announced(s: Sys, a: Action, m: Message): nat
    requires Enabled(s, a)
  {
    var t := Apply(s, a);
    if t.bus[m] > s.bus[m] then t.bus[m] - s.bus[m] else 0
  }

  function Observe(s: Sys, a: Action, h: Streak): Streak
    requires Enabled(s, a)
  {
    match a
    case Core(_) =>
      if s.core == ResetErrors then NEW_STREAK
      else if s.state.listener.None? && Apply(s, a).state.listener.Some? then NEW_STREAK
      else if s.core == Begin(ListenerDisconnected) && s.state.listener.Some? then h.(failures := h.failures + 1)
      else if s.core == CheckErrors then
        h.(degraded := h.degraded + Announced(s, a, StateChanged(Degraded)),
           errored := h.errored + Announced(s, a, StateChanged(Error)))
      else h
    case Hear(_, Clear) => NEW_STREAK
    case Restart => NEW_STREAK
    case _ => h
  }

  function ObserveRun(s: Sys, run: seq<Action>, h: Streak): Streak
    requires Legal(s, run)
    decreases |run|
  {
    if run == [] then h else ObserveRun(Apply(s, run[0]), run[1..], Observe(s, run[0], h))
  }

  predicate Due(s: Sys, h: Streak, n: nat) {
    h.failures >= n && !(s.core == CheckErrors && h.failures == n)
  }

  predicate StreakInv(s: Sys, h: Streak) {
    && (s.state.listener.Some? ==> s.state.listener.value.errors == h.failures)
    && (s.state.listener.None? ==> h == NEW_STREAK)
    && h.degraded == (if Due(s, h, 1) then 1 else 0)
    && h.errored == (if Due(s, h, 3) then 1 else 0)
  }

  lemma StreakBegin(s: Sys, m: Message, dbOk: bool, h: Streak)
    requires Inv(s) && StreakInv(s, h) && s.core == Begin(m) && Enabled(s, Core(dbOk))
    ensures StreakInv(Apply(s, Core(dbOk)), Observe(s, Core(dbOk), h))
  {
    var t := BeginCore(s, m, dbOk);
    assert t == Apply(s, Core(dbOk));
    if m == ListenerDisconnected {
      assert t.core == CheckErrors;
    } else {
      assert t.state.listener == s.state.listener;
    }
  }

  lemma StreakCheck(s: Sys, dbOk: bool, h: Streak)
    requires Inv(s) && StreakInv(s, h) && s.core == CheckErrors && Enabled(s, Core(dbOk))
    ensures StreakInv(Apply(s, Core(dbOk)), Observe(s, Core(dbOk), h))
  {
    var t := Apply(s, Core(dbOk));
    assert t.state == s.state && t.bus == s.bus + ErrorsPublished(s.state);
  }

  lemma StreakCore(s: Sys, dbOk: bool, h: Streak)
    requires Inv(s) && StreakInv(s, h) && Enabled(s, Core(dbOk))
    ensures StreakInv(Apply(s, Core(dbOk)), Observe(s, Core(dbOk), h))
  {
    match s.core
    case Begin(m) => StreakBegin(s, m, dbOk, h);
    case CheckErrors => StreakCheck(s, dbOk, h);
    case _ =>
  }

  lemma StreakStep(s: Sys, a: Action, h: Streak)
    requires Inv(s) && StreakInv(s, h) && Enabled(s, a)
    ensures StreakInv(Apply(s, a), Observe(s, a, h))
  {
    match a
    case Core(dbOk) => StreakCore(s, dbOk, h);
    case Term => TermFrame(s);
    case _ =>
  }

  lemma {:induction false} StreakRun(s: Sys, run: seq<Action>, h: Streak)
    requires Inv(s) && StreakInv(s, h) && Legal(s, run)
    ensures StreakInv(Exec(s, run), ObserveRun(s, run, h))
    decreases |run|
  {
    if run != [] {
      InvStep(s, run[0]);
      StreakStep(s, run[0], h);
      StreakRun(Apply(s, run[0]), run[1..], Observe(s, run[0], h));
    }
  }

  /** In every run, the counter equals the disconnections of the current streak; the streak announces
      Degraded at most once and Error at most once, Error not before the third failure nor before Degraded. */
  lemma StreakAnnouncements(row: Machine, res: Resources, run: seq<Action>)
    requires LiveRow(row) && Legal(Boot(row, res), run)
    ensures var s := Exec(Boot(row, res), run);
            var h := ObserveRun(Boot(row, res), run, NEW_STREAK);
            && (s.state.listener.Some? ==> s.state.listener.value.errors == h.failures)
            && h.degraded <= 1 && h.errored <= 1
            && (h.errored == 1 ==> h.failures >= 3 && h.degraded == 1)
            && (h.degraded == 1 ==> h.failures >= 1)
            && (s.core != CheckErrors && h.failures >= 1 ==> h.degraded == 1)
            && (s.core != CheckErrors && h.failures >= 3 ==> h.errored == 1)
  {
    BootInv(row, res);
    StreakRun(Boot(row, res), run, NEW_STREAK);
  }
}
