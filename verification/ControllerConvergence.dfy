/**
  Convergence. With Pending and Running the only desired states about, no new ones being set, calls and
  saves succeeding and no new connection of the listener, every schedule of dispatches, worker steps and
  the listener's end, in any bus order, is finite and ends with nothing left to reconcile.

  The measure follows the messages that are pending or still to come, by how far the state they carry
  is from the goal; everything else (where the threads stand) comes last.
 */
module ControllerConvergence {
  import opened Options
  import opened MachineTypes
  import opened ControllerModel
  import opened ControllerSafety
  import opened ControllerTheorems
  import opened ControllerProgress

  // ---------------------------------------------------------------- distance to the goal

  /** 0: at the goal; 1: the state a worker announces on its way and does not announce again; 2: any other. */
  function Distance(d: DesiredState, st: MachineState): nat {
    if d == WantRunning then
      if st == Running || st == Degraded then 0 else if st == Starting then 1 else 2
    else
      if st == Pending then 0 else if st == Terminating then 1 else 2
  }

  // ---------------------------------------------------------------- what is still to come

  ghost function Any(b: multiset<Message>): (m: Message)
    requires b != multiset{}
    ensures m in b
  {
    var m :| m in b; m
  }

  function Ones(b: bool): nat { if b then 1 else 0 }

  /** How many messages of a kind are on the bus. */
  ghost function Count(p: Message -> bool, b: multiset<Message>): nat
    decreases |b|
  {
    if b == multiset{} then 0 else Count(p, b - multiset{Any(b)}) + Ones(p(Any(b)))
  }

  /** The message that a handler under way still stands for. */
  function CoreCount(p: Message -> bool, c: CoreTask): nat {
    match c
    case Begin(m) => Ones(p(m))
    case Decide(_) => Ones(p(AssessState))
    case PublishAssess => Ones(p(AssessState))
    case CheckErrors => Ones(p(ListenerDisconnected))
    case _ => 0
  }

  /** State changes a worker may still announce when its calls succeed. */
  function Future(p: Message -> bool, w: Worker): nat {
    match w.pc
    case PendingProbe =>
      Ones(p(StateChanged(Pending))) + Ones(w.snapshot.state != Terminating && p(StateChanged(Terminating)))
    case PendingTerminate => Ones(p(StateChanged(Pending)))
    case PendingPrepare => Ones(p(StateChanged(Pending)))
    case RunningAnnounce =>
      Ones(p(StateChanged(Running))) + Ones(w.snapshot.state != Starting && p(StateChanged(Starting)))
    case RunningProbeError => Ones(p(StateChanged(Running)))
    case RunningCleanup => Ones(p(StateChanged(Running)))
    case RunningPrepare => Ones(p(StateChanged(Running)))
    case RunningProbe => Ones(p(StateChanged(Running)))
    case RunningStart => Ones(p(StateChanged(Running)))
    case Done(st, _) => Ones(p(StateChanged(st)))
    case _ => 0
  }

  function WorkerCount(p: Message -> bool, s: Sys): nat {
    if s.state.recon.Some? && s.state.recon.value.worker in s.workers
    then Future(p, s.workers[s.state.recon.value.worker]) else 0
  }

  function OpenStreams(s: Sys): nat {
    if s.state.listener.Some? && s.state.listener.value.thread in s.threads
    then Ones(s.threads[s.state.listener.value.thread].stream.Open?) else 0
  }

  /** The end of an open stream is still to be announced. */
  function StreamCount(p: Message -> bool, s: Sys): nat {
    if OpenStreams(s) == 1 then Ones(p(ListenerDisconnected)) else 0
  }

  /** How many messages of a kind are pending, being handled or still to be announced. */
  ghost function Total(p: Message -> bool, s: Sys): nat {
    Count(p, s.bus) + CoreCount(p, s.core) + WorkerCount(p, s) + StreamCount(p, s)
  }

  function CoreRank(c: CoreTask): nat {
    match c
    case CoreIdle => 0
    case Begin(_) => 5
    case Decide(_) => 3
    case Listen(_) => 2
    case PublishAssess => 11
    case ResetErrors => 3
    case CheckErrors => 3
  }

  function TermRank(t: TermTask): nat {
    match t
    case TermIdle => 0
    case TermBegin(_) => 2
    case TermWait(_) => 1
  }

  function PcRank(pc: WorkerPc): nat {
    match pc
    case Done(_, _) => 1
    case PendingPrepare => 2
    case PendingTerminate => 3
    case PendingProbe => 4
    case RunningStart => 2
    case RunningProbe => 3
    case RunningPrepare => 4
    case RunningCleanup => 5
    case RunningProbeError => 6
    case RunningAnnounce => 7
    case _ => 0
  }

  function WorkerRank(s: Sys): nat {
    if s.state.recon.Some? && s.state.recon.value.worker in s.workers
    then PcRank(s.workers[s.state.recon.value.worker].pc) else 0
  }

  function PhaseRank(phase: Phase): nat {
    match phase
    case Fresh => 2
    case Subscribed => 1
    case _ => 0
  }

  /** Where the threads stand. */
  function Local(s: Sys): nat {
    10 * |s.bus| + CoreRank(s.core) + TermRank(s.term) + 100 * WorkerRank(s) +
    |s.threads| + 20 * OpenStreams(s) + PhaseRank(s.phase)
  }

  // ---------------------------------------------------------------- the measure

  /** What somebody else has left on the bus: no step of a schedule adds any. */
  predicate IsForeign(m: Message) {
    m.DesiredStateChanged? || m == ListenerDisconnected || m == ListenerConnected
  }

  predicate IsAssess(m: Message) {
    m == AssessState
  }

  /** State changes that carry a state at distance `l`. */
  function At(d: DesiredState, l: nat): Message -> bool {
    (m: Message) => m.StateChanged? && Distance(d, m.state) == l
  }

  datatype Tally = Tally(foreign: nat, off: nat, way: nat, goal: nat, assess: nat)

  ghost function Totals(s: Sys, d: DesiredState): Tally {
    Tally(Total(IsForeign, s), Total(At(d, 2), s), Total(At(d, 1), s), Total(At(d, 0), s), Total(IsAssess, s))
  }

  datatype Measure = Measure(foreign: nat, off: nat, stateOff: nat, c: nat, d: nat, e: nat, f: nat, local: nat)

  /** Foreign messages come first, then changes to states far from the goal, and so on inwards; while the
      state stays where it is, each assessment can start at most one worker. */
  function MeasureOf(l: nat, t: Tally, local: nat): Measure {
    if l == 0 then Measure(t.foreign, t.off, 0, t.way, 0, t.goal, t.assess, local)
    else if l == 1 then Measure(t.foreign, t.off, 0, t.way, 1, t.assess, local, 0)
    else Measure(t.foreign, t.off, 1, t.assess, local, 0, 0, 0)
  }

  ghost function MeasureAt(s: Sys, d: DesiredState): Measure {
    MeasureOf(Distance(d, s.state.machine.state), Totals(s, d), Local(s))
  }

  /** Distances are from the desired state of the moment; foreign messages are counted whatever that is. */
  ghost function M(s: Sys): Measure {
    MeasureAt(s, s.state.machine.desired)
  }

  predicate Lower(a: Measure, b: Measure) {
    a.foreign < b.foreign || (a.foreign == b.foreign && (
    a.off < b.off || (a.off == b.off && (
    a.stateOff < b.stateOff || (a.stateOff == b.stateOff && (
    a.c < b.c || (a.c == b.c && (
    a.d < b.d || (a.d == b.d && (
    a.e < b.e || (a.e == b.e && (
    a.f < b.f || (a.f == b.f && a.local < b.local)))))))))))))
  }

  // ---------------------------------------------------------------- calm controllers

  /** A desired state that keeps the machine. */
  predicate Lasting(d: DesiredState) {
    d == WantPending || d == WantRunning
  }

  predicate Harmless(m: Message) {
    m != StateChanged(Terminated) && (m.DesiredStateChanged? ==> Lasting(m.desired))
  }

  /** A running controller on which nothing about termination is recorded, pending or under way. */
  ghost predicate Settled(s: Sys) {
    && Lasting(s.state.machine.desired)
    && !s.crashed && !s.stopping
    && (forall id :: id in s.workers ==> s.workers[id].desired != WantTerminated)
    && (forall m :: m in s.bus ==> Harmless(m))
    && (s.core.Begin? ==> Harmless(s.core.message))
    && (s.term.TermBegin? ==> s.term.message != StateChanged(Terminated))
  }

  /** What the schedules start from and keep. */
  ghost predicate Calm(s: Sys) {
    Settled(s) && Inv(s) && !Stuck(s) && NonePublished(s)
  }

  predicate Probes(pc: WorkerPc) {
    pc == PendingProbe || pc == RunningProbeError || pc == RunningProbe || pc == TerminatedProbe
  }

  /** Dispatching, subscribing and registering, and workers whose calls succeed; probes may answer either
      way. A listener thread may lose the stream it has and end when it has been cancelled; it opens none
      and receives nothing. */
  predicate CalmAction(s: Sys, a: Action) {
    match a
    case Pick(_) => true
    case Core(dbOk) => dbOk
    case Term => true
    case Subscribe => true
    case Register => true
    case Work(id, o) =>
      id in s.workers && !s.workers[id].pc.Done? && (o.ok || Probes(s.workers[id].pc))
    case Finish(_) => true
    case Hear(_, h) => h == Clear || h == Disconnect
    case _ => false
  }

  predicate CalmStep(s: Sys, a: Action) {
    Enabled(s, a) && CalmAction(s, a)
  }

  ghost predicate Quiescent(s: Sys) {
    forall a :: !CalmStep(s, a)
  }

  /** The handler of Connected finds its listener. */
  predicate ListenerPresent(s: Sys) {
    s.core == ResetErrors ==> s.state.listener.Some?
  }

  // ---------------------------------------------------------------- counting through each step

  lemma CountTakes(p: Message -> bool, b: multiset<Message>)
    requires b != multiset{}
    ensures Count(p, b) == Count(p, b - multiset{Any(b)}) + Ones(p(Any(b)))
  {
  }

  lemma TakeOther(b: multiset<Message>, m: Message, n: Message)
    requires n in b
    ensures b + multiset{m} - multiset{n} == b - multiset{n} + multiset{m} && b - multiset{n} + multiset{n} == b
  {
  }

  lemma {:induction false} CountInsert(p: Message -> bool, b: multiset<Message>, m: Message)
    ensures Count(p, b + multiset{m}) == Count(p, b) + Ones(p(m))
    decreases |b|
  {
    var n := Any(b + multiset{m});
    CountTakes(p, b + multiset{m});
    if n == m {
      assert b + multiset{m} - multiset{n} == b;
    } else {
      TakeOther(b, m, n);
      CountInsert(p, b - multiset{n}, m);
      CountInsert(p, b - multiset{n}, n);
    }
  }

  lemma PickCount(p: Message -> bool, s: Sys, m: Message)
    requires Enabled(s, Pick(m))
    ensures Total(p, Apply(s, Pick(m))) == Total(p, s)
  {
    var t := Apply(s, Pick(m));
    assert t.bus + multiset{m} == s.bus;
    CountInsert(p, t.bus, m);
  }

  lemma BeginCount(p: Message -> bool, s: Sys, m: Message)
    requires s.core == Begin(m) && m != ListenerConnected
    ensures Total(p, BeginCore(s, m, true)) - CoreCount(p, BeginCore(s, m, true).core) == Total(p, s) - Ones(p(m))
  {
    var t := BeginCore(s, m, true);
    assert t.bus == s.bus && t.workers == s.workers && t.state.recon == s.state.recon;
  }

  lemma DecideCount(p: Message -> bool, s: Sys)
    requires OneWorker(s) && s.core.Decide? && s.core.snapshot.machine == s.state.machine && !s.stopping
    ensures var t := CoreStep(s, true);
            if ShouldReconcile(s.state.machine) && s.state.recon.None?
            then Total(p, t) + Ones(p(AssessState)) == Total(p, s) + Future(p, t.workers[s.nextId])
            else Total(p, t) + Ones(p(AssessState)) == Total(p, s)
  {
  }

  lemma ErrorsCount(p: Message -> bool, b: multiset<Message>, st: State)
    ensures Count(p, b + ErrorsPublished(st)) <=
              Count(p, b) + Ones(p(StateChanged(Error))) + Ones(p(StateChanged(Degraded)))
  {
    assert b + multiset{} == b;
    CountInsert(p, b, StateChanged(Error));
    CountInsert(p, b, StateChanged(Degraded));
  }

  lemma CheckCount(p: Message -> bool, s: Sys)
    requires s.core == CheckErrors
    ensures Total(p, CoreStep(s, true)) + Ones(p(ListenerDisconnected)) <=
              Total(p, s) + Ones(p(StateChanged(Error))) + Ones(p(StateChanged(Degraded)))
  {
    ErrorsCount(p, s.bus, s.state);
  }

  lemma PublishCount(p: Message -> bool, s: Sys)
    requires s.core == PublishAssess
    ensures Total(p, CoreStep(s, true)) == Total(p, s)
  {
    CountInsert(p, s.bus, AssessState);
  }

  lemma ListenCount(p: Message -> bool, s: Sys)
    requires s.core.Listen?
    ensures Total(p, CoreStep(s, true)) <= Total(p, s)
  {
    ListenFrame(s, s.core.snapshot);
  }

  /** Most steps of a worker announce nothing and bring it closer to its one announcement. */
  lemma AdvanceQuietly(p: Message -> bool, w: Worker, r: Resources, o: Outcome)
    requires OnPath(r, w) && w.desired != WantTerminated && !w.cancelled && (o.ok || Probes(w.pc))
    requires !w.pc.Done? && w.pc != Published && w.pc != RunningAnnounce && w.pc != PendingProbe
    ensures Advance(w, r, o).published == multiset{} && Future(p, Advance(w, r, o).worker) <= Future(p, w)
  {
  }

  function Announcement(w: Worker, o: Outcome): Option<MachineState> {
    if w.pc == RunningAnnounce && w.snapshot.state != Starting then Some(Starting)
    else if w.pc == PendingProbe && o.ok && w.snapshot.state != Terminating then Some(Terminating)
    else None
  }

  lemma AdvanceLoudly(p: Message -> bool, w: Worker, r: Resources, o: Outcome)
    requires w.pc == RunningAnnounce || w.pc == PendingProbe
    ensures var e := Advance(w, r, o);
            var st := Announcement(w, o);
            && e.published == (if st.Some? then multiset{StateChanged(st.value)} else multiset{})
            && Future(p, e.worker) + (if st.Some? then Ones(p(StateChanged(st.value))) else 0) <= Future(p, w)
  {
  }

  /** A worker announces nothing it was not counted for. */
  lemma AdvanceCount(p: Message -> bool, w: Worker, r: Resources, o: Outcome, b: multiset<Message>)
    requires OnPath(r, w) && w.desired != WantTerminated && !w.cancelled && (o.ok || Probes(w.pc))
    requires !w.pc.Done? && w.pc != Published
    ensures Count(p, b + Advance(w, r, o).published) + Future(p, Advance(w, r, o).worker) <= Count(p, b) + Future(p, w)
  {
    var e := Advance(w, r, o);
    if w.pc == RunningAnnounce || w.pc == PendingProbe { AdvanceLoudly(p, w, r, o); }
    else { AdvanceQuietly(p, w, r, o); }
    if e.published == multiset{} { assert b + e.published == b; }
    else { CountInsert(p, b, StateChanged(Announcement(w, o).value)); }
  }

  lemma AdvanceRank(w: Worker, r: Resources, o: Outcome)
    requires OnPath(r, w) && w.desired != WantTerminated && !w.pc.Done? && w.pc != Published
    ensures PcRank(Advance(w, r, o).worker.pc) < PcRank(w.pc) && |Advance(w, r, o).published| <= 1
  {
  }

  lemma WorkCount(p: Message -> bool, s: Sys, id: nat, o: Outcome)
    requires Calm(s) && id in s.workers && CalmAction(s, Work(id, o))
    ensures Total(p, WorkStep(s, id, o)) <= Total(p, s)
  {
    AdvanceCount(p, s.workers[id], s.res, o, s.bus);
  }

  lemma ResultCount(p: Message -> bool, b: multiset<Message>, st: MachineState, success: bool)
    ensures Count(p, b + Result(st, success)) ==
      Count(p, b) + Ones(p(StateChanged(st))) + Ones(p(ReconciliationComplete(success)))
  {
    var changed, complete := StateChanged(st), ReconciliationComplete(success);
    assert b + Result(st, success) == b + multiset{changed} + multiset{complete};
    CountInsert(p, b, changed);
    CountInsert(p, b + multiset{changed}, complete);
  }

  lemma FinishCount(p: Message -> bool, s: Sys, id: nat)
    requires OneWorker(s) && id in s.workers && s.workers[id].pc.Done?
    ensures Total(p, FinishStep(s, id)) <= Total(p, s) + Ones(p(ReconciliationComplete(s.workers[id].pc.success)))
  {
    ResultCount(p, s.bus, s.workers[id].pc.result, s.workers[id].pc.success);
  }

  // ---------------------------------------------------------------- arithmetic of the measure

  predicate AtMost(x: Tally, y: Tally) {
    x.foreign <= y.foreign && x.off <= y.off && x.way <= y.way && x.goal <= y.goal && x.assess <= y.assess
  }

  /** With no more to come and the threads further on, the measure goes down. */
  lemma MovedOn(l: nat, t: Tally, u: Tally, x: nat, y: nat)
    requires AtMost(u, t) && y < x
    ensures Lower(MeasureOf(l, u, y), MeasureOf(l, t, x))
  {
  }

  lemma ForeignHandled(l: nat, m: nat, t: Tally, u: Tally, x: nat, y: nat)
    requires u.foreign < t.foreign
    ensures Lower(MeasureOf(m, u, y), MeasureOf(l, t, x))
  {
  }

  lemma AssessHandled(l: nat, t: Tally, u: Tally, x: nat, y: nat)
    requires u.foreign <= t.foreign && u.off <= t.off && (l != 2 ==> u.way <= t.way) && (l == 0 ==> u.goal <= t.goal)
    requires u.assess < t.assess && l <= 2
    ensures Lower(MeasureOf(l, u, y), MeasureOf(l, t, x))
  {
  }

  /** The state moves to the distance of the handled change, and that change is gone. */
  lemma ChangeHandled(l: nat, m: nat, t: Tally, u: Tally, x: nat, y: nat)
    requires l <= 2 && m <= 2
    requires u.foreign <= t.foreign && u.off + Ones(m == 2) <= t.off
    requires u.way + Ones(m == 1) <= t.way && u.goal + Ones(m == 0) <= t.goal
    ensures Lower(MeasureOf(m, u, y), MeasureOf(l, t, x))
  {
  }

  // ---------------------------------------------------------------- each step goes down

  lemma SameTotals(s: Sys, t: Sys, d: DesiredState)
    requires forall p: Message -> bool :: Total(p, t) <= Total(p, s)
    ensures AtMost(Totals(t, d), Totals(s, d))
  {
  }

  lemma PickGoesDown(s: Sys, d: DesiredState, m: Message)
    requires Enabled(s, Pick(m))
    ensures Lower(MeasureAt(Apply(s, Pick(m)), d), MeasureAt(s, d))
  {
    var t := Apply(s, Pick(m));
    forall p: Message -> bool ensures Total(p, t) <= Total(p, s) { PickCount(p, s, m); }
    SameTotals(s, t, d);
    assert t.bus + multiset{m} == s.bus;
    MovedOn(Distance(d, s.state.machine.state), Totals(s, d), Totals(t, d), Local(s), Local(t));
  }

  /** Beginning to handle a message takes it from the totals and puts in what is left to do. */
  lemma BeginTotals(s: Sys, d: DesiredState, m: Message, t: Sys)
    requires s.core == Begin(m) && m != ListenerConnected && t == BeginCore(s, m, true)
    ensures t.core == CoreIdle || t.core.Decide? || t.core == PublishAssess || t.core == CheckErrors
    ensures Total(IsForeign, t) + Ones(IsForeign(m)) == Total(IsForeign, s) + CoreCount(IsForeign, t.core)
    ensures Total(IsAssess, t) + Ones(IsAssess(m)) == Total(IsAssess, s) + CoreCount(IsAssess, t.core)
    ensures forall k {:trigger At(d, k)} :: Total(At(d, k), t) + Ones(At(d, k)(m)) == Total(At(d, k), s)
  {
    BeginCount(IsForeign, s, m);
    BeginCount(IsAssess, s, m);
    forall k {:trigger At(d, k)} ensures Total(At(d, k), t) + Ones(At(d, k)(m)) == Total(At(d, k), s) {
      BeginCount(At(d, k), s, m);
    }
  }

  lemma BeginChange(s: Sys, d: DesiredState, st: MachineState, t: Sys)
    requires s.core == Begin(StateChanged(st)) && t == BeginCore(s, StateChanged(st), true)
    ensures Lower(MeasureAt(t, d), MeasureAt(s, d))
  {
    BeginTotals(s, d, StateChanged(st), t);
    assert t.core == PublishAssess && t.state.machine.state == st;
    ChangeHandled(Distance(d, s.state.machine.state), Distance(d, st), Totals(s, d), Totals(t, d), Local(s), Local(t));
  }

  lemma BeginDesired(s: Sys, d: DesiredState, e: DesiredState, t: Sys)
    requires s.core == Begin(DesiredStateChanged(e)) && t == BeginCore(s, DesiredStateChanged(e), true)
    ensures Lower(MeasureAt(t, e), MeasureAt(s, d))
  {
    BeginTotals(s, d, DesiredStateChanged(e), t);
    var l, m := Distance(d, s.state.machine.state), Distance(e, t.state.machine.state);
    ForeignHandled(l, m, Totals(s, d), Totals(t, e), Local(s), Local(t));
  }

  lemma BeginConnected(s: Sys, d: DesiredState, t: Sys)
    requires s.core == Begin(ListenerConnected) && t == BeginCore(s, ListenerConnected, true)
    ensures Lower(MeasureAt(t, d), MeasureAt(s, d))
  {
    CountInsert(IsForeign, s.bus, StateChanged(Running));
    assert s.bus + multiset{} == s.bus;
    assert t.core == ResetErrors && t.workers == s.workers && t.state == s.state;
    var l := Distance(d, s.state.machine.state);
    ForeignHandled(l, l, Totals(s, d), Totals(t, d), Local(s), Local(t));
  }

  lemma BeginRest(s: Sys, d: DesiredState, m: Message, t: Sys)
    requires s.core == Begin(m) && t == BeginCore(s, m, true)
    requires !m.StateChanged? && !m.DesiredStateChanged? && m != ListenerConnected
    ensures Lower(MeasureAt(t, d), MeasureAt(s, d))
  {
    BeginTotals(s, d, m, t);
    MovedOn(Distance(d, s.state.machine.state), Totals(s, d), Totals(t, d), Local(s), Local(t));
  }

  lemma BeginGoesDown(s: Sys, m: Message)
    requires Calm(s) && s.core == Begin(m)
    ensures Lower(M(BeginCore(s, m, true)), M(s))
  {
    var t, d := BeginCore(s, m, true), s.state.machine.desired;
    match m
    case StateChanged(st) => BeginChange(s, d, st, t);
    case DesiredStateChanged(e) => BeginDesired(s, d, e, t);
    case ListenerConnected => BeginConnected(s, d, t);
    case _ => BeginRest(s, d, m, t);
  }

  /** A launch announces, from the level it starts at, only states closer to the goal. */
  lemma LaunchComing(d: DesiredState, w: Worker)
    requires Lasting(d) && w.pc == FirstPc(d)
    ensures Future(IsForeign, w) == Future(IsAssess, w) == Future(At(d, 2), w) == 0
    ensures Distance(d, w.snapshot.state) == 1 ==> Future(At(d, 1), w) == 0
  {
  }

  lemma DecideGoesDown(s: Sys, d: DesiredState)
    requires Calm(s) && s.core.Decide? && s.state.machine.desired == d
    ensures Lower(MeasureAt(CoreStep(s, true), d), MeasureAt(s, d))
  {
    var t := CoreStep(s, true);
    var l := Distance(d, s.state.machine.state);
    DecideCount(IsForeign, s);
    DecideCount(IsAssess, s);
    forall k { DecideCount(At(d, k), s); }
    if ShouldReconcile(s.state.machine) && s.state.recon.None? {
      LaunchComing(d, t.workers[s.nextId]);
      assert l != 0;
    }
    AssessHandled(l, Totals(s, d), Totals(t, d), Local(s), Local(t));
  }

  lemma CheckGoesDown(s: Sys, d: DesiredState)
    requires Calm(s) && s.core == CheckErrors
    ensures Lower(MeasureAt(CoreStep(s, true), d), MeasureAt(s, d))
  {
    var t, l := CoreStep(s, true), Distance(d, s.state.machine.state);
    CheckCount(IsForeign, s);
    ForeignHandled(l, l, Totals(s, d), Totals(t, d), Local(s), Local(t));
  }

  lemma ResetCount(p: Message -> bool, s: Sys)
    requires s.core == ResetErrors
    ensures Total(p, CoreStep(s, true)) <= Total(p, s)
  {
  }

  lemma ResetGoesDown(s: Sys, d: DesiredState)
    requires s.core == ResetErrors
    ensures Lower(MeasureAt(CoreStep(s, true), d), MeasureAt(s, d))
  {
    var t := CoreStep(s, true);
    forall p: Message -> bool ensures Total(p, t) <= Total(p, s) { ResetCount(p, s); }
    SameTotals(s, t, d);
    assert t.state.machine == s.state.machine && Local(t) < Local(s);
    MovedOn(Distance(d, s.state.machine.state), Totals(s, d), Totals(t, d), Local(s), Local(t));
  }

  lemma PublishGoesDown(s: Sys, d: DesiredState)
    requires s.core == PublishAssess
    ensures Lower(MeasureAt(CoreStep(s, true), d), MeasureAt(s, d))
  {
    var t := CoreStep(s, true);
    forall p: Message -> bool ensures Total(p, t) <= Total(p, s) { PublishCount(p, s); }
    SameTotals(s, t, d);
    MovedOn(Distance(d, s.state.machine.state), Totals(s, d), Totals(t, d), Local(s), Local(t));
  }

  lemma ListenGoesDown(s: Sys, d: DesiredState)
    requires s.core.Listen?
    ensures Lower(MeasureAt(CoreStep(s, true), d), MeasureAt(s, d))
  {
    var t := CoreStep(s, true);
    forall p: Message -> bool ensures Total(p, t) <= Total(p, s) { ListenCount(p, s); }
    SameTotals(s, t, d);
    ListenFrame(s, s.core.snapshot);
    assert t.state.recon == s.state.recon && t.state.machine == s.state.machine && |t.threads| <= |s.threads| + 1;
    MovedOn(Distance(d, s.state.machine.state), Totals(s, d), Totals(t, d), Local(s), Local(t));
  }

  lemma SameMachine(s: Sys)
    requires !s.core.Begin?
    ensures CoreStep(s, true).state.machine == s.state.machine
  {
    match s.core
    case Listen(snapshot) => ListenFrame(s, snapshot);
    case _ =>
  }

  lemma RestGoesDown(s: Sys, d: DesiredState)
    requires Calm(s) && s.core != CoreIdle && !s.core.Begin? && s.state.machine.desired == d
    ensures Lower(MeasureAt(CoreStep(s, true), d), MeasureAt(s, d))
  {
    match s.core
    case Decide(_) => DecideGoesDown(s, d);
    case CheckErrors => CheckGoesDown(s, d);
    case ResetErrors => ResetGoesDown(s, d);
    case PublishAssess => PublishGoesDown(s, d);
    case Listen(_) => ListenGoesDown(s, d);
  }

  lemma CoreGoesDown(s: Sys)
    requires Calm(s) && s.core != CoreIdle
    ensures Lower(M(CoreStep(s, true)), M(s))
  {
    if s.core.Begin? {
      BeginGoesDown(s, s.core.message);
    } else {
      SameMachine(s);
      RestGoesDown(s, s.state.machine.desired);
    }
  }

  lemma WorkGoesDown(s: Sys, d: DesiredState, id: nat, o: Outcome)
    requires Calm(s) && id in s.workers && CalmAction(s, Work(id, o))
    ensures Lower(MeasureAt(WorkStep(s, id, o), d), MeasureAt(s, d))
  {
    var t := WorkStep(s, id, o);
    forall p: Message -> bool ensures Total(p, t) <= Total(p, s) { WorkCount(p, s, id, o); }
    SameTotals(s, t, d);
    AdvanceRank(s.workers[id], s.res, o);
    MovedOn(Distance(d, s.state.machine.state), Totals(s, d), Totals(t, d), Local(s), Local(t));
  }

  lemma FinishGoesDown(s: Sys, d: DesiredState, id: nat)
    requires Calm(s) && id in s.workers && s.workers[id].pc.Done?
    ensures Lower(MeasureAt(FinishStep(s, id), d), MeasureAt(s, d))
  {
    var t := FinishStep(s, id);
    FinishCount(IsForeign, s, id);
    FinishCount(IsAssess, s, id);
    forall k { FinishCount(At(d, k), s, id); }
    MovedOn(Distance(d, s.state.machine.state), Totals(s, d), Totals(t, d), Local(s), Local(t));
  }

  lemma TermGoesDown(s: Sys, d: DesiredState)
    requires Calm(s) && s.term != TermIdle
    ensures Lower(MeasureAt(TermStep(s), d), MeasureAt(s, d))
  {
    var t := TermStep(s);
    assert t == s.(term := TermIdle);
    MovedOn(Distance(d, s.state.machine.state), Totals(s, d), Totals(t, d), Local(s), Local(t));
  }

  lemma ClearGoesDown(s: Sys, d: DesiredState, id: nat)
    requires id in s.threads
    ensures Lower(MeasureAt(HearStep(s, id, Clear), d), MeasureAt(s, d))
  {
    var t := HearStep(s, id, Clear);
    assert t.threads.Keys == s.threads.Keys - {id};
    assert |t.threads| == |t.threads.Keys| && |s.threads| == |s.threads.Keys|;
    MovedOn(Distance(d, s.state.machine.state), Totals(s, d), Totals(t, d), Local(s), Local(t));
  }

  lemma DisconnectCount(p: Message -> bool, s: Sys, id: nat)
    requires OneListener(s) && id in s.threads && s.threads[id].stream.Open?
    ensures Total(p, HearStep(s, id, Disconnect)) == Total(p, s)
  {
    CountInsert(p, s.bus, ListenerDisconnected);
  }

  lemma DisconnectGoesDown(s: Sys, d: DesiredState, id: nat)
    requires OneListener(s) && id in s.threads && s.threads[id].stream.Open?
    ensures Lower(MeasureAt(HearStep(s, id, Disconnect), d), MeasureAt(s, d))
  {
    var t := HearStep(s, id, Disconnect);
    forall p: Message -> bool ensures Total(p, t) <= Total(p, s) { DisconnectCount(p, s, id); }
    SameTotals(s, t, d);
    assert t.threads.Keys == s.threads.Keys;
    assert |t.threads| == |t.threads.Keys| && |s.threads| == |s.threads.Keys|;
    MovedOn(Distance(d, s.state.machine.state), Totals(s, d), Totals(t, d), Local(s), Local(t));
  }

  lemma PhaseGoesDown(s: Sys, d: DesiredState, phase: Phase)
    requires PhaseRank(phase) < PhaseRank(s.phase)
    ensures Lower(MeasureAt(s.(phase := phase), d), MeasureAt(s, d))
  {
    var t := s.(phase := phase);
    MovedOn(Distance(d, s.state.machine.state), Totals(s, d), Totals(t, d), Local(s), Local(t));
  }

  lemma CalmGoesDown(s: Sys, a: Action)
    requires Calm(s) && CalmStep(s, a)
    ensures Lower(M(Apply(s, a)), M(s))
  {
    var d := s.state.machine.desired;
    match a
    case Pick(m) => PickGoesDown(s, d, m);
    case Core(dbOk) => CoreGoesDown(s);
    case Term => TermGoesDown(s, d); TermFrame(s);
    case Work(id, o) => WorkGoesDown(s, d, id, o);
    case Finish(id) => FinishGoesDown(s, d, id);
    case Hear(id, h) => if h == Clear { ClearGoesDown(s, d, id); } else { DisconnectGoesDown(s, d, id); }
    case Subscribe => PhaseGoesDown(s, d, Subscribed);
    case Register => PhaseGoesDown(s, d, Registered);
  }

  // ---------------------------------------------------------------- calm stays calm

  lemma CalmCoreEmits(s: Sys)
    ensures forall m :: m in CorePublished(s, true) ==> Harmless(m)
  {
    match s.core
    case Begin(m) => assert m != ListenerConnected ==> CorePublished(s, true) == multiset{};
    case _ =>
  }

  lemma CalmWorkEmits(w: Worker, r: Resources, o: Outcome)
    requires OnPath(r, w) && w.pc != Published && !w.pc.Done?
    ensures forall m :: m in Advance(w, r, o).published ==> Harmless(m)
  {
    AdvanceOnPath(w, r, o);
    AdvanceChanges(w, r, o);
  }

  lemma CalmEmits(s: Sys, a: Action)
    requires Calm(s) && CalmStep(s, a)
    ensures forall m :: m in Emits(s, a) ==> Harmless(m)
  {
    match a
    case Core(dbOk) => CalmCoreEmits(s);
    case Work(id, o) => if s.workers[id].pc != Published { CalmWorkEmits(s.workers[id], s.res, o); }
    case Finish(id) => assert OnPath(s.res, s.workers[id]);
    case _ =>
  }

  lemma AdvanceChanges(w: Worker, r: Resources, o: Outcome)
    ensures forall m :: m in Advance(w, r, o).published ==> m.StateChanged? || m.ReconciliationComplete?
  {
  }

  lemma CalmBus(s: Sys, a: Action)
    requires Calm(s) && CalmStep(s, a)
    ensures forall m :: m in Apply(s, a).bus ==> Harmless(m)
  {
    CalmEmits(s, a);
    if !a.Pick? {
      ApplyBus(s, a);
      assert forall m :: m in s.bus + Emits(s, a) ==> m in s.bus || m in Emits(s, a);
    }
  }

  /** The machine stays on a lasting desired state and the controller running. */
  lemma CalmCore(s: Sys)
    requires Calm(s) && s.core != CoreIdle && ListenerPresent(s)
    ensures var t := CoreStep(s, true);
            && !t.core.Begin? && t.term == s.term
            && Lasting(t.state.machine.desired) && !t.crashed && !t.stopping
            && forall id :: id in t.workers ==> t.workers[id].desired != WantTerminated
  {
    CoreFrame(s, true);
    match s.core
    case Listen(snapshot) => ListenFrame(s, snapshot);
    case _ =>
  }

  lemma CalmRest(s: Sys, a: Action)
    requires Calm(s) && CalmStep(s, a) && !a.Core?
    ensures var t := Apply(s, a);
            && (t.core.Begin? ==> Harmless(t.core.message))
            && (t.term.TermBegin? ==> t.term.message != StateChanged(Terminated))
            && Lasting(t.state.machine.desired) && !t.crashed && !t.stopping
            && forall id :: id in t.workers ==> t.workers[id].desired != WantTerminated
  {
    match a
    case Work(id, o) => AdvanceOnPath(s.workers[id], s.res, o);
    case Term => assert TermStep(s) == s.(term := TermIdle);
    case _ =>
  }

  lemma CalmStays(s: Sys, a: Action)
    requires Calm(s) && CalmStep(s, a) && ListenerPresent(s)
    ensures Calm(Apply(s, a))
  {
    InvStep(s, a);
    StuckIffStranded(s, a);
    NonePublishedStep(s, a);
    CalmBus(s, a);
    if a.Core? { CalmCore(s); } else { CalmRest(s, a); }
  }

  // ---------------------------------------------------------------- the end

  predicate Busy(s: Sys) {
    s.bus != multiset{} || s.core != CoreIdle || s.term != TermIdle || s.workers != map[]
  }

  lemma BusyMoves(s: Sys) returns (a: Action)
    requires Calm(s) && Busy(s)
    ensures CalmStep(s, a)
  {
    if s.core != CoreIdle {
      a := Core(true);
    } else if s.term != TermIdle {
      a := Term;
    } else if s.bus != multiset{} {
      var m :| m in s.bus;
      a := Pick(m);
    } else {
      var id :| id in s.workers;
      a := if s.workers[id].pc.Done? then Finish(id) else Work(id, Outcome(true, true, true));
    }
  }

  /** Whatever listener is left has no stream open and has not been cancelled. */
  ghost predicate ListenersAtRest(s: Sys) {
    forall id :: id in s.threads ==> s.threads[id] == ListenerThread(false, Closed)
  }

  /** When no thread can move, nothing is pending, no worker is left, the service has registered the
      controller, no stream is open, and the machine is where it is wanted. */
  lemma QuiescentIsConverged(s: Sys)
    requires Calm(s) && Quiescent(s)
    ensures !Busy(s) && s.state.recon.None?
    ensures ListenersAtRest(s) && s.phase == Registered
    ensures !ShouldReconcile(s.state.machine) && Distance(s.state.machine.desired, s.state.machine.state) == 0
  {
    if Busy(s) {
      var a := BusyMoves(s);
    }
    assert !CalmStep(s, Subscribe) && !CalmStep(s, Register);
    forall id | id in s.threads ensures s.threads[id] == ListenerThread(false, Closed) {
      assert !CalmStep(s, Hear(id, Disconnect)) && !CalmStep(s, Hear(id, Clear));
    }
  }

  ghost predicate Moves(s: Sys, t: Sys) {
    exists a :: CalmStep(s, a) && t == Apply(s, a)
  }

  /** A schedule: each state follows from the one before by a calm step, and it stops only when none is left. */
  ghost predicate Schedule(f: nat -> Sys) {
    forall i: nat :: Moves(f(i), f(i + 1)) || (Quiescent(f(i)) && f(i + 1) == f(i))
  }

  /** In no state of the schedule does the handler of Connected look for a listener that has left. */
  ghost predicate ListenersPresent(f: nat -> Sys) {
    forall i: nat :: ListenerPresent(f(i))
  }

  lemma MoveGoesDown(s: Sys, t: Sys)
    requires Calm(s) && ListenerPresent(s) && Moves(s, t)
    ensures Calm(t) && Lower(M(t), M(s))
  {
    var a :| CalmStep(s, a) && t == Apply(s, a);
    CalmStays(s, a);
    CalmGoesDown(s, a);
  }

  lemma {:induction false} EndsFrom(f: nat -> Sys, i: nat) returns (n: nat)
    requires Calm(f(i)) && Schedule(f) && ListenersPresent(f)
    ensures n >= i && Quiescent(f(n)) && Calm(f(n))
    decreases M(f(i)).foreign, M(f(i)).off, M(f(i)).stateOff, M(f(i)).c, M(f(i)).d, M(f(i)).e, M(f(i)).f, M(f(i)).local
  {
    if Quiescent(f(i)) {
      n := i;
    } else {
      MoveGoesDown(f(i), f(i + 1));
      n := EndsFrom(f, i + 1);
    }
  }

  lemma QuiescentStays(s: Sys, t: Sys)
    requires Quiescent(s)
    ensures !Moves(s, t)
  {
  }

  lemma {:induction false} StaysEnded(f: nat -> Sys, n: nat, m: nat)
    requires Schedule(f) && Quiescent(f(n)) && n <= m
    ensures f(m) == f(n)
    decreases m
  {
    if n < m {
      StaysEnded(f, n, m - 1);
      QuiescentStays(f(n), f(m - 1 + 1));
    }
  }

  ghost function Next(s: Sys): (t: Sys)
    ensures Moves(s, t) || (Quiescent(s) && t == s)
  {
    if Quiescent(s) then s
    else
      var a :| CalmStep(s, a);
      Apply(s, a)
  }

  ghost function Iterated(s: Sys, n: nat): Sys {
    if n == 0 then s else Next(Iterated(s, n - 1))
  }

  /** Every state starts some schedule. */
  lemma SomeSchedule(s: Sys) returns (f: nat -> Sys)
    ensures f(0) == s && Schedule(f)
  {
    f := (n: nat) => Iterated(s, n);
    forall i: nat ensures Moves(f(i), f(i + 1)) || (Quiescent(f(i)) && f(i + 1) == f(i)) {
      assert f(i + 1) == Next(f(i));
    }
  }

  /** The schedule has come to a stop for good: nothing pending, the controller registered, no stream
      open, nothing to reconcile. */
  ghost predicate StopsAt(f: nat -> Sys, n: nat) {
    && Quiescent(f(n)) && (forall m: nat :: n <= m ==> f(m) == f(n)) && !Busy(f(n)) && ListenersAtRest(f(n))
    && f(n).phase == Registered && !ShouldReconcile(f(n).state.machine)
    && (f(n).row.desired == WantPending ==> f(n).row.state == Pending)
    && (f(n).row.desired == WantRunning ==> f(n).row.state == Running || f(n).row.state == Degraded)
  }

  lemma CalmConvergence(f: nat -> Sys) returns (n: nat)
    requires Calm(f(0)) && Schedule(f) && ListenersPresent(f)
    ensures StopsAt(f, n)
  {
    n := EndsFrom(f, 0);
    QuiescentIsConverged(f(n));
    forall m: nat | n <= m ensures f(m) == f(n) { StaysEnded(f, n, m); }
  }

  /** From any state a controller can get into, once nothing about termination is left in it: every schedule
      without new connections of the listener, in which Connected is handled only while there is one, stops,
      whatever changes between Pending and Running are still to be handled and whatever stream is still to
      end, and stops with nothing pending and nothing to reconcile. */
  lemma Convergence(f: nat -> Sys)
    requires ReachableUnder(f(0), PublishClears) && Settled(f(0)) && Schedule(f) && ListenersPresent(f)
    ensures exists n: nat :: StopsAt(f, n)
  {
    ReachableUnderInv(f(0), PublishClears);
    NeverStuck(f(0));
    var n := CalmConvergence(f);
  }

  // ---------------------------------------------------------------- starts without a listener's messages

  /** No Connected is pending or in hand. */
  predicate NoConnected(s: Sys) {
    ListenerConnected !in s.bus && s.core != Begin(ListenerConnected) && s.core != ResetErrors
  }

  lemma NoConnectedEmits(s: Sys, a: Action)
    requires CalmStep(s, a)
    ensures ListenerConnected !in Emits(s, a)
  {
    match a
    case Core(dbOk) => match s.core { case Begin(m) => case _ => }
    case Work(id, o) => AdvanceChanges(s.workers[id], s.res, o);
    case _ =>
  }

  lemma NoConnectedCore(s: Sys, dbOk: bool)
    requires s.core != CoreIdle && s.core != Begin(ListenerConnected)
    ensures CoreStep(s, dbOk).core != ResetErrors && !CoreStep(s, dbOk).core.Begin?
  {
    match s.core
    case Begin(m) =>
    case Listen(snapshot) => ListenFrame(s, snapshot);
    case _ =>
  }

  lemma NoConnectedStep(s: Sys, a: Action)
    requires NoConnected(s) && CalmStep(s, a)
    ensures NoConnected(Apply(s, a))
  {
    NoConnectedEmits(s, a);
    if a.Pick? {
      assert Apply(s, a).core == Begin(a.message);
    } else {
      ApplyBus(s, a);
      if a.Core? { NoConnectedCore(s, a.dbOk); } else { SameCoreTask(s, a); }
    }
  }

  lemma SameCoreTask(s: Sys, a: Action)
    requires CalmStep(s, a) && !a.Core? && !a.Pick?
    ensures Apply(s, a).core == s.core
  {
    if a.Term? { TermFrame(s); }
  }

  lemma {:induction false} NoConnectedSchedule(f: nat -> Sys, n: nat)
    requires NoConnected(f(0)) && Schedule(f)
    ensures NoConnected(f(n))
    decreases n
  {
    if n > 0 {
      var i: nat := n - 1;
      NoConnectedSchedule(f, i);
      assert Moves(f(i), f(i + 1)) || f(i + 1) == f(i);
      if f(n) != f(i) {
        var a :| CalmStep(f(i), a) && f(n) == Apply(f(i), a);
        NoConnectedStep(f(i), a);
      }
    }
  }

  /** From a start without one, no schedule ever handles a Connected: the condition on listeners is met. */
  lemma NoneToMiss(f: nat -> Sys)
    requires NoConnected(f(0)) && Schedule(f)
    ensures ListenersPresent(f)
  {
    forall i: nat ensures ListenerPresent(f(i)) { NoConnectedSchedule(f, i); }
  }

  // ---------------------------------------------------------------- new controllers

  /** A controller over a row, in the hands of the service or not yet. */
  function BootIn(row: Machine, res: Resources, phase: Phase): Sys {
    Boot(row, res).(phase := phase)
  }

  lemma BootReached(row: Machine, res: Resources, phase: Phase) returns (run: seq<Action>)
    requires phase != Unregistered
    ensures Legal(Boot(row, res), run) && Obeys(Boot(row, res), run, PublishClears)
    ensures Exec(Boot(row, res), run) == BootIn(row, res, phase)
  {
    var s := Boot(row, res);
    run := match phase case Subscribed => [Subscribe] case Registered => [Subscribe, Register] case _ => [];
    assert [Subscribe, Register][1..] == [Register] && [Register][1..] == [] && [Subscribe][1..] == [];
    assert Apply(s, Subscribe) == BootIn(row, res, Subscribed);
    assert Apply(BootIn(row, res, Subscribed), Register) == BootIn(row, res, Registered);
  }

  /** A machine just created or reloaded is a start of such schedules, and of none that handles a Connected. */
  lemma BootSettled(row: Machine, res: Resources, phase: Phase)
    requires LiveRow(row) && Lasting(row.desired) && phase != Unregistered
    ensures ReachableUnder(BootIn(row, res, phase), PublishClears) && Settled(BootIn(row, res, phase))
    ensures NoConnected(BootIn(row, res, phase))
  {
    var run := BootReached(row, res, phase);
  }
}
