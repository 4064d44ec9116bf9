/**
  Bringing the agent's desired states into line with the control plane's list, and loading controllers
  from their rows. A controller is reduced to its desired state and the desired-state messages pending on
  its bus, which its dispatcher takes in any order.
 */
module AgentSync {
  import opened MachineTypes

  datatype Ctrl = Ctrl(desired: DesiredState, pending: multiset<DesiredState>)

  /** Machine ids are only ever compared. */
  type Id = nat

  type Controllers = map<Id, Ctrl>

  datatype Spec = Spec(id: Id, desired: DesiredState)

  /** What the calls made for one spec answer: the creation, the listing of stored events and how many there
      are, and each send in turn. */
  datatype Answers = Answers(createOk: bool, listOk: bool, events: nat, sends: nat -> bool)

  /** What is sent to the control plane. */
  datatype Sent = StoredEvent(id: Id, index: nat) | FakeDesired(id: Id) | FakeState(id: Id)

  // ---------------------------------------------------------------- the specification

  function Told(c: Ctrl, d: DesiredState): Ctrl {
    c.(pending := c.pending + multiset{d})
  }

  /** Missing machines are created unless wanted terminated; others are told only of a change. */
  function Synced(cs: Controllers, spec: Spec, createOk: bool): Controllers {
    if spec.id !in cs then
      if spec.desired == WantTerminated || !createOk then cs
      else cs[spec.id := Ctrl(spec.desired, multiset{})]
    else if cs[spec.id].desired != spec.desired then cs[spec.id := Told(cs[spec.id], spec.desired)]
    else cs
  }

  /** All stored events of a machine, in order. */
  function StoredEvents(id: Id, n: nat): (s: seq<Sent>)
    ensures |s| == n && forall k :: 0 <= k < n ==> s[k] == StoredEvent(id, k)
  {
    seq(n, k requires 0 <= k < n => StoredEvent(id, k))
  }

  function Fakes(cs: Controllers, spec: Spec): nat {
    if spec.id !in cs && spec.desired == WantTerminated then 2 else 0
  }

  ghost predicate SpecOk(cs: Controllers, spec: Spec, a: Answers) {
    && (spec.id in cs || spec.desired == WantTerminated || a.createOk) && a.listOk
    && forall k :: 0 <= k < a.events + Fakes(cs, spec) ==> a.sends(k)
  }

  /** After the first `n` specs. */
  function SyncedAll(cs: Controllers, specs: seq<Spec>, answers: seq<Answers>, n: nat): Controllers
    requires n <= |specs| == |answers|
  {
    if n == 0 then cs else Synced(SyncedAll(cs, specs, answers, n - 1), specs[n - 1], answers[n - 1].createOk)
  }

  ghost predicate AllOk(cs: Controllers, specs: seq<Spec>, answers: seq<Answers>, n: nat)
    requires n <= |specs| == |answers|
  {
    n > 0 ==>
      AllOk(cs, specs, answers, n - 1) &&
      SpecOk(SyncedAll(cs, specs, answers, n - 1), specs[n - 1], answers[n - 1])
  }

  /** Everything before spec `i` went well, and it did not. */
  ghost predicate FailsAt(cs: Controllers, specs: seq<Spec>, answers: seq<Answers>, i: nat)
    requires i < |specs| == |answers|
  {
    AllOk(cs, specs, answers, i) && !SpecOk(SyncedAll(cs, specs, answers, i), specs[i], answers[i])
  }

  /** Which ids the list named, and whether a machine was there for them; the last entry of an id counts. */
  function Expected(cs: Controllers, specs: seq<Spec>, answers: seq<Answers>, n: nat): map<Id, bool>
    requires n <= |specs| == |answers|
  {
    if n == 0 then map[]
    else Expected(cs, specs, answers, n - 1)[specs[n - 1].id := specs[n - 1].id in SyncedAll(cs, specs, answers, n)]
  }

  function OthersTerminated(cs: Controllers, expected: map<Id, bool>): Controllers {
    map id | id in cs :: if id in expected && expected[id] then cs[id] else Told(cs[id], WantTerminated)
  }

  /** A whole successful synchronisation. */
  function AfterSync(cs: Controllers, specs: seq<Spec>, answers: seq<Answers>): Controllers
    requires |specs| == |answers|
  {
    OthersTerminated(SyncedAll(cs, specs, answers, |specs|), Expected(cs, specs, answers, |specs|))
  }

  // ---------------------------------------------------------------- draining

  function LastOr(d: DesiredState, order: seq<DesiredState>): DesiredState {
    if order == [] then d else order[|order| - 1]
  }

  /** Some order of dispatching what is pending leaves the controller with this desired state. */
  ghost predicate CanEndIn(c: Ctrl, d: DesiredState) {
    exists order :: multiset(order) == c.pending && d == LastOr(c.desired, order)
  }

  lemma {:induction false} SomeOrder(m: multiset<DesiredState>) returns (order: seq<DesiredState>)
    ensures multiset(order) == m
    decreases |m|
  {
    if m == multiset{} {
      order := [];
    } else {
      var d :| d in m;
      var rest := SomeOrder(m - multiset{d});
      order := rest + [d];
    }
  }

  lemma EndsInPending(c: Ctrl, d: DesiredState)
    requires CanEndIn(c, d)
    ensures if c.pending == multiset{} then d == c.desired else d in c.pending
  {
    var order :| multiset(order) == c.pending && d == LastOr(c.desired, order);
    if order != [] { assert order[|order| - 1] in multiset(order); }
  }

  lemma PendingEndsIn(c: Ctrl, d: DesiredState)
    requires if c.pending == multiset{} then d == c.desired else d in c.pending
    ensures CanEndIn(c, d)
  {
    if c.pending == multiset{} {
      assert multiset([]) == c.pending && LastOr(c.desired, []) == c.desired;
    } else {
      var rest := SomeOrder(c.pending - multiset{d});
      var order := rest + [d];
      assert multiset(order) == multiset(rest) + multiset{d} == c.pending && LastOr(c.desired, order) == d;
    }
  }

  /** However its messages are ordered, the controller ends up wanting `d`. */
  ghost predicate HeadedFor(c: Ctrl, d: DesiredState) {
    forall e :: CanEndIn(c, e) <==> e == d
  }

  lemma HeadedForIff(c: Ctrl, d: DesiredState)
    ensures HeadedFor(c, d) <==>
      (forall m :: m in c.pending ==> m == d) && (c.pending == multiset{} ==> c.desired == d)
  {
    if HeadedFor(c, d) {
      assert CanEndIn(c, d);
      EndsInPending(c, d);
      forall m | m in c.pending ensures m == d { PendingEndsIn(c, m); }
    }
    if (forall m :: m in c.pending ==> m == d) && (c.pending == multiset{} ==> c.desired == d) {
      if c.pending != multiset{} { var m :| m in c.pending; }
      PendingEndsIn(c, d);
      forall e | CanEndIn(c, e) ensures e == d { EndsInPending(c, e); }
    }
  }

  // ---------------------------------------------------------------- convergence

  predicate DistinctIds(specs: seq<Spec>) {
    forall i, j :: 0 <= i < j < |specs| ==> specs[i].id != specs[j].id
  }

  predicate Lists(specs: seq<Spec>, n: nat, id: Id)
    requires n <= |specs|
  {
    n > 0 && (specs[n - 1].id == id || Lists(specs, n - 1, id))
  }

  /** What the control plane wants of a machine: what it lists, and termination of what it does not. */
  function Target(specs: seq<Spec>, n: nat, id: Id): DesiredState
    requires n <= |specs|
  {
    if n == 0 then WantTerminated else if specs[n - 1].id == id then specs[n - 1].desired else Target(specs, n - 1, id)
  }

  lemma {:induction false} ListsIff(specs: seq<Spec>, n: nat, id: Id)
    requires n <= |specs|
    ensures Lists(specs, n, id) <==> exists i :: 0 <= i < n && specs[i].id == id
    ensures !Lists(specs, n, id) ==> Target(specs, n, id) == WantTerminated
  {
    if n > 0 { ListsIff(specs, n - 1, id); }
  }

  lemma {:induction false} TargetIs(specs: seq<Spec>, n: nat, i: nat)
    requires DistinctIds(specs) && i < n <= |specs|
    ensures Lists(specs, n, specs[i].id) && Target(specs, n, specs[i].id) == specs[i].desired
  {
    if i < n - 1 { TargetIs(specs, n - 1, i); }
  }

  predicate SameAt(cs: Controllers, r: Controllers, id: Id) {
    (id in r <==> id in cs) && (id in cs ==> r[id] == cs[id])
  }

  /** A listed id: created unless wanted terminated, told of a change of mind. */
  predicate SettledAt(cs: Controllers, r: Controllers, id: Id, d: DesiredState) {
    && (id in r <==> id in cs || d != WantTerminated)
    && (id in r ==> r[id] == if id !in cs then Ctrl(d, multiset{})
                             else if cs[id].desired != d then Told(cs[id], d) else cs[id])
  }

  lemma SyncedHere(cs: Controllers, spec: Spec, a: Answers)
    requires SpecOk(cs, spec, a)
    ensures SettledAt(cs, Synced(cs, spec, a.createOk), spec.id, spec.desired)
  {
  }

  lemma SyncedElsewhere(cs: Controllers, spec: Spec, createOk: bool, id: Id)
    requires id != spec.id
    ensures SameAt(cs, Synced(cs, spec, createOk), id)
  {
  }

  /** One spec's effect on one id, listed before or not. */
  lemma StepAt(cs: Controllers, before: Controllers, spec: Spec, a: Answers, id: Id, listed: bool, d: DesiredState)
    requires SpecOk(before, spec, a) && (spec.id == id ==> !listed && d == spec.desired)
    requires if listed then SettledAt(cs, before, id, d) else SameAt(cs, before, id)
    ensures var r := Synced(before, spec, a.createOk);
            if listed || spec.id == id then SettledAt(cs, r, id, d) else SameAt(cs, r, id)
  {
    if spec.id == id { SyncedHere(before, spec, a); } else { SyncedElsewhere(before, spec, a.createOk, id); }
  }

  lemma NotListedBefore(specs: seq<Spec>, n: nat)
    requires DistinctIds(specs) && n < |specs|
    ensures !Lists(specs, n, specs[n].id)
  {
    ListsIff(specs, n, specs[n].id);
  }

  lemma {:induction false} FailedOnce(cs: Controllers, specs: seq<Spec>, answers: seq<Answers>, i: nat, n: nat)
    requires i < n <= |specs| == |answers| && FailsAt(cs, specs, answers, i)
    ensures !AllOk(cs, specs, answers, n)
    decreases n
  {
    if i < n - 1 { FailedOnce(cs, specs, answers, i, n - 1); }
  }

  /** What the first loop does to one id, up to spec `n`: it settles a listed one and leaves the others. */
  lemma {:induction false} SyncedAt(cs: Controllers, specs: seq<Spec>, answers: seq<Answers>, n: nat, id: Id)
    requires DistinctIds(specs) && n <= |specs| == |answers| && AllOk(cs, specs, answers, n)
    ensures var r := SyncedAll(cs, specs, answers, n);
            if Lists(specs, n, id) then SettledAt(cs, r, id, Target(specs, n, id)) else SameAt(cs, r, id)
  {
    if n > 0 {
      var before := SyncedAll(cs, specs, answers, n - 1);
      SyncedAt(cs, specs, answers, n - 1, id);
      NotListedBefore(specs, n - 1);
      StepAt(cs, before, specs[n - 1], answers[n - 1], id, Lists(specs, n - 1, id), Target(specs, n, id));
    }
  }

  lemma {:induction false} ExpectedAt(cs: Controllers, specs: seq<Spec>, answers: seq<Answers>, n: nat, id: Id)
    requires n <= |specs| == |answers|
    ensures var e := Expected(cs, specs, answers, n);
            && (id in e <==> Lists(specs, n, id))
            && (id in e ==> (e[id] <==> id in SyncedAll(cs, specs, answers, n)))
  {
    if n > 0 {
      ExpectedAt(cs, specs, answers, n - 1, id);
      if specs[n - 1].id != id {
        SyncedElsewhere(SyncedAll(cs, specs, answers, n - 1), specs[n - 1], answers[n - 1].createOk, id);
      }
    }
  }

  /** What a whole synchronisation does to one id. */
  lemma AfterSyncAt(cs: Controllers, specs: seq<Spec>, answers: seq<Answers>, id: Id)
    requires DistinctIds(specs) && |specs| == |answers| && AllOk(cs, specs, answers, |specs|)
    ensures var r := AfterSync(cs, specs, answers);
            && (Lists(specs, |specs|, id) ==> SettledAt(cs, r, id, Target(specs, |specs|, id)))
            && (!Lists(specs, |specs|, id) ==>
                (id in r <==> id in cs) && (id in r ==> r[id] == Told(cs[id], WantTerminated)))
  {
    SyncedAt(cs, specs, answers, |specs|, id);
    ExpectedAt(cs, specs, answers, |specs|, id);
  }

  predicate AllWant(pending: multiset<DesiredState>, d: DesiredState) {
    forall m :: m in pending ==> m == d
  }

  lemma ToldHeaded(c: Ctrl, d: DesiredState)
    ensures HeadedFor(Told(c, d), d) <==> AllWant(c.pending, d)
  {
    HeadedForIff(Told(c, d), d);
    assert forall m :: m in c.pending + multiset{d} <==> m in c.pending || m == d;
  }

  lemma SettledHeaded(cs: Controllers, r: Controllers, id: Id, d: DesiredState)
    requires SettledAt(cs, r, id, d) && id in r
    ensures HeadedFor(r[id], d) <==> (id in cs ==> AllWant(cs[id].pending, d))
  {
    HeadedForIff(r[id], d);
    if id in cs { ToldHeaded(cs[id], d); }
  }

  /** A successful synchronisation adds exactly the listed machines not wanted terminated. */
  lemma AddedIff(cs: Controllers, specs: seq<Spec>, answers: seq<Answers>, id: Id)
    requires DistinctIds(specs) && |specs| == |answers| && AllOk(cs, specs, answers, |specs|)
    ensures id in AfterSync(cs, specs, answers) <==>
      id in cs || (Lists(specs, |specs|, id) && Target(specs, |specs|, id) != WantTerminated)
  {
    AfterSyncAt(cs, specs, answers, id);
  }

  /** After it a machine ends up, in every order of its messages, where the list wants it, exactly when no
      message pending from before says otherwise. */
  lemma ConvergesIff(cs: Controllers, specs: seq<Spec>, answers: seq<Answers>, id: Id)
    requires DistinctIds(specs) && |specs| == |answers| && AllOk(cs, specs, answers, |specs|)
    requires id in AfterSync(cs, specs, answers)
    ensures HeadedFor(AfterSync(cs, specs, answers)[id], Target(specs, |specs|, id)) <==>
      (id in cs ==> AllWant(cs[id].pending, Target(specs, |specs|, id)))
  {
    AfterSyncAt(cs, specs, answers, id);
    ListsIff(specs, |specs|, id);
    if Lists(specs, |specs|, id) {
      SettledHeaded(cs, AfterSync(cs, specs, answers), id, Target(specs, |specs|, id));
    } else {
      ToldHeaded(cs[id], WantTerminated);
    }
  }

  ghost predicate Quiet(cs: Controllers) {
    forall id :: id in cs ==> cs[id].pending == multiset{}
  }

  /** A possible state once every desired-state message has been dispatched and saved. */
  ghost predicate DrainsTo(cs: Controllers, ds: Controllers) {
    ds.Keys == cs.Keys && Quiet(ds) && forall id :: id in cs ==> CanEndIn(cs[id], ds[id].desired)
  }

  /** From a quiet agent, every way of draining leads to the listed desired states. */
  lemma Converges(cs: Controllers, specs: seq<Spec>, answers: seq<Answers>, ds: Controllers)
    requires Quiet(cs) && DistinctIds(specs) && |specs| == |answers| && AllOk(cs, specs, answers, |specs|)
    requires DrainsTo(AfterSync(cs, specs, answers), ds)
    ensures forall id :: id in ds ==> ds[id] == Ctrl(Target(specs, |specs|, id), multiset{})
    ensures forall i :: 0 <= i < |specs| && specs[i].desired != WantTerminated ==>
              specs[i].id in ds && ds[specs[i].id].desired == specs[i].desired
    ensures cs.Keys <= ds.Keys
  {
    forall id | id in ds ensures ds[id] == Ctrl(Target(specs, |specs|, id), multiset{}) {
      ConvergesIff(cs, specs, answers, id);
    }
    forall i | 0 <= i < |specs| && specs[i].desired != WantTerminated
      ensures specs[i].id in ds && ds[specs[i].id].desired == specs[i].desired
    {
      TargetIs(specs, |specs|, i);
      AddedIff(cs, specs, answers, specs[i].id);
    }
    forall id | id in cs ensures id in ds { AddedIff(cs, specs, answers, id); }
  }

  lemma KeysAfter(cs: Controllers, specs: seq<Spec>, answers: seq<Answers>, ds: Controllers, id: Id)
    requires DistinctIds(specs) && |specs| == |answers| && AllOk(cs, specs, answers, |specs|)
    requires DrainsTo(AfterSync(cs, specs, answers), ds)
    ensures id in ds <==> id in cs || (Lists(specs, |specs|, id) && Target(specs, |specs|, id) != WantTerminated)
  {
    AddedIff(cs, specs, answers, id);
  }

  lemma SameEverywhere(cs: Controllers, r: Controllers)
    requires forall id :: SameAt(cs, r, id)
    ensures r == cs
  {
    forall id ensures id in r <==> id in cs { assert SameAt(cs, r, id); }
    forall id | id in cs ensures r[id] == cs[id] { assert SameAt(cs, r, id); }
  }

  lemma SettledAlready(cs: Controllers, r: Controllers, id: Id, d: DesiredState)
    requires SettledAt(cs, r, id, d) && (d != WantTerminated ==> id in cs) && (id in cs ==> cs[id].desired == d)
    ensures SameAt(cs, r, id)
  {
  }

  /** A second synchronisation creates nothing and tells no listed machine anything. */
  lemma NothingToCreate(cs: Controllers, specs: seq<Spec>, answers: seq<Answers>, ds: Controllers, again: seq<Answers>)
    requires Quiet(cs) && DistinctIds(specs) && |specs| == |answers| == |again|
    requires AllOk(cs, specs, answers, |specs|) && DrainsTo(AfterSync(cs, specs, answers), ds)
    requires AllOk(ds, specs, again, |specs|)
    ensures SyncedAll(ds, specs, again, |specs|) == ds
  {
    var r := SyncedAll(ds, specs, again, |specs|);
    Converges(cs, specs, answers, ds);
    forall id ensures SameAt(ds, r, id) {
      KeysAfter(cs, specs, answers, ds, id);
      SyncedAt(ds, specs, again, |specs|, id);
      if Lists(specs, |specs|, id) { SettledAlready(ds, r, id, Target(specs, |specs|, id)); }
    }
    SameEverywhere(ds, r);
  }

  /** Synchronising again creates nothing and changes no desired state, in every order of its messages. */
  lemma Idempotent(cs: Controllers, specs: seq<Spec>, answers: seq<Answers>, ds: Controllers,
                   again: seq<Answers>, es: Controllers)
    requires Quiet(cs) && DistinctIds(specs) && |specs| == |answers| == |again|
    requires AllOk(cs, specs, answers, |specs|) && DrainsTo(AfterSync(cs, specs, answers), ds)
    requires AllOk(ds, specs, again, |specs|) && DrainsTo(AfterSync(ds, specs, again), es)
    ensures SyncedAll(ds, specs, again, |specs|) == ds && es == ds
  {
    NothingToCreate(cs, specs, answers, ds, again);
    Converges(cs, specs, answers, ds);
    Converges(ds, specs, again, es);
    forall id ensures SameAt(ds, es, id) {
      KeysAfter(cs, specs, answers, ds, id);
      KeysAfter(ds, specs, again, es, id);
    }
    SameEverywhere(ds, es);
  }

  /** The second run does publish: every unlisted controller is told to terminate again. */
  lemma UnlistedToldAgain(cs: Controllers, specs: seq<Spec>, answers: seq<Answers>, id: Id)
    requires DistinctIds(specs) && |specs| == |answers| && AllOk(cs, specs, answers, |specs|)
    requires id in cs && !Lists(specs, |specs|, id)
    ensures id in AfterSync(cs, specs, answers)
    ensures AfterSync(cs, specs, answers)[id].pending == cs[id].pending + multiset{WantTerminated}
  {
    AfterSyncAt(cs, specs, answers, id);
  }

  // ---------------------------------------------------------------- the agent

  /** A machine's row, as far as loading looks at it. */
  datatype Row = Row(id: Id, machine: Machine)

  class Agent {
    var controllers: Controllers
    var sent: seq<Sent>

    constructor ()
      ensures controllers == map[] && sent == []
    {
      controllers, sent := map[], [];
    }

    /** One controller per row that is not terminated, wanting what its row says. */
    method LoadMachines(rows: seq<Row>)
      requires forall i, j :: 0 <= i < j < |rows| ==> rows[i].id != rows[j].id
      requires controllers == map[]
      modifies this
      ensures Quiet(controllers) && sent == old(sent)
      ensures forall id :: id in controllers <==>
        exists i :: 0 <= i < |rows| && rows[i].id == id && rows[i].machine.state != Terminated
      ensures forall i :: 0 <= i < |rows| && rows[i].machine.state != Terminated ==>
        rows[i].id in controllers && controllers[rows[i].id].desired == rows[i].machine.desired
    {
      for i := 0 to |rows|
        invariant Quiet(controllers) && sent == old(sent)
        invariant forall id :: id in controllers ==>
          exists j :: 0 <= j < i && rows[j].id == id && rows[j].machine.state != Terminated
        invariant forall j :: 0 <= j < i && rows[j].machine.state != Terminated ==>
          rows[j].id in controllers && controllers[rows[j].id].desired == rows[j].machine.desired
      {
        if rows[i].machine.state != Terminated {
          controllers := controllers[rows[i].id := Ctrl(rows[i].machine.desired, multiset{})];
        }
      }
    }

    /** False when there is no such controller. */
    method UpdateDesiredState(id: Id, d: DesiredState) returns (found: bool)
      modifies this
      ensures found <==> id in old(controllers)
      ensures controllers == (if found then old(controllers)[id := Told(old(controllers)[id], d)] else old(controllers))
      ensures found ==>
        controllers[id] == Ctrl(old(controllers)[id].desired, old(controllers)[id].pending + multiset{d})
      ensures sent == old(sent)
    {
      found := id in controllers;
      if found { controllers := controllers[id := Told(controllers[id], d)]; }
    }

    /** Sends everything, or stops at the first failure. */
    method SendAll(all: seq<Sent>, sends: nat -> bool, from: nat) returns (ok: bool)
      modifies this
      ensures ok <==> forall k :: from <= k < from + |all| ==> sends(k)
      ensures ok ==> sent == old(sent) + all
      ensures controllers == old(controllers) && old(sent) <= sent
    {
      for i := 0 to |all|
        invariant sent == old(sent) + all[..i] && controllers == old(controllers)
        invariant forall k :: from <= k < from + i ==> sends(k)
      {
        if !sends(from + i) { return false; }
        sent := sent + [all[i]];
      }
      assert all[..|all|] == all;
      ok := true;
    }

    /** `present` tells whether there is a machine to expect. A machine that is missing and wanted Terminated is
        reported as terminated, after its stored events; of any other only those are sent. */
    method SyncMachineFromSpec(spec: Spec, a: Answers) returns (present: bool, ok: bool)
      modifies this
      ensures controllers == Synced(old(controllers), spec, a.createOk)
      ensures controllers - {spec.id} == old(controllers) - {spec.id}
      ensures spec.id !in old(controllers) ==>
        && (spec.id in controllers <==> spec.desired != WantTerminated && a.createOk)
        && (spec.id in controllers ==> controllers[spec.id] == Ctrl(spec.desired, multiset{}))
      ensures spec.id in old(controllers) ==>
        var c := old(controllers)[spec.id];
        && spec.id in controllers && controllers[spec.id].desired == c.desired
        && controllers[spec.id].pending ==
           c.pending + if c.desired != spec.desired then multiset{spec.desired} else multiset{}
      ensures ok <==> SpecOk(old(controllers), spec, a)
      ensures ok ==> (present <==> spec.id in controllers)
      ensures ok && spec.id !in old(controllers) && spec.desired == WantTerminated ==>
        sent == old(sent) + StoredEvents(spec.id, a.events) + [FakeDesired(spec.id), FakeState(spec.id)]
      ensures ok && (spec.id in old(controllers) || spec.desired != WantTerminated) ==>
        sent == old(sent) + StoredEvents(spec.id, a.events)
      ensures spec.id !in old(controllers) && spec.desired == WantTerminated ==>
        (ok <==> a.listOk && forall k :: 0 <= k < a.events + 2 ==> a.sends(k))
      ensures spec.id !in old(controllers) && spec.desired != WantTerminated ==>
        (ok <==> a.createOk && a.listOk && forall k :: 0 <= k < a.events ==> a.sends(k))
      ensures spec.id in old(controllers) ==>
        (ok <==> a.listOk && forall k :: 0 <= k < a.events ==> a.sends(k))
    {
      present, ok := spec.id in controllers, false;
      var fake := false;
      if !present {
        if spec.desired == WantTerminated {
          fake := true;
        } else {
          if !a.createOk { return; }
          controllers := controllers[spec.id := Ctrl(spec.desired, multiset{})];
          present := true;
        }
      } else if controllers[spec.id].desired != spec.desired {
        var found := UpdateDesiredState(spec.id, spec.desired);
      }
      if !a.listOk { return; }
      ok := SendAll(StoredEvents(spec.id, a.events), a.sends, 0);
      if ok && fake {
        ok := SendAll([FakeDesired(spec.id), FakeState(spec.id)], a.sends, a.events);
      }
    }

    /** Lists first, then what is not listed; an error ends it with what was done so far. */
    method SyncMachines(specs: seq<Spec>, answers: seq<Answers>) returns (ok: bool)
      requires |specs| == |answers|
      modifies this
      ensures ok <==> AllOk(old(controllers), specs, answers, |specs|)
      ensures ok ==> controllers == AfterSync(old(controllers), specs, answers)
      ensures !ok ==> exists i :: 0 <= i < |specs| && FailsAt(old(controllers), specs, answers, i) &&
                                  controllers == SyncedAll(old(controllers), specs, answers, i + 1)
    {
      ghost var cs := controllers;
      var expected := map[];
      for i := 0 to |specs|
        invariant controllers == SyncedAll(cs, specs, answers, i) && AllOk(cs, specs, answers, i)
        invariant expected == Expected(cs, specs, answers, i)
      {
        var present, done := SyncMachineFromSpec(specs[i], answers[i]);
        if !done {
          assert FailsAt(cs, specs, answers, i) && controllers == SyncedAll(cs, specs, answers, i + 1);
          FailedOnce(cs, specs, answers, i, |specs|);
          return false;
        }
        expected := expected[specs[i].id := present];
      }
      TerminateOthers(expected);
      ok := true;
    }

    /** The second loop, over a listing taken before it. */
    method TerminateOthers(expected: map<Id, bool>)
      modifies this
      ensures controllers == OthersTerminated(old(controllers), expected) && sent == old(sent)
      ensures controllers.Keys == old(controllers).Keys
      ensures forall id :: id in controllers ==>
        var c := old(controllers)[id];
        controllers[id] ==
          if id in expected && expected[id] then c else Ctrl(c.desired, c.pending + multiset{WantTerminated})
    {
      ghost var cs := controllers;
      var todo := controllers.Keys;
      while todo != {}
        invariant todo <= controllers.Keys == cs.Keys && sent == old(sent)
        invariant forall id :: id in cs ==>
          controllers[id] ==
            if id in todo || (id in expected && expected[id]) then cs[id] else Told(cs[id], WantTerminated)
        decreases todo
      {
        var id :| id in todo;
        todo := todo - {id};
        if id in expected && expected[id] { continue; }
        var found := UpdateDesiredState(id, WantTerminated);
      }
    }
  }
}
