/**
  The event bus: every publish is its own goroutine blocked on an unbuffered channel, so what is
  pending is a multiset; the dispatcher takes any one of them and has every handler finish it before
  it takes the next.
 */
module EventBus {
  /** The bus as a value: pending events, what each handler has been given, and all dispatches so far. */
  datatype BusState<!T(==)> = BusState(pending: multiset<T>, handlers: map<nat, seq<T>>, dispatched: seq<T>)

  datatype BusOp<T> = Publish(event: T) | Subscribe(id: nat) | Leave(id: nat) | Dispatch(event: T)

  function Delivered<T>(handlers: map<nat, seq<T>>, event: T): map<nat, seq<T>> {
    map id | id in handlers :: handlers[id] + [event]
  }

  predicate CanDo<T(==)>(b: BusState<T>, op: BusOp<T>) {
    match op
    case Publish(_) => true
    case Subscribe(id) => id !in b.handlers
    case Leave(_) => true
    case Dispatch(e) => e in b.pending
  }

  function Do<T(==)>(b: BusState<T>, op: BusOp<T>): BusState<T>
    requires CanDo(b, op)
  {
    match op
    case Publish(e) => b.(pending := b.pending + multiset{e})
    case Subscribe(id) => b.(handlers := b.handlers[id := []])
    case Leave(id) => b.(handlers := b.handlers - {id})
    case Dispatch(e) =>
      BusState(b.pending - multiset{e}, Delivered(b.handlers, e), b.dispatched + [e])
  }

  predicate CanRun<T(==)>(b: BusState<T>, ops: seq<BusOp<T>>)
    decreases |ops|
  {
    ops == [] || (CanDo(b, ops[0]) && CanRun(Do(b, ops[0]), ops[1..]))
  }

  function Run<T(==)>(b: BusState<T>, ops: seq<BusOp<T>>): BusState<T>
    requires CanRun(b, ops)
    decreases |ops|
  {
    if ops == [] then b else Run(Do(b, ops[0]), ops[1..])
  }

  function AllPublished<T>(ops: seq<BusOp<T>>): multiset<T> {
    if ops == [] then multiset{}
    else (if ops[0].Publish? then multiset{ops[0].event} else multiset{}) + AllPublished(ops[1..])
  }

  predicate SuffixOf<T(==)>(s: seq<T>, t: seq<T>) {
    |s| <= |t| && s == t[|t| - |s|..]
  }

  /** Every handler has been given the latest dispatches, in dispatch order, and nothing else. */
  ghost predicate OneOrder<T>(b: BusState<T>) {
    forall id :: id in b.handlers ==> SuffixOf(b.handlers[id], b.dispatched)
  }

  lemma OneOrderKept<T>(b: BusState<T>, op: BusOp<T>)
    requires OneOrder(b) && CanDo(b, op)
    ensures OneOrder(Do(b, op))
  {
    var c := Do(b, op);
    forall id | id in c.handlers ensures SuffixOf(c.handlers[id], c.dispatched) {
      if op.Dispatch? {
        assert c.handlers[id] == b.handlers[id] + [op.event];
        var n := |b.dispatched| - |b.handlers[id]|;
        assert c.dispatched[n..] == b.dispatched[n..] + [op.event];
      }
    }
  }

  /** Over any run nothing is lost or invented, and all handlers see one serial order. */
  lemma {:induction false} Conservation<T>(b: BusState<T>, ops: seq<BusOp<T>>)
    requires CanRun(b, ops) && OneOrder(b)
    ensures var c := Run(b, ops);
            && c.pending + multiset(c.dispatched) == b.pending + multiset(b.dispatched) + AllPublished(ops)
            && OneOrder(c)
    decreases |ops|
  {
    if ops != [] {
      var c := Do(b, ops[0]);
      OneOrderKept(b, ops[0]);
      Conservation(c, ops[1..]);
      if ops[0].Dispatch? {
        assert multiset(c.dispatched) == multiset(b.dispatched) + multiset{ops[0].event};
      }
    }
  }

  lemma GivenOne<T>(b: BusState<T>, op: BusOp<T>, i: nat)
    requires CanDo(b, op) && i in b.handlers && op != Leave(i)
    ensures var c := Do(b, op);
            && b.dispatched <= c.dispatched
            && i in c.handlers && c.handlers[i] == b.handlers[i] + c.dispatched[|b.dispatched|..]
  {
  }

  lemma SuffixesJoin<T>(x: seq<T>, y: seq<T>, z: seq<T>, h: seq<T>)
    requires x <= y <= z
    ensures h + y[|x|..] + z[|y|..] == h + z[|x|..]
  {
    assert y == z[..|y|];
    assert y[|x|..] + z[|y|..] == z[|x|..];
  }

  /** A handler that is subscribed and stays so is given exactly the events dispatched meanwhile, in order. */
  lemma {:induction false} GivenAll<T>(b: BusState<T>, ops: seq<BusOp<T>>, i: nat)
    requires CanRun(b, ops) && i in b.handlers && forall k :: 0 <= k < |ops| ==> ops[k] != Leave(i)
    ensures var c := Run(b, ops);
            && b.dispatched <= c.dispatched
            && i in c.handlers && c.handlers[i] == b.handlers[i] + c.dispatched[|b.dispatched|..]
    decreases |ops|
  {
    if ops != [] {
      var c := Do(b, ops[0]);
      GivenOne(b, ops[0], i);
      GivenAll(c, ops[1..], i);
      SuffixesJoin(b.dispatched, c.dispatched, Run(b, ops).dispatched, b.handlers[i]);
    }
  }

  /** One that subscribes during a run is given exactly the events dispatched from then on. */
  lemma GivenAllSince<T>(b: BusState<T>, ops: seq<BusOp<T>>, i: nat)
    requires CanDo(b, Subscribe(i)) && CanRun(Do(b, Subscribe(i)), ops)
    requires forall k :: 0 <= k < |ops| ==> ops[k] != Leave(i)
    ensures var c := Run(Do(b, Subscribe(i)), ops);
            && b.dispatched <= c.dispatched
            && i in c.handlers && c.handlers[i] == c.dispatched[|b.dispatched|..]
  {
    GivenAll(Do(b, Subscribe(i)), ops, i);
  }

  /** One that has left is given nothing more, and the others are as they were. */
  lemma LeftAlone<T>(b: BusState<T>, i: nat)
    ensures var c := Do(b, Leave(i));
            && i !in c.handlers && c.pending == b.pending && c.dispatched == b.dispatched
            && forall j :: j in b.handlers && j != i ==> j in c.handlers && c.handlers[j] == b.handlers[j]
  {
  }

  /** Two handlers that are subscribed before a run and stay subscribed are given the same events in the
      same order. */
  lemma {:induction false} SameDeliveries<T>(b: BusState<T>, ops: seq<BusOp<T>>, i: nat, j: nat)
    requires CanRun(b, ops) && i in b.handlers && j in b.handlers && b.handlers[i] == b.handlers[j]
    requires forall k :: 0 <= k < |ops| ==> ops[k] != Leave(i) && ops[k] != Leave(j)
    ensures var h := Run(b, ops).handlers;
            i in h && j in h && h[i] == h[j]
    decreases |ops|
  {
    if ops != [] {
      SameDeliveries(Do(b, ops[0]), ops[1..], i, j);
    }
  }

  /** The running bus. */
  class Bus<T(==)> {
    var pending: multiset<T>
    var handlers: map<nat, seq<T>>
    ghost var dispatched: seq<T>

    ghost function View(): BusState<T>
      reads this
    {
      BusState(pending, handlers, dispatched)
    }

    constructor ()
      ensures View() == BusState(multiset{}, map[], [])
    {
      pending, handlers, dispatched := multiset{}, map[], [];
    }

    method PublishEvent(event: T)
      modifies this
      ensures View() == Do(old(View()), Publish(event))
      ensures pending == old(pending) + multiset{event} && handlers == old(handlers)
    {
      pending := pending + multiset{event};
    }

    /** The subscription identity is new. */
    method SubscribeToEvents(id: nat)
      requires id !in handlers
      modifies this
      ensures View() == Do(old(View()), Subscribe(id))
      ensures handlers == old(handlers)[id := []] && pending == old(pending)
    {
      handlers := handlers[id := []];
    }

    method Unsubscribe(id: nat)
      modifies this
      ensures View() == Do(old(View()), Leave(id))
      ensures handlers == old(handlers) - {id} && pending == old(pending)
    {
      handlers := handlers - {id};
    }

    /** Gives the event to every handler, in no particular order, and returns when all are done. */
    method DispatchEvent(event: T)
      modifies this
      ensures handlers == Delivered(old(handlers), event)
      ensures handlers.Keys == old(handlers).Keys
      ensures forall id :: id in handlers ==> handlers[id] == old(handlers)[id] + [event]
      ensures pending == old(pending) && dispatched == old(dispatched)
    {
      var todo := handlers.Keys;
      while todo != {}
        invariant todo <= handlers.Keys == old(handlers).Keys
        invariant forall id :: id in handlers ==>
          handlers[id] == if id in todo then old(handlers)[id] else old(handlers)[id] + [event]
        invariant pending == old(pending) && dispatched == old(dispatched)
        decreases todo
      {
        var id :| id in todo;
        handlers := handlers[id := handlers[id] + [event]];
        todo := todo - {id};
      }
    }

    /** One turn of the dispatcher: any pending event. */
    method DispatchNext() returns (event: T)
      requires pending != multiset{}
      modifies this
      ensures event in old(pending) && View() == Do(old(View()), Dispatch(event))
      ensures pending == old(pending) - multiset{event} && handlers.Keys == old(handlers).Keys
      ensures forall id :: id in handlers ==> handlers[id] == old(handlers)[id] + [event]
    {
      event :| event in pending;
      pending := pending - multiset{event};
      DispatchEvent(event);
      dispatched := dispatched + [event];
    }
  }
}
