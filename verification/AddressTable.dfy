/**
  The slot table of the network provider over every run of allocations, releases, retries and restarts.
  A slot is named by its offset; an interface object carries its own release mark, its row another.
 */
module AddressTable {
  import opened Addresses

  // ---------------------------------------------------------------- tap names

  function Digit(d: nat): char
    requires d < 10
  {
    '0' + d as char
  }

  function Decimal(n: nat): (s: string)
    ensures |s| > 0
  {
    if n < 10 then [Digit(n)] else Decimal(n / 10) + [Digit(n % 10)]
  }

  lemma {:induction false} DecimalInjective(m: nat, n: nat)
    requires Decimal(m) == Decimal(n)
    ensures m == n
    decreases m
  {
    var a, b := Decimal(m), Decimal(n);
    assert a[|a| - 1] == b[|b| - 1];
    if m >= 10 && n >= 10 {
      assert a[..|a| - 1] == Decimal(m / 10) && b[..|b| - 1] == Decimal(n / 10);
      DecimalInjective(m / 10, n / 10);
    }
  }

  function TapName(offset: nat): (s: string)
    ensures s != ""
  {
    "tap" + Decimal(offset)
  }

  lemma TapNameInjective(m: nat, n: nat)
    requires TapName(m) == TapName(n)
    ensures m == n
  {
    assert TapName(m)[3..] == Decimal(m) && TapName(n)[3..] == Decimal(n);
    DecimalInjective(m, n);
  }

  // ---------------------------------------------------------------- the table

  /** An interface by its offset, the release mark of its object and that of its row. */
  datatype Interface = Interface(offset: nat, released: bool, rowReleased: bool)

  datatype Table = Table(slots: seq<string>, ifaces: seq<Interface>)

  datatype Op =
    | Allocate(createOk: bool)
    | Release(index: nat, linkOk: bool, saveOk: bool)
    | Restart

  /** The lowest free slot from `from` on, or -1. */
  function FirstFree(slots: seq<string>, from: nat): int
    requires from <= |slots|
    decreases |slots| - from
  {
    if from == |slots| then -1 else if slots[from] == "" then from else FirstFree(slots, from + 1)
  }

  lemma {:induction false} FirstFreeIs(slots: seq<string>, from: nat)
    requires from <= |slots|
    ensures var f := FirstFree(slots, from);
            if f < 0 then f == -1 && forall o :: from <= o < |slots| ==> slots[o] != ""
            else from <= f < |slots| && slots[f] == "" && forall o :: from <= o < f ==> slots[o] != ""
    decreases |slots| - from
  {
    if from < |slots| && slots[from] != "" { FirstFreeIs(slots, from + 1); }
  }

  function Allocated(t: Table, createOk: bool): (u: Table)
    ensures |u.slots| == |t.slots|
  {
    FirstFreeIs(t.slots, 0);
    var free := FirstFree(t.slots, 0);
    if free < 0 || !createOk then t
    else Table(t.slots[free := TapName(free)], t.ifaces + [Interface(free, false, false)])
  }

  /** The slot is cleared and the object marked before the row is saved, once per object. */
  function Released(t: Table, i: nat, linkOk: bool, saveOk: bool): Table {
    if i >= |t.ifaces| || !linkOk || t.ifaces[i].released || t.ifaces[i].offset >= |t.slots| then t
    else
      Table(t.slots[t.ifaces[i].offset := ""],
            t.ifaces[i := t.ifaces[i].(released := true, rowReleased := saveOk)])
  }

  function EmptySlots(n: nat): (s: seq<string>)
    ensures |s| == n
  {
    seq(n, i => if i == 0 then "network" else if i == 1 then "br0" else "")
  }

  /** The slots with every unreleased row's name entered, in row order. */
  function ClaimRows(slots: seq<string>, rows: seq<Interface>): (r: seq<string>)
    ensures |r| == |slots|
  {
    if rows == [] then slots
    else
      var before, last := ClaimRows(slots, rows[..|rows| - 1]), rows[|rows| - 1];
      if last.rowReleased || last.offset >= |slots| then before else before[last.offset := TapName(last.offset)]
  }

  function Reloaded(fs: seq<Interface>): (r: seq<Interface>)
    ensures |r| == |fs|
  {
    seq(|fs|, i requires 0 <= i < |fs| => fs[i].(released := fs[i].rowReleased))
  }

  /** The process starts over from the rows. */
  function Restarted(t: Table): Table {
    Table(ClaimRows(EmptySlots(|t.slots|), t.ifaces), Reloaded(t.ifaces))
  }

  function Do(t: Table, op: Op): Table {
    match op
    case Allocate(createOk) => Allocated(t, createOk)
    case Release(i, linkOk, saveOk) => Released(t, i, linkOk, saveOk)
    case Restart => Restarted(t)
  }

  function Run(t: Table, ops: seq<Op>): Table
    decreases |ops|
  {
    if ops == [] then t else Run(Do(t, ops[0]), ops[1..])
  }

  function Fresh(n: nat): Table {
    Table(EmptySlots(n), [])
  }

  // ---------------------------------------------------------------- the invariant

  predicate Live(t: Table, i: int) {
    0 <= i < |t.ifaces| && !t.ifaces[i].released
  }

  predicate Sized(t: Table) {
    && 2 <= |t.slots|
    && forall i :: 0 <= i < |t.ifaces| ==> 2 <= t.ifaces[i].offset < |t.slots|
  }

  predicate Holds(t: Table, i: int, o: nat) {
    Live(t, i) && t.ifaces[i].offset == o
  }

  /** A slot is taken exactly when it is reserved or a live interface's, and then bears that one's name. */
  ghost predicate SlotsAgree(t: Table)
    requires Sized(t)
  {
    && t.slots[0] == "network" && t.slots[1] == "br0"
    && (forall i :: Live(t, i) ==> t.slots[t.ifaces[i].offset] == TapName(t.ifaces[i].offset))
    && (forall o :: 2 <= o < |t.slots| && t.slots[o] != "" ==> exists i :: Holds(t, i, o))
  }

  ghost predicate OffsetsDistinct(t: Table) {
    forall i, j :: Live(t, i) && Live(t, j) && i != j ==> t.ifaces[i].offset != t.ifaces[j].offset
  }

  predicate RowsBehind(t: Table) {
    forall i :: 0 <= i < |t.ifaces| && t.ifaces[i].rowReleased ==> t.ifaces[i].released
  }

  ghost predicate TableInv(t: Table) {
    Sized(t) && SlotsAgree(t) && OffsetsDistinct(t) && RowsBehind(t)
  }

  lemma FreshInv(n: nat)
    requires 2 <= n
    ensures TableInv(Fresh(n))
  {
  }

  lemma AllocatedTaken(t: Table, o: nat)
    requires TableInv(t) && FirstFree(t.slots, 0) >= 0 && 2 <= o < |t.slots| && Allocated(t, true).slots[o] != ""
    ensures exists i :: Holds(Allocated(t, true), i, o)
  {
    var u := Allocated(t, true);
    FirstFreeIs(t.slots, 0);
    if o == FirstFree(t.slots, 0) {
      assert Holds(u, |t.ifaces|, o);
    } else {
      var i :| Holds(t, i, o);
      assert Holds(u, i, o);
    }
  }

  lemma AllocatedDistinct(t: Table)
    requires TableInv(t)
    ensures OffsetsDistinct(Allocated(t, true))
  {
    FirstFreeIs(t.slots, 0);
    var u := Allocated(t, true);
    forall i, j | Live(u, i) && Live(u, j) && i != j ensures u.ifaces[i].offset != u.ifaces[j].offset {
      assert i < |t.ifaces| ==> Live(t, i);
      assert j < |t.ifaces| ==> Live(t, j);
    }
  }

  lemma AllocatedInv(t: Table, createOk: bool)
    requires TableInv(t)
    ensures TableInv(Allocated(t, createOk))
  {
    FirstFreeIs(t.slots, 0);
    if FirstFree(t.slots, 0) >= 0 && createOk {
      var u := Allocated(t, true);
      AllocatedDistinct(t);
      forall i | Live(u, i) ensures u.slots[u.ifaces[i].offset] == TapName(u.ifaces[i].offset) {
        assert i < |t.ifaces| ==> Live(t, i);
      }
      forall o | 2 <= o < |u.slots| && u.slots[o] != "" ensures exists i :: Holds(u, i, o) { AllocatedTaken(t, o); }
    }
  }

  lemma ReleasedInv(t: Table, i: nat, linkOk: bool, saveOk: bool)
    requires TableInv(t)
    ensures TableInv(Released(t, i, linkOk, saveOk))
  {
    var u := Released(t, i, linkOk, saveOk);
    if u != t {
      forall o | 2 <= o < |u.slots| && u.slots[o] != "" ensures exists k :: Holds(u, k, o) {
        var k :| Holds(t, k, o);
        assert Holds(u, k, o);
      }
    }
  }

  // ---------------------------------------------------------------- restart

  /** No two unreleased rows hold the same offset. */
  predicate RowsDistinct(t: Table) {
    forall i, j :: 0 <= i < j < |t.ifaces| && !t.ifaces[i].rowReleased && !t.ifaces[j].rowReleased ==>
      t.ifaces[i].offset != t.ifaces[j].offset
  }

  /** The rebuilt slots: reserved ones as they were, a claimed one with its name, the others empty. */
  lemma {:induction false} ClaimRowsIs(slots: seq<string>, rows: seq<Interface>, o: nat)
    requires o < |slots|
    ensures (exists k :: 0 <= k < |rows| && !rows[k].rowReleased && rows[k].offset == o) ==>
              ClaimRows(slots, rows)[o] == TapName(o)
    ensures !(exists k :: 0 <= k < |rows| && !rows[k].rowReleased && rows[k].offset == o) ==>
              ClaimRows(slots, rows)[o] == slots[o]
  {
    if rows != [] {
      var init := rows[..|rows| - 1];
      ClaimRowsIs(slots, init, o);
      assert forall k :: 0 <= k < |init| ==> init[k] == rows[k];
    }
  }

  lemma RestartedAgrees(t: Table)
    requires TableInv(t)
    ensures Sized(Restarted(t)) && SlotsAgree(Restarted(t)) && RowsBehind(Restarted(t))
  {
    var u := Restarted(t);
    var empty := EmptySlots(|t.slots|);
    ClaimRowsIs(empty, t.ifaces, 0);
    ClaimRowsIs(empty, t.ifaces, 1);
    forall i | Live(u, i) ensures u.slots[u.ifaces[i].offset] == TapName(u.ifaces[i].offset) {
      ClaimRowsIs(empty, t.ifaces, t.ifaces[i].offset);
    }
    forall o | 2 <= o < |u.slots| && u.slots[o] != "" ensures exists i :: Holds(u, i, o) {
      ClaimRowsIs(empty, t.ifaces, o);
      var k :| 0 <= k < |t.ifaces| && !t.ifaces[k].rowReleased && t.ifaces[k].offset == o;
      assert Holds(u, k, o);
    }
  }

  /** A restart keeps the table sound exactly when no two unreleased rows hold the same offset. */
  lemma RestartIff(t: Table)
    requires TableInv(t)
    ensures TableInv(Restarted(t)) <==> RowsDistinct(t)
  {
    var u := Restarted(t);
    RestartedAgrees(t);
    assert forall i :: 0 <= i < |t.ifaces| ==>
      (Live(u, i) <==> !t.ifaces[i].rowReleased) && u.ifaces[i].offset == t.ifaces[i].offset;
    if !RowsDistinct(t) {
      var i, j :| 0 <= i < j < |t.ifaces| && !t.ifaces[i].rowReleased && !t.ifaces[j].rowReleased &&
                  t.ifaces[i].offset == t.ifaces[j].offset;
      assert Live(u, i) && Live(u, j);
    }
  }

  // ---------------------------------------------------------------- every run

  /** Rows and objects carry the same marks. */
  predicate RowsAgree(t: Table) {
    forall i :: 0 <= i < |t.ifaces| ==> t.ifaces[i].rowReleased == t.ifaces[i].released
  }

  predicate Saves(ops: seq<Op>) {
    forall k :: 0 <= k < |ops| && ops[k].Release? ==> ops[k].saveOk
  }

  predicate OneProcess(ops: seq<Op>) {
    forall k :: 0 <= k < |ops| ==> !ops[k].Restart?
  }

  lemma DoInv(t: Table, op: Op)
    requires TableInv(t) && (op.Restart? ==> RowsDistinct(t))
    ensures TableInv(Do(t, op)) && |Do(t, op).slots| == |t.slots|
  {
    match op
    case Allocate(createOk) => AllocatedInv(t, createOk); FirstFreeIs(t.slots, 0);
    case Release(i, linkOk, saveOk) => ReleasedInv(t, i, linkOk, saveOk);
    case Restart => RestartIff(t);
  }

  /** Whatever fails, the table stays sound over any run of one process, and over any restarts as well as
      long as the releases were saved. */
  lemma {:induction false} RunInv(t: Table, ops: seq<Op>)
    requires TableInv(t) && (OneProcess(ops) || (RowsAgree(t) && Saves(ops)))
    ensures TableInv(Run(t, ops)) && |Run(t, ops).slots| == |t.slots|
    ensures RowsAgree(t) && Saves(ops) ==> RowsAgree(Run(t, ops))
    decreases |ops|
  {
    if ops != [] {
      DoInv(t, ops[0]);
      RunInv(Do(t, ops[0]), ops[1..]);
    }
  }

  function Offsets(t: Table, n: nat): (s: set<int>)
    requires n <= |t.ifaces|
  {
    set i | 0 <= i < n && Live(t, i) :: t.ifaces[i].offset as int
  }

  function FreeSlots(t: Table): set<int> {
    set o | 0 <= o < |t.slots| && t.slots[o] == ""
  }

  function LiveOnes(t: Table, n: nat): set<int> {
    set i | 0 <= i < n && Live(t, i)
  }

  function Below(n: nat): (s: set<int>)
    ensures |s| == n && forall o :: o in s <==> 0 <= o < n
  {
    if n == 0 then {} else Below(n - 1) + {n - 1}
  }

  lemma UnionSize(a: set<int>, b: set<int>)
    requires a !! b
    ensures |a + b| == |a| + |b|
  {
  }

  lemma LiveOnesStep(t: Table, n: nat)
    requires 0 < n
    ensures LiveOnes(t, n) == LiveOnes(t, n - 1) + (if Live(t, n - 1) then {n - 1} else {})
  {
  }

  lemma OffsetsStep(t: Table, n: nat)
    requires 0 < n <= |t.ifaces|
    ensures Offsets(t, n) == Offsets(t, n - 1) + (if Live(t, n - 1) then {t.ifaces[n - 1].offset as int} else {})
  {
  }

  lemma NewOffset(t: Table, n: nat)
    requires OffsetsDistinct(t) && Live(t, n)
    ensures t.ifaces[n].offset as int !in Offsets(t, n)
  {
  }

  lemma LiveOnesGrow(t: Table, n: nat)
    requires 0 < n
    ensures |LiveOnes(t, n)| == |LiveOnes(t, n - 1)| + if Live(t, n - 1) then 1 else 0
  {
    LiveOnesStep(t, n);
    UnionSize(LiveOnes(t, n - 1), if Live(t, n - 1) then {n - 1} else {});
  }

  lemma OffsetsGrow(t: Table, n: nat)
    requires OffsetsDistinct(t) && 0 < n <= |t.ifaces|
    ensures |Offsets(t, n)| == |Offsets(t, n - 1)| + if Live(t, n - 1) then 1 else 0
  {
    OffsetsStep(t, n);
    var o := t.ifaces[n - 1].offset as int;
    if Live(t, n - 1) { NewOffset(t, n - 1); }
    UnionSize(Offsets(t, n - 1), if Live(t, n - 1) then {o} else {});
  }

  lemma {:induction false} OffsetsSize(t: Table, n: nat)
    requires OffsetsDistinct(t) && n <= |t.ifaces|
    ensures |Offsets(t, n)| == |LiveOnes(t, n)|
  {
    if n == 0 {
      assert Offsets(t, 0) == {} == LiveOnes(t, 0);
    } else {
      OffsetsSize(t, n - 1);
      OffsetsGrow(t, n);
      LiveOnesGrow(t, n);
    }
  }

  /** Free slots, live interfaces and the two reserved offsets make up the whole table. */
  lemma Conservation(t: Table)
    requires TableInv(t)
    ensures |FreeSlots(t)| + |LiveOnes(t, |t.ifaces|)| + 2 == |t.slots|
  {
    var taken := Offsets(t, |t.ifaces|);
    OffsetsSize(t, |t.ifaces|);
    TakenOffsets(t);
    UnionSize(FreeSlots(t), taken);
    UnionSize(FreeSlots(t) + taken, {0, 1});
  }

  lemma TakenOffsets(t: Table)
    requires TableInv(t)
    ensures var taken := Offsets(t, |t.ifaces|);
            && FreeSlots(t) !! taken && FreeSlots(t) + taken !! {0, 1}
            && FreeSlots(t) + taken + {0, 1} == Below(|t.slots|)
  {
    var taken := Offsets(t, |t.ifaces|);
    forall o | 2 <= o < |t.slots| && t.slots[o] != "" ensures o in taken {
      var i :| Holds(t, i, o);
    }
    forall o | o in taken ensures 2 <= o < |t.slots| && t.slots[o] != "" {
      var i :| 0 <= i < |t.ifaces| && Live(t, i) && o == t.ifaces[i].offset as int;
    }
  }

  /** From an empty table, over any run of allocations, releases and restarts whose releases are saved: a slot
      is taken exactly when it is reserved or a live interface's, live interfaces are apart, rows and objects
      agree, and nothing is lost or gained. */
  lemma EveryRun(n: nat, ops: seq<Op>)
    requires 2 <= n && Saves(ops)
    ensures var t := Run(Fresh(n), ops);
            && TableInv(t) && RowsAgree(t) && |t.slots| == n
            && |FreeSlots(t)| + |LiveOnes(t, |t.ifaces|)| + 2 == n
  {
    FreshInv(n);
    RunInv(Fresh(n), ops);
    Conservation(Run(Fresh(n), ops));
  }

  /** An allocation fails for want of an address exactly when every offset but the reserved ones is live;
      otherwise it takes the lowest free offset. */
  lemma AllocationFailsIff(t: Table)
    requires TableInv(t)
    ensures FirstFree(t.slots, 0) == -1 <==> |LiveOnes(t, |t.ifaces|)| == |t.slots| - 2
    ensures var f := FirstFree(t.slots, 0);
            f != -1 ==> 2 <= f < |t.slots| && f in FreeSlots(t) && forall o :: o in FreeSlots(t) ==> f <= o
  {
    FirstFreeIs(t.slots, 0);
    Conservation(t);
    var f := FirstFree(t.slots, 0);
    if f == -1 {
      assert FreeSlots(t) == {};
    } else {
      assert f in FreeSlots(t);
    }
  }

  /** Live interfaces have different names and different addresses, and different hardware addresses in
      tables of at most 2^24 slots. */
  lemma LiveDistinct(t: Table, base: Bytes, i: int, j: int)
    requires TableInv(t) && |base| == 4 && |t.slots| <= 0x1_0000_0000 && Live(t, i) && Live(t, j) && i != j
    ensures TapName(t.ifaces[i].offset) != TapName(t.ifaces[j].offset)
    ensures AddressAt(base, t.ifaces[i].offset) != AddressAt(base, t.ifaces[j].offset)
    ensures |t.slots| <= 0x100_0000 ==> EncodeMac(t.ifaces[i].offset) != EncodeMac(t.ifaces[j].offset)
  {
    var o, p := t.ifaces[i].offset, t.ifaces[j].offset;
    if TapName(o) == TapName(p) { TapNameInjective(o, p); }
    MutualInverses(base, o, base);
    MutualInverses(base, p, base);
    if |t.slots| <= 0x100_0000 && EncodeMac(o) == EncodeMac(p) { MacInjective(o, p); }
  }

  // ---------------------------------------------------------------- releases

  /** Releasing one interface, or releasing it again, never touches the slot of another live one. */
  lemma ReleaseSparesOthers(t: Table, i: nat, j: int, linkOk: bool, saveOk: bool)
    requires TableInv(t) && Live(t, j) && i != j
    ensures var u := Released(t, i, linkOk, saveOk);
            Live(u, j) && u.ifaces[j] == t.ifaces[j] && u.slots[t.ifaces[j].offset] == t.slots[t.ifaces[j].offset] != ""
  {
  }

  /** A row that cannot be created and a link that cannot be removed leave the table alone. */
  lemma FailuresLeave(t: Table, i: nat, saveOk: bool)
    ensures Do(t, Allocate(false)) == t && Do(t, Release(i, false, saveOk)) == t
  {
  }

  /** How often the releases of interface `i` in a run change the table. */
  function Clears(t: Table, ops: seq<Op>, i: nat): nat
    decreases |ops|
  {
    if ops == [] then 0
    else
      (if ops[0].Release? && ops[0].index == i && Do(t, ops[0]) != t then 1 else 0) + Clears(Do(t, ops[0]), ops[1..], i)
  }

  /** However often it is retried, an interface object clears its slot at most once; over restarts too when
      the release was saved. */
  lemma {:induction false} ClearsOnce(t: Table, ops: seq<Op>, i: nat)
    requires TableInv(t) && (OneProcess(ops) || (RowsAgree(t) && Saves(ops)))
    ensures Clears(t, ops, i) <= if i < |t.ifaces| && t.ifaces[i].released then 0 else 1
    decreases |ops|
  {
    if ops != [] {
      var u := Do(t, ops[0]);
      DoInv(t, ops[0]);
      ClearsOnce(u, ops[1..], i);
    }
  }

  /** A machine creation that fails after its allocation leaves the slots as they were exactly when its
      one release, whose failure is ignored, gets past the kernel link; else the slot stays taken. */
  lemma FailedCreateRestores(t: Table, linkOk: bool, saveOk: bool)
    requires TableInv(t) && FirstFree(t.slots, 0) != -1
    ensures Released(Allocated(t, true), |t.ifaces|, linkOk, saveOk).slots == t.slots <==> linkOk
  {
    FirstFreeIs(t.slots, 0);
    var free := FirstFree(t.slots, 0);
    var u := Released(Allocated(t, true), |t.ifaces|, linkOk, saveOk);
    if linkOk { assert u.slots == t.slots; } else { assert u.slots[free] == TapName(free) != t.slots[free]; }
  }

  /** A release that was not saved is never saved later: a retry finds the object marked. */
  lemma {:induction false} UnsavedStaysUnsaved(t: Table, ops: seq<Op>, i: nat)
    requires i < |t.ifaces| && t.ifaces[i].released && !t.ifaces[i].rowReleased && OneProcess(ops)
    ensures var u := Run(t, ops);
            i < |u.ifaces| && u.ifaces[i].released && !u.ifaces[i].rowReleased
    decreases |ops|
  {
    if ops != [] {
      UnsavedStaysUnsaved(Do(t, ops[0]), ops[1..], i);
    }
  }

  lemma RunFirst(t: Table, op: Op, rest: seq<Op>)
    ensures Run(t, [op] + rest) == Run(Do(t, op), rest)
  {
    assert ([op] + rest)[1..] == rest;
  }

  lemma RunFive(t: Table, a: Op, b: Op, c: Op, d: Op, e: Op)
    ensures Run(t, [a, b, c, d, e]) == Do(Do(Do(Do(Do(t, a), b), c), d), e)
  {
    assert [a, b, c, d, e] == [a] + ([b] + ([c] + ([d] + ([e] + []))));
    RunFirst(t, a, [b] + ([c] + ([d] + ([e] + []))));
    RunFirst(Do(t, a), b, [c] + ([d] + ([e] + [])));
    RunFirst(Do(Do(t, a), b), c, [d] + ([e] + []));
    RunFirst(Do(Do(Do(t, a), b), c), d, [e] + []);
    RunFirst(Do(Do(Do(Do(t, a), b), c), d), e, []);
  }

  lemma UnsavedThenReused() returns (t: Table)
    ensures t == Do(Do(Do(Fresh(4), Allocate(true)), Release(0, true, false)), Allocate(true))
    ensures t.ifaces == [Interface(2, true, false), Interface(2, false, false)] && |t.slots| == 4
  {
    var t0 := Fresh(4);
    assert FirstFree(t0.slots, 2) == 2 && FirstFree(t0.slots, 1) == 2;
    var t1 := Do(t0, Allocate(true));
    assert t1.ifaces == [Interface(2, false, false)];
    var t2 := Do(t1, Release(0, true, false));
    assert t2.ifaces == [Interface(2, true, false)] && t2.slots == t0.slots;
    t := Do(t2, Allocate(true));
  }

  /** And then a restart is not safe: the slot was handed on, both rows claim it, and releasing the first
      interface again clears the slot of the second. */
  lemma UnsavedReleaseStealsSlot()
    ensures var t := Run(Fresh(4),
              [Allocate(true), Release(0, true, false), Allocate(true), Restart, Release(0, true, true)]);
            Live(t, 1) && t.ifaces[1].offset == 2 && |t.slots| == 4 && t.slots[2] == ""
  {
    RunFive(Fresh(4), Allocate(true), Release(0, true, false), Allocate(true), Restart, Release(0, true, true));
    var t3 := UnsavedThenReused();
    var t4 := Do(t3, Restart);
    assert t4.ifaces == [Interface(2, false, false), Interface(2, false, false)];
  }
}
