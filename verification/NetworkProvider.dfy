/**
  The network provider as the object it is: a slot array indexed by address offset, filled from the rows
  at start, searched and written by allocations, cleared by releases. Each method does to the array and
  the interface objects what the table's operation of the same name does.
 */
module NetworkProvider {
  import opened Addresses
  import opened AddressTable

  class NetworkInterface {
    const name: string
    const ip: Bytes
    const mac: Bytes
    var released: bool
    /** The row's own column. */
    var rowReleased: bool

    constructor (name: string, ip: Bytes, mac: Bytes)
      ensures this.name == name && this.ip == ip && this.mac == mac && !released && !rowReleased
    {
      this.name, this.ip, this.mac := name, ip, mac;
      released, rowReleased := false, false;
    }
  }

  /** Named, addressed and numbered by its offset from the base, which lies in the table. */
  predicate WellNamed(f: NetworkInterface, base: Bytes, size: nat) {
    && |f.ip| == |base| && OffsetOf(f.ip, base) < size
    && f.name == TapName(OffsetOf(f.ip, base)) && f.mac == EncodeMac(OffsetOf(f.ip, base))
  }

  ghost function Entries(fs: seq<NetworkInterface>, base: Bytes): (r: seq<Interface>)
    requires forall i :: 0 <= i < |fs| ==> |fs[i].ip| == |base|
    reads fs
    ensures |r| == |fs|
  {
    seq(|fs|, i requires 0 <= i < |fs| reads fs =>
      Interface(OffsetOf(fs[i].ip, base), fs[i].released, fs[i].rowReleased))
  }

  /** The objects are fresh from these rows. */
  ghost predicate LoadedFrom(fs: seq<NetworkInterface>, base: Bytes, rows: seq<Interface>)
    reads fs
  {
    (forall i :: 0 <= i < |fs| ==> |fs[i].ip| == |base|) && Entries(fs, base) == Reloaded(rows)
  }

  /** The array with the network's own address and the gateway's taken. */
  method ReserveSlots(base: Bytes, size: nat) returns (slots: array<string>, gateway: Bytes)
    requires |base| == 4 && 2 <= size <= 0x1_0000_0000
    ensures fresh(slots) && slots[..] == EmptySlots(size) && gateway == AddressAt(base, 1)
  {
    slots := new string[size](_ => "");
    var ip := CalculateIPFromOffset(base, 1);
    gateway := ip[..];
    MutualInverses(base, 0, base);
    MutualInverses(base, 1, base);
    AtZero(base);
    var o := CalculateOffsetFromIP(base, base);
    slots[o] := "network";
    o := CalculateOffsetFromIP(gateway, base);
    slots[o] := "br0";
  }

  /** The loop over the unreleased rows. */
  method ClaimSlots(slots: array<string>, base: Bytes, loaded: seq<NetworkInterface>)
    requires forall i :: 0 <= i < |loaded| ==> |loaded[i].ip| == |base|
    requires forall i :: 0 <= i < |loaded| ==> WellNamed(loaded[i], base, slots.Length)
    modifies slots
    ensures slots[..] == ClaimRows(old(slots[..]), Entries(loaded, base))
  {
    ghost var rows := Entries(loaded, base);
    assert rows[..0] == [];
    for i := 0 to |loaded|
      invariant slots[..] == ClaimRows(old(slots[..]), rows[..i])
      invariant rows == Entries(loaded, base)
    {
      var f := loaded[i];
      assert WellNamed(f, base, slots.Length);
      assert rows[..i + 1][..i] == rows[..i] && rows[..i + 1][i] == rows[i];
      if !f.rowReleased {
        var o := CalculateOffsetFromIP(f.ip, base);
        slots[o] := f.name;
      }
    }
    assert rows[..|loaded|] == rows;
  }

  class Provider {
    const base: Bytes
    const gateway: Bytes
    const allocatedIPs: array<string>
    /** Every interface object of this process, in order of appearance. */
    ghost var issued: seq<NetworkInterface>

    ghost predicate Valid()
      reads this
    {
      && |base| == 4 && 2 <= allocatedIPs.Length <= 0x1_0000_0000
      && (forall i :: 0 <= i < |issued| ==> WellNamed(issued[i], base, allocatedIPs.Length))
      && (forall i, j :: 0 <= i < j < |issued| ==> issued[i] != issued[j])
    }

    ghost function View(): Table
      requires Valid()
      reads this, issued, allocatedIPs
    {
      Table(allocatedIPs[..], Entries(issued, base))
    }

    /** `New` over the objects loaded from the rows: the table of a restart. A 32-bit prefix leaves no room
        for the gateway, whose entry would be outside the array. */
    constructor (base: Bytes, hostBits: nat, loaded: seq<NetworkInterface>, ghost before: Table)
      requires |base| == 4 && 1 <= hostBits <= 32 && |before.slots| == Pow2(hostBits)
      requires forall i :: 0 <= i < |loaded| ==> WellNamed(loaded[i], base, Pow2(hostBits))
      requires forall i, j :: 0 <= i < j < |loaded| ==> loaded[i] != loaded[j]
      requires LoadedFrom(loaded, base, before.ifaces)
      ensures Valid() && fresh(allocatedIPs) && issued == loaded && this.base == base
      ensures gateway == AddressAt(base, 1)
      ensures View() == Restarted(before)
    {
      SizeBounds(hostBits);
      var slots, gatewayIP := ReserveSlots(base, Pow2(hostBits));
      ClaimSlots(slots, base, loaded);
      this.base, this.gateway, allocatedIPs, issued := base, gatewayIP, slots, loaded;
      assert Entries(loaded, base) == Reloaded(before.ifaces);
      ClaimRowsReloaded(EmptySlots(Pow2(hostBits)), before.ifaces);
    }

    /** First fit, from offset 0. */
    method FindAvailableOffset() returns (index: int)
      ensures index == FirstFree(allocatedIPs[..], 0)
    {
      index := 0;
      while index < allocatedIPs.Length
        invariant 0 <= index <= allocatedIPs.Length
        invariant FirstFree(allocatedIPs[..], 0) == FirstFree(allocatedIPs[..], index)
      {
        if allocatedIPs[index] == "" { return; }
        index := index + 1;
      }
      index := -1;
    }

    /** Nil when no address is free or the row could not be created. */
    method AllocateInterface(createOk: bool) returns (f: NetworkInterface?)
      requires Valid()
      modifies this, allocatedIPs
      ensures Valid() && View() == Allocated(old(View()), createOk)
      ensures f == null <==> FirstFree(old(allocatedIPs[..]), 0) == -1 || !createOk
      ensures f == null ==> issued == old(issued)
      ensures f != null ==> fresh(f) && issued == old(issued) + [f] && !f.released && !f.rowReleased
      ensures f == null ==> allocatedIPs[..] == old(allocatedIPs[..])
      ensures f != null ==>
        var free := FirstFree(old(allocatedIPs[..]), 0);
        && 0 <= free < allocatedIPs.Length
        && f.name == TapName(free) && f.ip == AddressAt(base, free) && f.mac == EncodeMac(free)
        && allocatedIPs[..] == old(allocatedIPs[..])[free := f.name]
    {
      FirstFreeIs(allocatedIPs[..], 0);
      var index := FindAvailableOffset();
      if index == -1 { return null; }
      var ip := CalculateIPFromOffset(base, index);
      MutualInverses(base, index, base);
      f := new NetworkInterface(TapName(index), ip[..], EncodeMac(index));
      if !createOk { return null; }
      ghost var before := View();
      allocatedIPs[index] := f.name;
      issued := issued + [f];
      assert Entries(issued, base) == before.ifaces + [Interface(index, false, false)];
    }

    /** The kernel link goes first; then, once per object, the slot, the mark and the row. `i` is the
        interface's place among the issued ones. */
    method ReleaseInterface(f: NetworkInterface, ghost i: nat, linkOk: bool, saveOk: bool) returns (ok: bool)
      requires Valid() && i < |issued| && issued[i] == f
      modifies f, allocatedIPs
      ensures Valid() && View() == Released(old(View()), i, linkOk, saveOk)
      ensures ok <==> linkOk && (old(f.released) || saveOk)
      ensures f.released <==> old(f.released) || linkOk
      ensures linkOk && !old(f.released) ==>
        f.rowReleased == saveOk && allocatedIPs[..] == old(allocatedIPs[..])[OffsetOf(f.ip, base) := ""]
      ensures !linkOk || old(f.released) ==>
        f.rowReleased == old(f.rowReleased) && allocatedIPs[..] == old(allocatedIPs[..])
    {
      if !linkOk { return false; }
      ok := true;
      ghost var before := View();
      if !f.released {
        var o := CalculateOffsetFromIP(f.ip, base);
        allocatedIPs[o] := "";
        f.released := true;
        f.rowReleased := saveOk;
        ok := saveOk;
        assert Entries(issued, base) == before.ifaces[i := Interface(o, true, saveOk)] by {
          assert before.ifaces[i].offset == o;
        }
      }
    }

    /** The address of the interface behind a hardware address: for every issued one that the 24 bits can
        number, the address it was allocated with. */
    method GetInterface(name: string, mac: Bytes) returns (f: NetworkInterface)
      requires Valid()
      ensures fresh(f) && f.name == name && f.mac == mac && f.ip == AddressOfMac(base, mac, allocatedIPs.Length)
      ensures allocatedIPs.Length <= 0x100_0000 ==>
        forall g: NetworkInterface :: g in issued && g.mac == mac ==> f.ip == g.ip
    {
      var ip := CalculateIPFromOffset(base, DecodeMac(mac, allocatedIPs.Length));
      f := new NetworkInterface(name, ip[..], mac);
      if allocatedIPs.Length <= 0x100_0000 {
        forall g: NetworkInterface | g in issued && g.mac == mac ensures f.ip == g.ip {
          IdentityRecovery(base, OffsetOf(g.ip, base), mac, allocatedIPs.Length);
          AddressOfOffset(g.ip, base);
        }
      }
    }
  }

  lemma {:induction false} Pow2Grows(m: nat, n: nat)
    requires m <= n
    ensures Pow2(m) <= Pow2(n)
  {
    if m < n { Pow2Grows(m, n - 1); }
  }

  lemma SizeBounds(hostBits: nat)
    requires 1 <= hostBits <= 32
    ensures 2 <= Pow2(hostBits) <= 0x1_0000_0000
  {
    assert Pow2(1) == 2;
    Pow2Grows(1, hostBits);
    Pow2Grows(hostBits, 32);
    assert Pow2(8) == 256 by { assert Pow2(4) == 16; Pow2Split(8); }
    Pow2Split(16);
    Pow2Split(24);
    Pow2Split(32);
  }

  lemma {:induction false} ClaimRowsReloaded(slots: seq<string>, rows: seq<Interface>)
    ensures ClaimRows(slots, Reloaded(rows)) == ClaimRows(slots, rows)
  {
    if rows != [] {
      var init := rows[..|rows| - 1];
      assert Reloaded(rows)[..|rows| - 1] == Reloaded(init);
      ClaimRowsReloaded(slots, init);
    }
  }
}
