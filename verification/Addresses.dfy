/**
  The byte-wise address arithmetic of the network provider: an offset is added to the network address
  byte by byte without carry, and read back byte by byte without borrow; hardware addresses carry the
  low three bytes of the offset.
 */
module Addresses {
  type Byte = b: int | 0 <= b < 256
  type Bytes = seq<Byte>

  /** The number a big-endian byte string writes. */
  function Value(bs: Bytes): nat {
    if |bs| == 0 then 0 else Value(bs[..|bs| - 1]) * 256 + bs[|bs| - 1]
  }

  function Pow256(n: nat): (p: nat)
    ensures p > 0
  {
    if n == 0 then 1 else 256 * Pow256(n - 1)
  }

  function Pow2(n: nat): (p: nat)
    ensures p > 0
  {
    if n == 0 then 1 else 2 * Pow2(n - 1)
  }

  /** Byte-wise difference, wrapping at 256. */
  function Difference(ip: Bytes, base: Bytes): (d: Bytes)
    requires |ip| == |base|
    ensures |d| == |ip|
  {
    seq(|ip|, i requires 0 <= i < |ip| => (ip[i] as int - base[i]) % 256)
  }

  function OffsetOf(ip: Bytes, base: Bytes): nat
    requires |ip| == |base|
  {
    Value(Difference(ip, base))
  }

  /** A byte and the last digit of the offset, wrapping at 256. */
  function SumByte(b: Byte, offset: int): Byte {
    (b + offset % 256) % 256
  }

  /** Byte-wise sum of the base and the digits of the offset, wrapping at 256; `/` and `%` round down, as
      the shift and the mask do on negative numbers. */
  function AddressAt(base: Bytes, offset: int): (ip: Bytes)
    ensures |ip| == |base|
  {
    if |base| == 0 then []
    else AddressAt(base[..|base| - 1], offset / 256) + [SumByte(base[|base| - 1], offset)]
  }

  // ---------------------------------------------------------------- the loops

  /** `calculateOffsetFromIP`, on addresses already in their four-byte form. */
  method CalculateOffsetFromIP(ip: Bytes, base: Bytes) returns (offset: nat)
    requires |ip| == |base|
    ensures offset == OffsetOf(ip, base)
  {
    offset := 0;
    for i := 0 to |ip|
      invariant offset == Value(Difference(ip, base)[..i])
    {
      offset := offset * 256 + (ip[i] as int - base[i]) % 256;
      assert Difference(ip, base)[..i + 1][..i] == Difference(ip, base)[..i];
    }
    assert Difference(ip, base)[..|ip|] == Difference(ip, base);
  }

  lemma {:induction false} AtZero(base: Bytes)
    ensures AddressAt(base, 0) == base
  {
    if |base| > 0 {
      AtZero(base[..|base| - 1]);
      assert base == base[..|base| - 1] + [base[|base| - 1]];
    }
  }

  lemma NothingLeft(base: Bytes, rest: int)
    requires rest == 0 || base == []
    ensures AddressAt(base, rest) == base
  {
    if rest == 0 { AtZero(base); }
  }

  /** One turn of the loop over the bytes, on what is left of the base and of the offset. */
  lemma AddressStep(base: Bytes, i: nat, rest: int, tail: Bytes)
    requires i < |base|
    ensures AddressAt(base[..i + 1], rest) + tail ==
      AddressAt(base[..i], rest / 256) + ([SumByte(base[i], rest)] + tail)
  {
    assert base[..i + 1][..i] == base[..i];
  }

  /** `calculateIPFromOffset`: from the last byte up, stopping when no digit is left. */
  method CalculateIPFromOffset(base: Bytes, offset: int) returns (ip: array<Byte>)
    ensures fresh(ip) && ip[..] == AddressAt(base, offset)
  {
    ip := new Byte[|base|](i requires 0 <= i < |base| => base[i]);
    assert ip[..] == base;
    AddDigits(ip, offset);
  }

  method AddDigits(ip: array<Byte>, offset: int)
    modifies ip
    ensures ip[..] == AddressAt(old(ip[..]), offset)
  {
    ghost var base := ip[..];
    ghost var tail: Bytes := [];
    var rest, i := offset, ip.Length;
    assert base[..i] == base && AddressAt(base, offset) + tail == AddressAt(base, offset);
    while i > 0
      invariant 0 <= i <= ip.Length == |base| && ip[..] == base[..i] + tail
      invariant AddressAt(base, offset) == AddressAt(base[..i], rest) + tail
    {
      i := i - 1;
      AddressStep(base, i, rest, tail);
      SetByte(base, i, tail, SumByte(base[i], rest));
      tail := [SumByte(base[i], rest)] + tail;
      ip[i] := SumByte(ip[i], rest);
      rest := rest / 256;
      if rest == 0 { break; }
    }
    NothingLeft(base[..i], rest);
  }

  lemma SetByte(base: Bytes, i: nat, tail: Bytes, b: Byte)
    requires i < |base|
    ensures (base[..i + 1] + tail)[i] == base[i]
    ensures (base[..i + 1] + tail)[i := b] == base[..i] + ([b] + tail)
  {
  }

  // ---------------------------------------------------------------- mutual inverses

  lemma {:induction false} ValueBelow(bs: Bytes)
    ensures Value(bs) < Pow256(|bs|)
  {
    if |bs| > 0 { ValueBelow(bs[..|bs| - 1]); }
  }

  lemma DifferenceInit(ip: Bytes, base: Bytes)
    requires |ip| == |base| > 0
    ensures Difference(ip, base)[..|ip| - 1] == Difference(ip[..|ip| - 1], base[..|base| - 1])
  {
  }

  lemma OffsetStep(ip: Bytes, base: Bytes)
    requires |ip| == |base| > 0
    ensures var d := (ip[|ip| - 1] as int - base[|base| - 1]) % 256;
            OffsetOf(ip, base) == OffsetOf(ip[..|ip| - 1], base[..|base| - 1]) * 256 + d
  {
    DifferenceInit(ip, base);
  }

  lemma ByteBack(a: Byte, b: Byte, q: int)
    ensures var o := q * 256 + (a as int - b) % 256;
            o / 256 == q && (b + o % 256) % 256 == a
  {
  }

  /** Address to offset and back is the identity, for any base whatever. */
  lemma {:induction false} AddressOfOffset(ip: Bytes, base: Bytes)
    requires |ip| == |base|
    ensures AddressAt(base, OffsetOf(ip, base)) == ip
  {
    if |ip| > 0 {
      var init := ip[..|ip| - 1];
      AddressOfOffset(init, base[..|base| - 1]);
      OffsetStep(ip, base);
      ByteBack(ip[|ip| - 1], base[|base| - 1], OffsetOf(init, base[..|base| - 1]));
      assert ip == init + [ip[|ip| - 1]];
    }
  }

  lemma ModStep(x: int, p: int)
    requires p > 0
    ensures x % (256 * p) == (x / 256 % p) * 256 + x % 256
  {
    var q, r := x / 256, x % 256;
    var k := q / p;
    assert x == 256 * (p * k + q % p) + r;
    assert x == (256 * p) * k + (256 * (q % p) + r);
    assert 0 <= 256 * (q % p) + r < 256 * p;
    DivModUnique(x, 256 * p, k, 256 * (q % p) + r);
  }

  lemma MulGrows(m: int, d: int)
    requires m > 0
    ensures d >= 1 ==> m * d >= m
    ensures d <= -1 ==> m * d <= -m
  {
    assert m * d == m + m * (d - 1) == -m + m * (d + 1);
  }

  lemma DivModUnique(x: int, m: int, q: int, r: int)
    requires m > 0 && 0 <= r < m && x == m * q + r
    ensures x % m == r && x / m == q
  {
    var d := x / m - q;
    assert m * d == r - x % m;
    MulGrows(m, d);
  }

  /** Offset to address and back is the offset modulo the size of the address space, for any base and any
      offset, negative ones too; so it is the identity on offsets in range. */
  lemma {:induction false} OffsetOfAddress(base: Bytes, offset: int)
    ensures OffsetOf(AddressAt(base, offset), base) == offset % Pow256(|base|)
  {
    if |base| > 0 {
      var init, ip := base[..|base| - 1], AddressAt(base, offset);
      OffsetOfAddress(init, offset / 256);
      assert ip[..|ip| - 1] == AddressAt(init, offset / 256);
      OffsetStep(ip, base);
      ByteForth(base[|base| - 1], offset);
      ModStep(offset, Pow256(|base| - 1));
    }
  }

  lemma ByteForth(b: Byte, offset: int)
    ensures ((b + offset % 256) % 256 - b) % 256 == offset % 256
  {
  }

  lemma FourBytes()
    ensures Pow256(4) == 0x1_0000_0000
  {
    assert Pow256(2) == 65536;
    assert Pow256(3) == 256 * Pow256(2) && Pow256(4) == 256 * Pow256(3);
  }

  /** The two functions are mutual inverses between the offsets below 2^32 and the four-byte addresses. */
  lemma MutualInverses(base: Bytes, offset: nat, ip: Bytes)
    requires |base| == |ip| == 4 && offset < 0x1_0000_0000
    ensures OffsetOf(AddressAt(base, offset), base) == offset
    ensures AddressAt(base, OffsetOf(ip, base)) == ip && OffsetOf(ip, base) < 0x1_0000_0000
  {
    FourBytes();
    OffsetOfAddress(base, offset);
    AddressOfOffset(ip, base);
    ValueBelow(Difference(ip, base));
  }

  // ---------------------------------------------------------------- no carry

  /** No byte of the sum overflows. */
  predicate NoCarry(base: Bytes, offset: nat) {
    |base| == 0 || (base[|base| - 1] + offset % 256 < 256 && NoCarry(base[..|base| - 1], offset / 256))
  }

  lemma ByteSum(b: Byte, offset: nat)
    ensures SumByte(b, offset) <= b + offset % 256
    ensures SumByte(b, offset) == b + offset % 256 <==> b + offset % 256 < 256
  {
  }

  /** Sums of numbers that end in a byte: exact when both parts are. */
  lemma ExactParts(v: nat, w: nat, q: nat, x: nat, b: nat, r: nat)
    requires v <= w + q && x <= b + r
    ensures v * 256 + x <= (w * 256 + b) + (q * 256 + r)
    ensures v * 256 + x == (w * 256 + b) + (q * 256 + r) <==> v == w + q && x == b + r
  {
  }

  /** The carry-free loop computes base + offset exactly when no byte overflows; each overflow only loses. */
  lemma {:induction false} ExactIffNoCarry(base: Bytes, offset: nat)
    requires offset < Pow256(|base|)
    ensures Value(AddressAt(base, offset)) <= Value(base) + offset
    ensures Value(AddressAt(base, offset)) == Value(base) + offset <==> NoCarry(base, offset)
  {
    if |base| > 0 {
      var init, b := base[..|base| - 1], base[|base| - 1];
      var ip := AddressAt(base, offset);
      ExactIffNoCarry(init, offset / 256);
      assert ip[..|ip| - 1] == AddressAt(init, offset / 256);
      ByteSum(b, offset);
      ExactParts(Value(AddressAt(init, offset / 256)), Value(init), offset / 256, SumByte(b, offset), b, offset % 256);
    }
  }

  lemma {:induction false} NoCarryAtZero(base: Bytes)
    ensures NoCarry(base, 0)
  {
    if |base| > 0 { NoCarryAtZero(base[..|base| - 1]); }
  }

  lemma Pow2Divides(h: nat)
    requires h < 8
    ensures exists k :: k > 0 && 256 == Pow2(h) * k
  {
    assert Pow2(0) == 1 && Pow2(1) == 2 && Pow2(2) == 4 && Pow2(3) == 8;
    assert Pow2(4) == 16 && Pow2(5) == 32 && Pow2(6) == 64 && Pow2(7) == 128;
    var k := if h == 0 then 256 else if h == 1 then 128 else if h == 2 then 64 else if h == 3 then 32
             else if h == 4 then 16 else if h == 5 then 8 else if h == 6 then 4 else 2;
    assert 256 == Pow2(h) * k;
  }

  lemma {:induction false} Pow2Split(h: nat)
    requires h >= 8
    ensures Pow2(h) == 256 * Pow2(h - 8)
  {
    assert Pow2(h) == 2 * Pow2(h - 1) == 4 * Pow2(h - 2) == 8 * Pow2(h - 3) == 16 * Pow2(h - 4);
    assert Pow2(h - 4) == 2 * Pow2(h - 5) == 4 * Pow2(h - 6) == 8 * Pow2(h - 7) == 16 * Pow2(h - 8);
  }

  /** The last byte of an aligned base is zero when the block has 256 addresses or more. */
  lemma LastByteZero(v: nat, b: nat, m: nat)
    requires m > 0 && b < 256 && (v * 256 + b) % (256 * m) == 0
    ensures b == 0 && v % m == 0
  {
    ModStep(v * 256 + b, m);
    assert (v * 256 + b) / 256 == v && (v * 256 + b) % 256 == b;
  }

  /** In a smaller block it is a multiple of the block size, which divides 256. */
  lemma LastByteAligned(v: nat, b: nat, m: nat, k: nat)
    requires m > 0 && b < 256 && 256 == m * k && (v * 256 + b) % m == 0
    ensures b + m <= 256
  {
    var q := (v * 256 + b) / m;
    assert m * q == v * (m * k) + b;
    assert v * (m * k) == m * (v * k);
    var c := q - v * k;
    assert m * c == b;
    MulGrows(m, c + 1 - k);
    assert m * (c + 1 - k) == b + m - 256;
  }

  lemma {:induction false} AlignedNoCarry(base: Bytes, h: nat, offset: nat)
    requires Value(base) % Pow2(h) == 0 && offset < Pow2(h)
    ensures NoCarry(base, offset)
    decreases |base|
  {
    if |base| > 0 {
      var init, b := base[..|base| - 1], base[|base| - 1];
      if h >= 8 {
        Pow2Split(h);
        LastByteZero(Value(init), b, Pow2(h - 8));
        AlignedNoCarry(init, h - 8, offset / 256);
      } else {
        Pow2Divides(h);
        var k :| k > 0 && 256 == Pow2(h) * k;
        assert Pow2(h) <= 256 by { assert Pow2(h) * 1 <= Pow2(h) * k; }
        LastByteAligned(Value(init), b, Pow2(h), k);
        NoCarryAtZero(init);
      }
    }
  }

  // ---------------------------------------------------------------- inside the block

  /** An address of the block: it shares the network prefix (section 3.1 of RFC 4632). */
  predicate InBlock(ip: Bytes, base: Bytes, h: nat) {
    |ip| == |base| && Value(ip) / Pow2(h) == Value(base) / Pow2(h)
  }

  lemma {:induction false} ValueInjective(a: Bytes, b: Bytes)
    requires |a| == |b| && Value(a) == Value(b)
    ensures a == b
  {
    if |a| > 0 {
      ValueInjective(a[..|a| - 1], b[..|b| - 1]);
      assert a == a[..|a| - 1] + [a[|a| - 1]] && b == b[..|b| - 1] + [b[|b| - 1]];
    }
  }

  lemma SameBlock(v: nat, m: nat, k: nat)
    requires k < m && v % m == 0
    ensures (v + k) / m == v / m
  {
    var q := v / m;
    assert v == m * q;
    DivModUnique(v + k, m, q, k);
  }

  lemma AlignedSum(base: Bytes, h: nat, offset: nat)
    requires Value(base) % Pow2(h) == 0 && offset < Pow2(h) && offset < Pow256(|base|)
    ensures Value(AddressAt(base, offset)) == Value(base) + offset && InBlock(AddressAt(base, offset), base, h)
  {
    AlignedNoCarry(base, h, offset);
    ExactIffNoCarry(base, offset);
    SameBlock(Value(base), Pow2(h), offset);
  }

  lemma BlockRemainder(v: nat, w: nat, m: nat)
    requires m > 0 && v / m == w / m && w % m == 0
    ensures v == w + v % m
  {
  }

  lemma SmallMod(x: nat, m: nat)
    requires x < m
    ensures x % m == x
  {
  }

  /** Different offsets in range give different addresses. */
  lemma AddressInjective(base: Bytes, i: nat, j: nat)
    requires i < Pow256(|base|) && j < Pow256(|base|) && AddressAt(base, i) == AddressAt(base, j)
    ensures i == j
  {
    OffsetOfAddress(base, i);
    OffsetOfAddress(base, j);
    SmallMod(i, Pow256(|base|));
    SmallMod(j, Pow256(|base|));
  }

  /** Every address of the block is at an offset below the block's size. */
  lemma InBlockOffset(ip: Bytes, base: Bytes, h: nat) returns (k: nat)
    requires InBlock(ip, base, h) && Value(base) % Pow2(h) == 0
    ensures k < Pow2(h) && k < Pow256(|base|) && ip == AddressAt(base, k)
  {
    k := Value(ip) % Pow2(h);
    BlockRemainder(Value(ip), Value(base), Pow2(h));
    ValueBelow(ip);
    AlignedNoCarry(base, h, k);
    ExactIffNoCarry(base, k);
    ValueInjective(ip, AddressAt(base, k));
  }

  lemma InBlockBelow(base: Bytes, h: nat, offset: nat)
    requires Value(base) % Pow2(h) == 0 && offset < Pow256(|base|) && InBlock(AddressAt(base, offset), base, h)
    ensures offset < Pow2(h)
  {
    var k := InBlockOffset(AddressAt(base, offset), base, h);
    AddressInjective(base, offset, k);
  }

  /** For every prefix length and every aligned network address, an offset gives base + offset, an address
      of the block, exactly when it is below the block's size. */
  lemma InBlockIff(base: Bytes, h: nat, offset: nat)
    requires |base| == 4 && h <= 32 && Value(base) % Pow2(h) == 0 && offset < 0x1_0000_0000
    ensures InBlock(AddressAt(base, offset), base, h) <==> offset < Pow2(h)
    ensures offset < Pow2(h) ==> Value(AddressAt(base, offset)) == Value(base) + offset
  {
    FourBytes();
    if offset < Pow2(h) {
      AlignedSum(base, h, offset);
    } else if InBlock(AddressAt(base, offset), base, h) {
      InBlockBelow(base, h, offset);
    }
  }

  // ---------------------------------------------------------------- hardware addresses

  function EncodeMac(index: nat): Bytes {
    [0x52, 0x54, 0x00, index / 65536 % 256, index / 256 % 256, index % 256]
  }

  /** Six bytes: the vendor's three, then the low three of the slot. */
  lemma EncodedIs(index: nat)
    ensures |EncodeMac(index)| == 6 && EncodeMac(index)[..3] == [0x52, 0x54, 0x00]
    ensures Value(EncodeMac(index)[3..]) == index % 0x100_0000
  {
    var low: Bytes := [index / 65536 % 256, index / 256 % 256, index % 256];
    assert EncodeMac(index)[3..] == low;
    assert low[..2] == [low[0], low[1]] && low[..2][..1] == [low[0]] && [low[0]][..0] == [];
    assert Value(low) == (Value([low[0]]) * 256 + low[1]) * 256 + low[2] by {
      assert Value(low[..2]) == Value(low[..2][..1]) * 256 + low[1];
    }
    DecodeEncode(index, index + 1);
  }

  /** `calculateIndexFromHwAddr` for a table of `size` slots; -1 for an address that is not the table's. */
  function DecodeMac(hw: Bytes, size: nat): int {
    if |hw| == 6 && hw[0] == 0x52 && hw[1] == 0x54 && hw[2] == 0x00 then
      var index := hw[3] as int * 65536 + hw[4] as int * 256 + hw[5];
      if index < size then index else -1
    else -1
  }

  /** Encoding then decoding gives the slot back exactly for the first 2^24 slots. */
  lemma DecodeEncode(index: nat, size: nat)
    requires index < size
    ensures DecodeMac(EncodeMac(index), size) == index <==> index < 0x100_0000
    ensures DecodeMac(EncodeMac(index), size) == index % 0x100_0000
  {
    var p := index / 256;
    assert index / 65536 == p / 256;
    assert index % 0x100_0000 == (index / 65536 % 256) * 65536 + (index / 256 % 256) * 256 + index % 256 by {
      ModStep(index, 65536);
      ModStep(p, 256);
    }
  }

  /** A recognised hardware address is the encoding of the slot it decodes to. */
  lemma EncodeDecode(hw: Bytes, size: nat)
    requires DecodeMac(hw, size) >= 0
    ensures EncodeMac(DecodeMac(hw, size)) == hw
  {
    var i := hw[3] as int * 65536 + hw[4] as int * 256 + hw[5];
    assert i / 65536 == hw[3] && i / 256 == hw[3] as int * 256 + hw[4] && i % 256 == hw[5];
  }

  lemma MacInjective(i: nat, j: nat)
    requires i < 0x100_0000 && j < 0x100_0000 && EncodeMac(i) == EncodeMac(j)
    ensures i == j
  {
    DecodeEncode(i, 0x100_0000);
    DecodeEncode(j, 0x100_0000);
  }

  /** The address `GetInterface` reports for a hardware address. */
  function AddressOfMac(base: Bytes, hw: Bytes, size: nat): Bytes {
    AddressAt(base, DecodeMac(hw, size))
  }

  /** It is the address the slot was allocated with; a foreign hardware address is reported with an address
      whose offset is outside every table. */
  lemma IdentityRecovery(base: Bytes, index: nat, hw: Bytes, size: nat)
    requires |base| == 4 && index < size <= 0x100_0000
    ensures AddressOfMac(base, EncodeMac(index), size) == AddressAt(base, index)
    ensures DecodeMac(hw, size) == -1 ==> OffsetOf(AddressOfMac(base, hw, size), base) == 0xFFFF_FFFF
  {
    DecodeEncode(index, size);
    OffsetOfAddress(base, -1);
    FourBytes();
  }
}
