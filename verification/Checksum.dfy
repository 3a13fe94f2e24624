/**
 The integrity checksum: the reflected polynomial 0xEDB88320 of section 8 of RFC 1952, without the final
 complement. The bit-serial shift register is the definition; the table-driven update refines it.
 */
module Checksum {
  import opened Types

  const POLYNOMIAL: bv32 := 0xEDB88320
  const INITIAL: bv32 := 0xFFFFFFFF

  function ShiftBit(c: bv32): bv32 {
    if c & 1 != 0 then POLYNOMIAL ^ (c >> 1) else c >> 1
  }

  function Iterate<T>(f: T -> T, x: T, n: nat): T
    decreases n, x
  {
    if n == 0 then x else Iterate(f, f(x), n - 1)
  }

  function ShiftByte(c: bv32): bv32 {
    Iterate(ShiftBit, c, 8)
  }

  /** One byte through the shift register, bit by bit. */
  function Absorb(c: bv32, b: u8): bv32 {
    ShiftByte(c ^ (b as bv32))
  }

  function Crc(c: bv32, data: bytes): bv32
    decreases |data|
  {
    if data == [] then c else Crc(Absorb(c, data[0]), data[1..])
  }

  // ---- Bytes as bits ----

  ghost function Bits(b: u8): (y: bv32)
    ensures y as int == b && y <= 0xFF
  {
    if b == 0 then 0
    else
      var y := Bits(b - 1);
      Successor(y);
      y + 1
  }

  lemma Successor(y: bv32)
    requires y < 0xFF
    ensures (y + 1) as int == y as int + 1
  {
  }

  lemma FromBits(y: bv32, b: int)
    requires y as int == b
    ensures 0 <= b < TWO_32 && b as bv32 == y
  {
  }

  lemma ByteBits(b: u8)
    ensures b as bv32 == Bits(b)
  {
    FromBits(Bits(b), b);
  }

  // ---- The table refines the shift register ----

  lemma ShiftEven(a: bv32, b: bv32)
    requires a & 1 == 0
    ensures ShiftBit(a ^ b) == (a >> 1) ^ ShiftBit(b)
  {
  }

  predicate Zeros<T>(even: T -> bool, half: T -> T, a: T, n: nat)
    decreases n, a
  {
    n == 0 || (even(a) && Zeros(even, half, half(a), n - 1))
  }

  ghost predicate PassesThrough<T(!new)>(xor: (T, T) -> T, shift: T -> T, half: T -> T, even: T -> bool) {
    forall a, b :: even(a) ==> shift(xor(a, b)) == xor(half(a), shift(b))
  }

  /** While only zeros are dropped, the upper part moves down untouched beside the feedback of the lower. */
  lemma {:induction false} IteratePasses<T(!new)>(
    xor: (T, T) -> T, shift: T -> T, half: T -> T, even: T -> bool, h: T, l: T, n: nat)
    requires PassesThrough(xor, shift, half, even) && Zeros(even, half, h, n)
    ensures Iterate(shift, xor(h, l), n) == xor(Iterate(half, h, n), Iterate(shift, l, n))
    decreases n
  {
    if n > 0 {
      IteratePasses(xor, shift, half, even, half(h), shift(l), n - 1);
    }
  }

  function Half(a: bv32): bv32 {
    a >> 1
  }

  function Xor(a: bv32, b: bv32): bv32 {
    a ^ b
  }

  predicate Even(a: bv32) {
    a & 1 == 0
  }

  lemma ShiftPasses(h: bv32, l: bv32, n: nat)
    requires Zeros(Even, Half, h, n)
    ensures Iterate(ShiftBit, Xor(h, l), n) == Xor(Iterate(Half, h, n), Iterate(ShiftBit, l, n))
  {
    forall a, b | Even(a) ensures ShiftBit(Xor(a, b)) == Xor(Half(a), ShiftBit(b)) {
      ShiftEven(a, b);
    }
    IteratePasses(Xor, ShiftBit, Half, Even, h, l, n);
  }

  lemma {:induction false} HalveTwice(h: bv32, n: nat)
    ensures Iterate(Half, h, n + 2) == Iterate(Half, Half(Half(h)), n)
    ensures Zeros(Even, Half, h, n + 2) == (Even(h) && Even(Half(h)) && Zeros(Even, Half, Half(Half(h)), n))
  {
  }

  lemma EightHalves(h: bv32)
    requires h & 0xFF == 0
    ensures var h2 := Half(Half(h)); var h4 := Half(Half(h2)); var h6 := Half(Half(h4));
            && Even(h) && Even(Half(h)) && Even(h2) && Even(Half(h2)) && Even(h4) && Even(Half(h4))
            && Even(h6) && Even(Half(h6)) && Half(Half(h6)) == h >> 8
  {
  }

  lemma HalveEight(h: bv32)
    requires h & 0xFF == 0
    ensures Iterate(Half, h, 8) == h >> 8 && Zeros(Even, Half, h, 8)
  {
    EightHalves(h);
    var h2 := Half(Half(h));
    var h4 := Half(Half(h2));
    var h6 := Half(Half(h4));
    HalveTwice(h, 6);
    HalveTwice(h2, 4);
    HalveTwice(h4, 2);
    HalveTwice(h6, 0);
  }

  lemma SplitLow(x: bv32)
    ensures x == Xor(x & 0xFFFFFF00, x & 0xFF)
    ensures (x & 0xFFFFFF00) & 0xFF == 0 && (x & 0xFFFFFF00) >> 8 == x >> 8
  {
  }

  lemma ShiftHigh(x: bv32)
    ensures ShiftByte(x) == Xor(x >> 8, ShiftByte(x & 0xFF))
  {
    SplitLow(x);
    HalveEight(x & 0xFFFFFF00);
    ShiftPasses(x & 0xFFFFFF00, x & 0xFF, 8);
  }

  lemma LowByteLeavesHigh(c: bv32, y: bv32)
    requires y <= 0xFF
    ensures (c ^ y) >> 8 == c >> 8
  {
  }

  /** What a table of shifted low bytes computes is the register after eight shifts. */
  lemma TableStep(x: bv32, high: bv32, entry: bv32)
    requires high == x >> 8 && entry == ShiftByte(x & 0xFF)
    ensures Xor(high, entry) == ShiftByte(x)
  {
    ShiftHigh(x);
  }

  // ---- Algebra ----

  lemma {:induction false} CrcConcat(c: bv32, a: bytes, b: bytes)
    ensures Crc(c, a + b) == Crc(Crc(c, a), b)
    decreases |a|
  {
    if a == [] {
      assert a + b == b;
    } else {
      assert (a + b)[1..] == a[1..] + b;
      CrcConcat(Absorb(c, a[0]), a[1..], b);
    }
  }

  lemma ShiftBitInjective(a: bv32, b: bv32)
    requires ShiftBit(a) == ShiftBit(b)
    ensures a == b
  {
  }

  lemma {:induction false} IterateInjective<T(!new)>(f: T -> T, a: T, b: T, n: nat)
    requires (forall x, y :: f(x) == f(y) ==> x == y) && Iterate(f, a, n) == Iterate(f, b, n)
    ensures a == b
    decreases n
  {
    if n > 0 {
      IterateInjective(f, f(a), f(b), n - 1);
    }
  }

  lemma ShiftByteInjective(a: bv32, b: bv32)
    requires ShiftByte(a) == ShiftByte(b)
    ensures a == b
  {
    forall x, y | ShiftBit(x) == ShiftBit(y) ensures x == y {
      ShiftBitInjective(x, y);
    }
    IterateInjective(ShiftBit, a, b, 8);
  }

  /** A step loses nothing of the register for a fixed byte, nor of the byte for a fixed register. */
  lemma AbsorbInjective(c: bv32, d: bv32, a: u8, b: u8)
    requires Absorb(c, a) == Absorb(d, b)
    ensures a == b ==> c == d
    ensures c == d ==> a == b
  {
    ShiftByteInjective(c ^ (a as bv32), d ^ (b as bv32));
    ByteBits(a);
    ByteBits(b);
    XorCancels(c, d, a as bv32, b as bv32);
  }

  lemma XorCancels(c: bv32, d: bv32, x: bv32, y: bv32)
    requires c ^ x == d ^ y
    ensures x == y ==> c == d
    ensures c == d ==> x == y
  {
  }

  lemma {:induction false} CrcInjective(c: bv32, d: bv32, data: bytes)
    requires Crc(c, data) == Crc(d, data)
    ensures c == d
    decreases |data|
  {
    if data != [] {
      CrcInjective(Absorb(c, data[0]), Absorb(d, data[0]), data[1..]);
      AbsorbInjective(c, d, data[0], data[0]);
    }
  }

  /** Two strings of equal length that differ in one byte never share a checksum. */
  lemma OneByteChangesCrc(c: bv32, a: bytes, b: bytes, i: nat)
    requires |a| == |b| && i < |a| && a[i] != b[i]
    requires forall j :: 0 <= j < |a| && j != i ==> a[j] == b[j]
    ensures Crc(c, a) != Crc(c, b)
  {
    var head, tail := a[..i], a[i + 1..];
    assert a == head + ([a[i]] + tail) && b == head + ([b[i]] + tail);
    CrcConcat(c, head, [a[i]] + tail);
    CrcConcat(c, head, [b[i]] + tail);
    var r := Crc(c, head);
    assert ([a[i]] + tail)[1..] == tail && ([b[i]] + tail)[1..] == tail;
    if Crc(c, a) == Crc(c, b) {
      CrcInjective(Absorb(r, a[i]), Absorb(r, b[i]), tail);
      AbsorbInjective(r, r, a[i], b[i]);
      assert false;
    }
  }

  // ---- The published check value ----

  lemma {:induction false} ShiftTwice(c: bv32, n: nat)
    ensures Iterate(ShiftBit, c, n + 2) == Iterate(ShiftBit, ShiftBit(ShiftBit(c)), n)
  {
    hide ShiftBit;
  }

  lemma EightShifts(c: bv32)
    ensures ShiftByte(c) == ShiftBit(ShiftBit(ShiftBit(ShiftBit(ShiftBit(ShiftBit(ShiftBit(ShiftBit(c))))))))
  {
    hide ShiftBit;
    var c2 := ShiftBit(ShiftBit(c));
    var c4 := ShiftBit(ShiftBit(c2));
    var c6 := ShiftBit(ShiftBit(c4));
    ShiftTwice(c, 6);
    ShiftTwice(c2, 4);
    ShiftTwice(c4, 2);
    ShiftTwice(c6, 0);
  }

  lemma AbsorbsTo(c: bv32, b: u8, y: bv32, r: bv32)
    requires b as bv32 == y
    requires r == ShiftBit(ShiftBit(ShiftBit(ShiftBit(ShiftBit(ShiftBit(ShiftBit(ShiftBit(c ^ y))))))))
    ensures Absorb(c, b) == r
  {
    hide ShiftBit, ShiftByte;
    EightShifts(c ^ y);
  }

  lemma {:induction false} CrcOnward(c: bv32, data: bytes, i: nat)
    requires i < |data|
    ensures Crc(c, data[i..]) == Crc(Absorb(c, data[i]), data[i + 1..])
  {
    assert data[i..][1..] == data[i + 1..];
  }

  /** The check value of "123456789", which RFC 1952 complements to 0xCBF43926. */
  lemma KnownCrc()
    ensures Crc(INITIAL, [49, 50, 51, 52, 53, 54, 55, 56, 57]) == 0x340BC6D9 == 0xFFFFFFFF ^ 0xCBF43926
  {
    hide Absorb;
    var data := [49, 50, 51, 52, 53, 54, 55, 56, 57];
    FromBits(0x31, 49);
    AbsorbsTo(0xFFFFFFFF, 49, 0x31, 0x7C231048);
    FromBits(0x32, 50);
    AbsorbsTo(0x7C231048, 50, 0x32, 0xB0ACBB32);
    FromBits(0x33, 51);
    AbsorbsTo(0xB0ACBB32, 51, 0x33, 0x77B79C2D);
    FromBits(0x34, 52);
    AbsorbsTo(0x77B79C2D, 52, 0x34, 0x641C1F5C);
    FromBits(0x35, 53);
    AbsorbsTo(0x641C1F5C, 53, 0x35, 0x340AC5E3);
    FromBits(0x36, 54);
    AbsorbsTo(0x340AC5E3, 54, 0x36, 0xF68D2C9E);
    FromBits(0x37, 55);
    AbsorbsTo(0xF68D2C9E, 55, 0x37, 0xAFFC9660);
    FromBits(0x38, 56);
    AbsorbsTo(0xAFFC9660, 56, 0x38, 0x651F2550);
    FromBits(0x39, 57);
    AbsorbsTo(0x651F2550, 57, 0x39, 0x340BC6D9);
    assert data[0..] == data && data[9..] == [];
    CrcOnward(0xFFFFFFFF, data, 0);
    CrcOnward(0x7C231048, data, 1);
    CrcOnward(0xB0ACBB32, data, 2);
    CrcOnward(0x77B79C2D, data, 3);
    CrcOnward(0x641C1F5C, data, 4);
    CrcOnward(0x340AC5E3, data, 5);
    CrcOnward(0xF68D2C9E, data, 6);
    CrcOnward(0xAFFC9660, data, 7);
    CrcOnward(0x651F2550, data, 8);
  }

  // ---- The accumulator ----

  method BuildTable() returns (table: array<bv32>)
    ensures fresh(table) && IsTable(table[..])
  {
    table := new bv32[256];
    for i := 0 to 256
      invariant forall j :: 0 <= j < i ==> table[j] == ShiftByte(j as bv32)
    {
      var c := i as bv32;
      for k := 0 to 8
        invariant Iterate(ShiftBit, c, 8 - k) == ShiftByte(i as bv32)
      {
        c := if c & 1 != 0 then POLYNOMIAL ^ (c >> 1) else c >> 1;
      }
      table[i] := c;
    }
  }

  lemma IndexBits(y: bv32)
    requires y <= 0xFF
    ensures y as int < 256 && (y as int) as bv32 == y
  {
  }

  predicate IsTable(table: seq<bv32>) {
    |table| == 256 && forall i :: 0 <= i < 256 ==> table[i] == ShiftByte(i as bv32)
  }

  lemma EntryOf(table: seq<bv32>, low: bv32)
    requires IsTable(table) && low <= 0xFF
    ensures low as int < 256 && table[low as int] == ShiftByte(low)
  {
    IndexBits(low);
  }

  lemma LowByteBound(x: bv32)
    ensures x & 0xFF <= 0xFF
  {
  }

  lemma LookupAt(table: seq<bv32>, high: bv32, x: bv32)
    requires IsTable(table) && high == x >> 8
    ensures (x & 0xFF) as int < 256 && Xor(high, table[(x & 0xFF) as int]) == ShiftByte(x)
  {
    LowByteBound(x);
    EntryOf(table, x & 0xFF);
    TableStep(x, high, table[(x & 0xFF) as int]);
  }

  lemma HighByteKept(c: bv32, b: u8)
    ensures (c ^ (b as bv32)) >> 8 == c >> 8
  {
    ByteBits(b);
    LowByteLeavesHigh(c, Bits(b));
  }

  method Lookup(table: array<bv32>, c: bv32, b: u8) returns (r: bv32)
    requires IsTable(table[..])
    ensures r == Absorb(c, b)
  {
    var x := c ^ (b as bv32);
    HighByteKept(c, b);
    LookupAt(table[..], c >> 8, x);
    r := Xor(c >> 8, table[(x & 0xFF) as int]);
  }

  class Crc32 {
    var value: bv32
    const table: array<bv32>

    ghost predicate Valid()
      reads this, table
    {
      IsTable(table[..])
    }

    constructor ()
      ensures Valid() && value == INITIAL && fresh(table)
    {
      value := INITIAL;
      var t := BuildTable();
      table := t;
    }

    /** The table-driven update computes the bit-serial checksum. */
    method Update(data: bytes)
      requires Valid()
      modifies this`value
      ensures Valid() && value == Crc(old(value), data)
    {
      for i := 0 to |data|
        invariant Valid() && value == Crc(old(value), data[..i])
      {
        var next := Lookup(table, value, data[i]);
        CrcConcat(old(value), data[..i], [data[i]]);
        assert data[..i] + [data[i]] == data[..i + 1];
        assert [data[i]][1..] == [];
        value := next;
      }
      assert data[..|data|] == data;
    }
  }
}
