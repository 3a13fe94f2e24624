/** The non-cryptographic content digest of a result: FNV-1a over 64 bits, printed as sixteen hex digits. */
module Digest {
  import opened Types

  const OFFSET_BASIS: bv64 := 0xcbf29ce484222325

  const PRIME := 0x100000001b3

  /** Unsigned multiplication by the prime, modulo 2 to the 64. */
  function Times(x: bv64): bv64 {
    Wrap(x as int * PRIME) as bv64
  }

  function Widened(b: u8): bv64 {
    b as bv64
  }

  /** One byte into the state. */
  function Mixed(h: bv64, b: u8): bv64 {
    Times(h ^ Widened(b))
  }

  function Fnv(data: bytes, h: bv64): bv64 {
    if data == [] then h else Fnv(data[1..], Mixed(h, data[0]))
  }

  function HexDigits(v: nat, width: nat): bytes {
    if width == 0 then []
    else
      var d := v % 16;
      HexDigits(v / 16, width - 1) + [if d < 10 then 48 + d else 87 + d]
  }

  /** What an intact completion must carry for its output. */
  function HexDigest(output: bytes): bytes {
    HexDigits(Fnv(output, OFFSET_BASIS) as int, 16)
  }

  // ---- Bytes as bits ----

  ghost function Wide(n: u64): (y: bv64)
    ensures y as int == n
  {
    if n == 0 then 0
    else
      var y := Wide(n / 2);
      Doubled(y);
      if n % 2 == 0 then y << 1 else (y << 1) | 1
  }

  lemma Doubled(y: bv64)
    requires y as int < TWO_64 / 2
    ensures (y << 1) as int == 2 * (y as int) && ((y << 1) | 1) as int == 2 * (y as int) + 1
  {
    LowHalf(y);
    ShiftIn(y);
  }

  lemma LowHalf(y: bv64)
    requires y as int < 0x8000_0000_0000_0000
    ensures y < 0x8000_0000_0000_0000
  {
  }

  lemma ShiftIn(y: bv64)
    requires y < 0x8000_0000_0000_0000
    ensures (y << 1) as int == 2 * (y as int) && ((y << 1) | 1) as int == 2 * (y as int) + 1
  {
  }

  lemma FromWide(y: bv64, n: int)
    requires y as int == n
    ensures 0 <= n < TWO_64 && n as bv64 == y
  {
  }

  lemma ToWide(n: u64)
    ensures (n as bv64) as int == n
  {
    FromWide(Wide(n), n);
  }

  // ---- Known values ----

  /** The published 64-bit FNV-1a values of the empty text and of "a". */
  lemma KnownDigests()
    ensures Fnv([], OFFSET_BASIS) == 0xcbf29ce484222325
    ensures Fnv([97], OFFSET_BASIS) == 0xaf63dc4c8601ec8c
  {
    MixedA();
    hide Mixed;
    assert [97][1..] == [];
  }

  lemma MixedA()
    ensures Mixed(0xcbf29ce484222325, 97) == 0xaf63dc4c8601ec8c
  {
    FromWide(97, 97);
    var x: bv64 := 0xcbf29ce484222325 ^ 97;
    FromWide(x, 0xcbf29ce484222344);
    FromWide(0xaf63dc4c8601ec8c, 0xaf63dc4c8601ec8c);
  }

  // ---- One byte ----

  /** The multiplier is odd, so multiplying by it can be undone. */
  lemma ProductCancels(x: u64, y: u64)
    requires Wrap(x * PRIME) == Wrap(y * PRIME)
    ensures x == y
  {
    var inverse := 0xce965057aff6957b;
    var c := PRIME * inverse / TWO_64;
    assert PRIME * inverse == c * TWO_64 + 1;
    var k, l := x * PRIME / TWO_64, y * PRIME / TWO_64;
    assert (x - y) * PRIME == (k - l) * TWO_64;
    assert x - y == TWO_64 * ((k - l) * inverse - (x - y) * c);
  }

  lemma MultiplierCancels(x: bv64, y: bv64)
    requires Times(x) == Times(y)
    ensures x == y
  {
    InRange(x);
    InRange(y);
    ToWide(Wrap(x as int * PRIME));
    ToWide(Wrap(y as int * PRIME));
    ProductCancels(x as int, y as int);
    SameNumber(x, y);
  }

  lemma WideXor(g: bv64, h: bv64, x: bv64, y: bv64)
    requires g ^ x == h ^ y
    ensures x == y ==> g == h
    ensures g == h ==> x == y
  {
  }

  lemma WideInjective(a: u8, b: u8)
    ensures Widened(a) == Widened(b) ==> a == b
  {
    ToWide(a);
    ToWide(b);
  }

  /** A step loses nothing of the state for a fixed byte, nor of the byte for a fixed state. */
  lemma MixingCancels(g: bv64, h: bv64, a: u8, b: u8)
    requires Mixed(g, a) == Mixed(h, b)
    ensures a == b ==> g == h
    ensures g == h ==> a == b
  {
    hide Times, Widened;
    MultiplierCancels(g ^ Widened(a), h ^ Widened(b));
    WideXor(g, h, Widened(a), Widened(b));
    WideInjective(a, b);
  }

  lemma {:induction false} FnvInjective(g: bv64, h: bv64, data: bytes)
    requires Fnv(data, g) == Fnv(data, h)
    ensures g == h
    decreases |data|
  {
    hide Mixed;
    if data != [] {
      FnvInjective(Mixed(g, data[0]), Mixed(h, data[0]), data[1..]);
      MixingCancels(g, h, data[0], data[0]);
    }
  }

  lemma {:induction false} OneByteChangesFnv(h: bv64, a: bytes, b: bytes, i: nat)
    requires |a| == |b| && i < |a| && a[i] != b[i]
    requires forall j :: 0 <= j < |a| && j != i ==> a[j] == b[j]
    ensures Fnv(a, h) != Fnv(b, h)
    decreases i
  {
    hide Mixed;
    if i == 0 {
      assert a[1..] == b[1..];
      if Fnv(a, h) == Fnv(b, h) {
        FnvInjective(Mixed(h, a[0]), Mixed(h, b[0]), a[1..]);
        MixingCancels(h, h, a[0], b[0]);
      }
    } else {
      OneByteChangesFnv(Mixed(h, a[0]), a[1..], b[1..], i - 1);
    }
  }

  // ---- The digits ----

  function Pow16(n: nat): nat {
    if n == 0 then 1 else 16 * Pow16(n - 1)
  }

  /** The number a text of lower-case hexadecimal digits stands for. */
  function ReadHex(text: bytes): nat {
    if text == [] then 0
    else
      var c := text[|text| - 1];
      16 * ReadHex(text[..|text| - 1]) +
      if 48 <= c <= 57 then c - 48 else if 97 <= c <= 102 then c - 87 else 0
  }

  /** The digits, zero-filled to the width, read back as the number. */
  lemma {:induction false} HexReadsBack(v: nat, width: nat)
    requires v < Pow16(width)
    ensures |HexDigits(v, width)| == width && ReadHex(HexDigits(v, width)) == v
    decreases width
  {
    if width > 0 {
      var x := HexDigits(v, width);
      HexReadsBack(v / 16, width - 1);
      assert x[..|x| - 1] == HexDigits(v / 16, width - 1);
    }
  }

  lemma Sixteen()
    ensures Pow16(16) == TWO_64
  {
    assert Pow16(4) == 0x1_0000;
    assert Pow16(8) == 0x1_0000_0000;
    assert Pow16(12) == 0x1_0000_0000_0000;
  }

  lemma InRange(x: bv64)
    ensures 0 <= x as int < TWO_64
  {
  }

  lemma SameNumber(x: bv64, y: bv64)
    requires x as int == y as int
    ensures x == y
  {
    FromWide(x, x as int);
    FromWide(y, y as int);
  }

  lemma SameDigits(v: nat, u: nat)
    requires v < TWO_64 && u < TWO_64 && HexDigits(v, 16) == HexDigits(u, 16)
    ensures v == u
  {
    hide HexDigits, Pow16;
    Sixteen();
    HexReadsBack(v, 16);
    HexReadsBack(u, 16);
  }

  lemma SixteenDigits(x: bv64, y: bv64, v: nat, u: nat)
    requires v == x as int && u == y as int && HexDigits(v, 16) == HexDigits(u, 16)
    ensures x == y
  {
    hide HexDigits;
    InRange(x);
    InRange(y);
    SameDigits(v, u);
    SameNumber(x, y);
  }

  /** Two outputs of equal length that differ in one byte never share a digest. */
  lemma OneByteChangesDigest(a: bytes, b: bytes, i: nat)
    requires |a| == |b| && i < |a| && a[i] != b[i]
    requires forall j :: 0 <= j < |a| && j != i ==> a[j] == b[j]
    ensures HexDigest(a) != HexDigest(b)
  {
    hide Fnv, HexDigits, Pow16;
    OneByteChangesFnv(OFFSET_BASIS, a, b, i);
    if HexDigest(a) == HexDigest(b) {
      var x, y := Fnv(a, OFFSET_BASIS), Fnv(b, OFFSET_BASIS);
      SixteenDigits(x, y, x as int, y as int);
    }
  }
}
