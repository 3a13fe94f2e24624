/**
 The bounded binary codec: little-endian integers and length-prefixed blobs.

 A printer takes the value and the bytes that follow it; a parser returns the value and the bytes it
 left. The source's cursor and buffer, in `Cursor`, are proved against these functions.
 */
module Codec {
  import opened Types
  import opened Names

  const MAX_BLOB: int := 64 * 1024 * 1024

  // ---- Integers ----

  ghost function Power256(n: nat): nat {
    if n == 0 then 1 else 256 * Power256(n - 1)
  }

  function Little(v: nat, n: nat): (b: bytes)
    ensures |b| == n
  {
    if n == 0 then [] else [v % 256] + Little(v / 256, n - 1)
  }

  function FromLittle(b: bytes): nat
    decreases |b|
  {
    if b == [] then 0 else b[0] + 256 * FromLittle(b[1..])
  }

  lemma FromLittleBound(b: bytes)
    ensures FromLittle(b) < Power256(|b|)
  {
  }

  lemma {:induction false} FromLittleInverts(v: nat, n: nat)
    requires v < Power256(n)
    ensures FromLittle(Little(v, n)) == v
  {
    if n > 0 {
      assert Little(v, n)[1..] == Little(v / 256, n - 1);
      FromLittleInverts(v / 256, n - 1);
    }
  }

  lemma LowByte(low: u8, high: nat)
    ensures (low + 256 * high) % 256 == low && (low + 256 * high) / 256 == high
  {
  }

  lemma {:induction false} LittleInverts(b: bytes)
    ensures Little(FromLittle(b), |b|) == b
  {
    if b != [] {
      var high := FromLittle(b[1..]);
      LittleInverts(b[1..]);
      LowByte(b[0], high);
      assert Little(b[0] + 256 * high, |b|) == [b[0]] + Little(high, |b| - 1);
      assert b == [b[0]] + b[1..];
    }
  }

  lemma Widths()
    ensures Power256(2) == TWO_16 && Power256(4) == TWO_32 && Power256(8) == TWO_64
  {
  }

  /** The first `n` bytes of `b` and what follows them. */
  function Split(b: bytes, n: nat): Option<(bytes, bytes)> {
    if n > |b| then None else Some((b[..n], b[n..]))
  }

  function PutU8(v: u8, rest: bytes): (b: bytes)
    ensures GetU8(b) == Some((v, rest))
  {
    var r := [v] + rest;
    assert r[1..] == rest;
    r
  }

  function GetU8(b: bytes): Option<(u8, bytes)> {
    if b == [] then None else Some((b[0], b[1..]))
  }

  function PutU16(v: u16, rest: bytes): (b: bytes)
    ensures GetU16(b) == Some((v, rest))
  {
    Widths();
    FromLittleInverts(v, 2);
    var r := Little(v, 2) + rest;
    assert r[..2] == Little(v, 2) && r[2..] == rest;
    r
  }

  function GetU16(b: bytes): Option<(u16, bytes)> {
    if |b| < 2 then None
    else
      FromLittleBound(b[..2]);
      Widths();
      Some((FromLittle(b[..2]), b[2..]))
  }

  function PutU32(v: u32, rest: bytes): (b: bytes)
    ensures GetU32(b) == Some((v, rest))
  {
    Widths();
    FromLittleInverts(v, 4);
    var r := Little(v, 4) + rest;
    assert r[..4] == Little(v, 4) && r[4..] == rest;
    r
  }

  function GetU32(b: bytes): Option<(u32, bytes)> {
    if |b| < 4 then None
    else
      FromLittleBound(b[..4]);
      Widths();
      Some((FromLittle(b[..4]), b[4..]))
  }

  function PutU64(v: u64, rest: bytes): (b: bytes)
    ensures GetU64(b) == Some((v, rest))
  {
    Widths();
    FromLittleInverts(v, 8);
    var r := Little(v, 8) + rest;
    assert r[..8] == Little(v, 8) && r[8..] == rest;
    r
  }

  function GetU64(b: bytes): Option<(u64, bytes)> {
    if |b| < 8 then None
    else
      FromLittleBound(b[..8]);
      Widths();
      Some((FromLittle(b[..8]), b[8..]))
  }

  /** A byte string that yields an integer is that integer's printing. */
  lemma ParsedIsPrinted(b: bytes)
    ensures GetU16(b).Some? ==> b == PutU16(GetU16(b).value.0, GetU16(b).value.1)
    ensures GetU32(b).Some? ==> b == PutU32(GetU32(b).value.0, GetU32(b).value.1)
    ensures GetU64(b).Some? ==> b == PutU64(GetU64(b).value.0, GetU64(b).value.1)
  {
    if |b| >= 2 {
      LittleInverts(b[..2]);
      assert b == b[..2] + b[2..];
    }
    if |b| >= 4 {
      LittleInverts(b[..4]);
      assert b == b[..4] + b[4..];
    }
    if |b| >= 8 {
      LittleInverts(b[..8]);
      assert b == b[..8] + b[8..];
    }
  }

  function PutBool(v: bool, rest: bytes): (b: bytes)
    ensures GetBool(b) == Some((v, rest))
  {
    PutU8(if v then 1 else 0, rest)
  }

  function GetBool(b: bytes): Option<(bool, bytes)> {
    var (v, b) :- GetU8(b);
    Some((v != 0, b))
  }

  // ---- Blobs, strings and names ----

  /** A blob longer than the limit is written but refused by the reader. */
  function PutBlob(v: bytes, rest: bytes): (b: bytes)
    ensures |v| <= MAX_BLOB ==> GetBlob(b) == Some((v, rest))
    ensures GetBlob(b).Some? && GetBlob(b).value.0 == v ==> |v| <= MAX_BLOB
  {
    var tail := v + rest;
    assert tail[..|v|] == v && tail[|v|..] == rest;
    PutU64(Wrap(|v|), tail)
  }

  function GetBlob(b: bytes): (r: Option<(bytes, bytes)>)
    ensures r.Some? ==> |r.value.0| <= MAX_BLOB
  {
    var (n, b) :- GetU64(b);
    if n > MAX_BLOB then None else Split(b, n)
  }

  lemma NamesAreShort(t: Table, c: Code)
    ensures |NameOf(t, c)| <= 256 || c >= |t.names|
  {
  }

  /** An enumeration is written by name, so a code outside its table does not come back. */
  function PutName(t: Table, c: Code, rest: bytes): (b: bytes)
    ensures c < |t.names| ==> GetName(t, b) == Some((c, rest))
  {
    ParseInvertsNameOf(t, c);
    NamesAreShort(t, c);
    PutBlob(NameOf(t, c), rest)
  }

  function GetName(t: Table, b: bytes): (r: Option<(Code, bytes)>)
    ensures r.Some? ==> r.value.0 < |t.names|
  {
    var (name, b) :- GetBlob(b);
    var c :- ParseFrom(t, name, 0);
    Some((c, b))
  }

  // ---- Lists ----

  /** A printer and a parser of one kind of value, with the values that survive the trip. */
  datatype Format<!T> = Format(
    put: (T, bytes) -> bytes, get: bytes -> Option<(T, bytes)>, ok: T -> bool)

  /** Every `ok` value comes back from its own printing, and nothing after it is consumed. */
  ghost predicate Returns<T(!new)>(f: Format<T>) {
    forall v, rest :: f.ok(v) ==> f.get(f.put(v, rest)) == Some((v, rest))
  }

  /** ... and only `ok` values are ever parsed. */
  ghost predicate Lawful<T(!new)>(f: Format<T>) {
    Returns(f) && forall b :: f.get(b).Some? ==> f.ok(f.get(b).value.0)
  }

  function PutAll<T>(f: Format<T>, vs: seq<T>, rest: bytes): bytes {
    if vs == [] then rest else f.put(vs[0], PutAll(f, vs[1..], rest))
  }

  function GetAll<T>(f: Format<T>, n: nat, b: bytes): (r: Option<(seq<T>, bytes)>)
    ensures r.Some? ==> |r.value.0| == n
  {
    if n == 0 then Some(([], b))
    else
      var (v, b) :- f.get(b);
      var (vs, b) :- GetAll(f, n - 1, b);
      Some(([v] + vs, b))
  }

  lemma {:induction false} AllRoundTrip<T(!new)>(f: Format<T>, vs: seq<T>, rest: bytes)
    requires Returns(f) && forall v | v in vs :: f.ok(v)
    ensures GetAll(f, |vs|, PutAll(f, vs, rest)) == Some((vs, rest))
  {
    if vs != [] {
      AllRoundTrip(f, vs[1..], rest);
      assert vs == [vs[0]] + vs[1..];
    }
  }

  lemma {:induction false} AllOk<T(!new)>(f: Format<T>, n: nat, b: bytes)
    requires Lawful(f) && GetAll(f, n, b).Some?
    ensures forall v | v in GetAll(f, n, b).value.0 :: f.ok(v)
  {
    if n > 0 {
      AllOk(f, n - 1, f.get(b).value.1);
    }
  }

  /** The writer prints every element; the reader stops at `cap`. */
  function PutList<T>(f: Format<T>, vs: seq<T>, rest: bytes): bytes {
    PutU64(Wrap(|vs|), PutAll(f, vs, rest))
  }

  function GetList<T>(f: Format<T>, cap: nat, b: bytes): Option<(seq<T>, bytes)> {
    var (n, b) :- GetU64(b);
    GetAll(f, if n < cap then n else cap, b)
  }

  ghost predicate ListOk<T(!new)>(f: Format<T>, cap: nat, vs: seq<T>) {
    |vs| <= cap && forall v | v in vs :: f.ok(v)
  }

  /** A list comes back exactly when it is within the cap and all its elements are. */
  lemma ListRoundTrip<T(!new)>(f: Format<T>, cap: nat, vs: seq<T>, rest: bytes)
    requires Lawful(f) && cap < TWO_64
    ensures ListOk(f, cap, vs) <==> GetList(f, cap, PutList(f, vs, rest)) == Some((vs, rest))
  {
    if ListOk(f, cap, vs) {
      AllRoundTrip(f, vs, rest);
    } else if GetList(f, cap, PutList(f, vs, rest)) == Some((vs, rest)) {
      ListRange(f, cap, PutList(f, vs, rest));
    }
  }

  lemma ListRange<T(!new)>(f: Format<T>, cap: nat, b: bytes)
    requires Lawful(f) && GetList(f, cap, b).Some?
    ensures ListOk(f, cap, GetList(f, cap, b).value.0)
  {
    var (n, b) := GetU64(b).value;
    AllOk(f, if n < cap then n else cap, b);
  }
}
