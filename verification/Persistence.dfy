/**
 The integrity envelope around durable state: magic, version, payload length, payload, checksum.
 The loader accepts exactly the envelopes the writer builds.
 */
module Persistence {
  import opened Types
  import opened Codec
  import opened Checksum
  import opened Cursor

  const MAGIC: u32 := 0x504D434E
  const VERSION: u16 := 1
  const MAX_PAYLOAD: nat := 256 * 1024 * 1024

  function Header(length: u64): (h: bytes)
    ensures |h| == 14
  {
    Little(MAGIC, 4) + Little(VERSION, 2) + Little(length, 8)
  }

  function Sum(body: bytes): u32 {
    Crc(INITIAL, body) as int
  }

  function Body(payload: bytes): bytes
    requires |payload| <= MAX_PAYLOAD
  {
    Header(|payload|) + payload
  }

  function Envelope(payload: bytes): bytes
    requires |payload| <= MAX_PAYLOAD
  {
    Body(payload) + Little(Sum(Body(payload)), 4)
  }

  /** The loader's checks, in order. */
  function Open(file: bytes): Outcome<bytes> {
    if |file| > MAX_PAYLOAD + 64 then Err(E_PERSIST_OVERSIZE)
    else
      match GetU32(file)
      case None => Err(E_PERSIST_MAGIC)
      case Some((magic, b1)) =>
        if magic != MAGIC then Err(E_PERSIST_MAGIC) else OpenVersion(b1)
  }

  function OpenVersion(b: bytes): Outcome<bytes> {
    match GetU16(b)
    case None => Err(E_PERSIST_VERSION)
    case Some((version, b1)) =>
      if version != VERSION then Err(E_PERSIST_VERSION) else OpenLength(b1)
  }

  function OpenLength(b: bytes): Outcome<bytes> {
    match GetU64(b)
    case None => Err(E_PERSIST_LEN)
    case Some((length, b1)) =>
      if length > MAX_PAYLOAD then Err(E_PERSIST_OVERSIZE)
      else if length > |b1| then Err(E_PERSIST_TRUNC)
      else OpenPayload(b1[..length], b1[length..])
  }

  function OpenPayload(payload: bytes, b: bytes): Outcome<bytes>
    requires |payload| <= MAX_PAYLOAD
  {
    match GetU32(b)
    case None => Err(E_PERSIST_CRC)
    case Some((crc, b1)) =>
      if b1 != [] then Err(E_PERSIST_TRAILING)
      else if Sum(Body(payload)) != crc then Err(E_PERSIST_CRC)
      else Ok(payload)
  }

  lemma EnvelopeLayout(payload: bytes)
    requires |payload| <= MAX_PAYLOAD
    ensures var tail := PutU32(Sum(Body(payload)), []);
            Envelope(payload) == PutU32(MAGIC, PutU16(VERSION, PutU64(|payload|, payload + tail)))
    ensures |Envelope(payload)| == |payload| + 18
  {
    Regroup(Little(MAGIC, 4), Little(VERSION, 2), Little(|payload|, 8), payload, Little(Sum(Body(payload)), 4));
  }

  lemma Regroup(a: bytes, b: bytes, c: bytes, d: bytes, e: bytes)
    ensures a + b + c + d + e == a + (b + (c + (d + (e + []))))
  {
  }

  lemma OpenReturns(payload: bytes)
    requires |payload| <= MAX_PAYLOAD
    ensures Open(Envelope(payload)) == Ok(payload)
  {
    EnvelopeLayout(payload);
    var tail := PutU32(Sum(Body(payload)), []);
    var rest := payload + tail;
    assert rest[..|payload|] == payload && rest[|payload|..] == tail;
    assert OpenPayload(payload, tail) == Ok(payload);
    assert OpenLength(PutU64(|payload|, rest)) == Ok(payload);
    assert OpenVersion(PutU16(VERSION, PutU64(|payload|, rest))) == Ok(payload);
  }

  lemma PayloadOpened(payload: bytes, b: bytes)
    requires |payload| <= MAX_PAYLOAD && OpenPayload(payload, b).Ok?
    ensures OpenPayload(payload, b).value == payload && b == PutU32(Sum(Body(payload)), [])
  {
    ParsedIsPrinted(b);
  }

  lemma LengthOpened(b: bytes)
    requires OpenLength(b).Ok?
    ensures var p := OpenLength(b).value;
            |p| <= MAX_PAYLOAD && b == PutU64(|p|, p + PutU32(Sum(Body(p)), []))
  {
    hide Sum, Body, OpenPayload;
    ParsedIsPrinted(b);
    var (length, b1) := GetU64(b).value;
    PayloadOpened(b1[..length], b1[length..]);
    assert b1 == b1[..length] + b1[length..];
  }

  lemma OpenedIsEnvelope(file: bytes)
    requires Open(file).Ok?
    ensures |Open(file).value| <= MAX_PAYLOAD && file == Envelope(Open(file).value)
  {
    ParsedIsPrinted(file);
    var b1 := GetU32(file).value.1;
    ParsedIsPrinted(b1);
    var b2 := GetU16(b1).value.1;
    LengthOpened(b2);
    EnvelopeLayout(Open(file).value);
  }

  /** A file is accepted exactly when it is the envelope of some payload within the limit. */
  lemma OpenExact(file: bytes)
    ensures Open(file).Ok? <==> exists p :: |p| <= MAX_PAYLOAD && file == Envelope(p)
    ensures forall p | |p| <= MAX_PAYLOAD && file == Envelope(p) :: Open(file) == Ok(p)
  {
    if Open(file).Ok? {
      OpenedIsEnvelope(file);
    }
    forall p | |p| <= MAX_PAYLOAD && file == Envelope(p) ensures Open(file) == Ok(p) {
      OpenReturns(p);
    }
  }

  lemma LengthField(p: bytes)
    requires |p| <= MAX_PAYLOAD
    ensures Envelope(p)[6..14] == Little(|p|, 8) && Envelope(p)[14..14 + |p|] == p
    ensures |Envelope(p)| == |p| + 18
  {
    var e := Envelope(p);
    assert e[6..14] == Header(|p|)[6..];
  }

  /** No proper prefix and no proper extension of an accepted file is accepted. */
  lemma LengthIsChecked(p: bytes, other: bytes)
    requires |p| <= MAX_PAYLOAD
    requires (other <= Envelope(p) || Envelope(p) <= other) && other != Envelope(p)
    ensures Open(other).Err?
  {
    if Open(other).Ok? {
      OpenedIsEnvelope(other);
      var q := Open(other).value;
      LengthField(p);
      LengthField(q);
      assert Envelope(p)[6..14] == Envelope(q)[6..14];
      Widths();
      FromLittleInverts(|p|, 8);
      FromLittleInverts(|q|, 8);
      assert false;
    }
  }

  /** No file that differs from an accepted one in a single byte, wherever it is, is accepted. */
  lemma EveryByteIsChecked(p: bytes, other: bytes, i: nat)
    requires |p| <= MAX_PAYLOAD && |other| == |Envelope(p)| && i < |other|
    requires other[i] != Envelope(p)[i]
    requires forall j :: 0 <= j < |other| && j != i ==> other[j] == Envelope(p)[j]
    ensures Open(other).Err?
  {
    if Open(other).Ok? {
      OpenedIsEnvelope(other);
      OneByteForced(p, Open(other).value, i);
    }
  }

  /** Envelopes that agree everywhere but at one position agree there too. */
  lemma OneByteForced(p: bytes, q: bytes, i: nat)
    requires |p| <= MAX_PAYLOAD && |q| <= MAX_PAYLOAD && |Envelope(p)| == |Envelope(q)| && i < |Envelope(p)|
    requires forall j :: 0 <= j < |Envelope(p)| && j != i ==> Envelope(p)[j] == Envelope(q)[j]
    ensures Envelope(p) == Envelope(q)
  {
    hide Sum;
    var n := |p| + 14;
    LengthField(p);
    LengthField(q);
    var a, b := Body(p), Body(q);
    assert a == Envelope(p)[..n] && b == Envelope(q)[..n];
    if i < n && a[i] != b[i] {
      OneByteChangesCrc(INITIAL, a, b, i);
      SumsApart(a, b);
      assert Little(Sum(a), 4) == Envelope(p)[n..] == Envelope(q)[n..] == Little(Sum(b), 4);
      Widths();
      FromLittleInverts(Sum(a), 4);
      FromLittleInverts(Sum(b), 4);
      assert false;
    }
    assert a == b;
  }

  lemma SumsApart(a: bytes, b: bytes)
    requires Crc(INITIAL, a) != Crc(INITIAL, b)
    ensures Sum(a) != Sum(b)
  {
    var x, y := Crc(INITIAL, a), Crc(INITIAL, b);
    assert (x as int) as bv32 == x && (y as int) as bv32 == y;
  }

  // ---- The store's own form ----

  /** The checksum is fed field by field. */
  method PayloadCrc(length: u64, payload: bytes) returns (crc: u32)
    ensures crc == Sum(Header(length) + payload)
  {
    var c := new Crc32();
    c.Update(Little(MAGIC, 4));
    c.Update(Little(VERSION, 2));
    c.Update(Little(length, 8));
    c.Update(payload);
    crc := c.value as int;
    CrcConcat(INITIAL, Little(MAGIC, 4), Little(VERSION, 2));
    CrcConcat(INITIAL, Little(MAGIC, 4) + Little(VERSION, 2), Little(length, 8));
    CrcConcat(INITIAL, Header(length), payload);
  }

  method BuildEnvelope(payload: bytes) returns (r: Outcome<bytes>)
    ensures r == if |payload| > MAX_PAYLOAD then Err(E_PERSIST_OVERSIZE) else Ok(Envelope(payload))
  {
    hide Little, Sum;
    if |payload| > MAX_PAYLOAD {
      return Err(E_PERSIST_OVERSIZE);
    }
    var out := new ByteWriter();
    out.WriteInt(MAGIC, 4);
    out.WriteInt(VERSION, 2);
    out.WriteInt(|payload|, 8);
    out.WriteRaw(payload);
    assert out.buffer == Body(payload);
    var crc := PayloadCrc(|payload|, payload);
    out.WriteInt(crc, 4);
    r := Ok(out.buffer);
  }

  method LoadEnvelope(file: bytes) returns (r: Outcome<bytes>)
    ensures r == Open(file)
  {
    if |file| > MAX_PAYLOAD + 64 {
      return Err(E_PERSIST_OVERSIZE);
    }
    var reader := new ByteReader(file);
    assert file[0..] == file;
    var magic := reader.ReadU32();
    if magic != Some(MAGIC) {
      return Err(E_PERSIST_MAGIC);
    }
    var version := reader.ReadU16();
    if version != Some(VERSION) {
      return Err(E_PERSIST_VERSION);
    }
    r := LoadPayload(reader);
  }

  method LoadPayload(reader: ByteReader) returns (r: Outcome<bytes>)
    requires reader.Valid()
    modifies reader
    ensures r == OpenLength(old(reader.Rest()))
  {
    var length := reader.ReadU64();
    if length.None? {
      return Err(E_PERSIST_LEN);
    }
    if length.value > MAX_PAYLOAD {
      return Err(E_PERSIST_OVERSIZE);
    }
    var payload := reader.ReadSpan(length.value);
    if payload.None? {
      return Err(E_PERSIST_TRUNC);
    }
    var stored := reader.ReadU32();
    if stored.None? {
      return Err(E_PERSIST_CRC);
    }
    var left := reader.Remaining();
    if left > 0 {
      return Err(E_PERSIST_TRAILING);
    }
    var crc := PayloadCrc(length.value, payload.value);
    return if crc != stored.value then Err(E_PERSIST_CRC) else Ok(payload.value);
  }
}
