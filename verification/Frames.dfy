/**
 Framing: a fixed 24-byte header with a checksum over the other header fields and the payload. A concatenation of
 sent frames is received as the same frames, however the stream is cut into pieces on the way.
 */
module Frames {
  import opened Types
  import opened Codec
  import opened Checksum

  const MAGIC: u32 := 0x4D4F434E
  const VERSION: u16 := 1
  const MAX_PAYLOAD: nat := 64 * 1024 * 1024
  const HEADER_BYTES: nat := 24
  const KINDS: nat := 19

  datatype Frame = Frame(kind: u16, payload: bytes, correlation: u64)

  datatype Header = Header(magic: u32, version: u16, kind: u16, length: u32, correlation: u64, checksum: u32)

  datatype Receipt = Received(frame: Frame) | Disconnect | Malformed | Oversized | Truncated

  predicate FrameOk(f: Frame) {
    f.kind < KINDS && |f.payload| <= MAX_PAYLOAD
  }

  // ---- The header ----

  function PutHeader(h: Header, rest: bytes): (b: bytes)
    ensures h.kind < KINDS ==> GetHeader(b) == Some((h, rest))
    ensures |b| == HEADER_BYTES + |rest|
  {
    PutU32(h.magic, PutU16(h.version, PutU16(h.kind,
      PutU32(h.length, PutU64(h.correlation, PutU32(h.checksum, rest))))))
  }

  /** An unknown frame type is refused here; magic and version are not looked at yet. */
  function GetHeader(b: bytes): Option<(Header, bytes)> {
    var (magic, b) :- GetU32(b);
    var (version, b) :- GetU16(b);
    var (kind, b) :- GetU16(b);
    if kind >= KINDS then None
    else
      var (length, b) :- GetU32(b);
      var (correlation, b) :- GetU64(b);
      var (checksum, b) :- GetU32(b);
      Some((Header(magic, version, kind, length, correlation, checksum), b))
  }

  /** Bytes that yield a header are the printing of that header. */
  lemma HeaderIsPrinted(b: bytes)
    requires GetHeader(b).Some?
    ensures GetHeader(b).value.0.kind < KINDS && b == PutHeader(GetHeader(b).value.0, GetHeader(b).value.1)
  {
    ParsedIsPrinted(b);
    var b1 := GetU32(b).value.1;
    ParsedIsPrinted(b1);
    var b2 := GetU16(b1).value.1;
    ParsedIsPrinted(b2);
    var b3 := GetU16(b2).value.1;
    ParsedIsPrinted(b3);
    var b4 := GetU32(b3).value.1;
    ParsedIsPrinted(b4);
    ParsedIsPrinted(GetU64(b4).value.1);
  }

  /** The header fields the checksum covers: all but the checksum itself. */
  function Covered(h: Header): bytes {
    Little(h.magic, 4) + Little(h.version, 2) + Little(h.kind, 2) + Little(h.length, 4) + Little(h.correlation, 8)
  }

  function Sum(h: Header, payload: bytes): u32 {
    Crc(INITIAL, Covered(h) + payload) as int
  }

  function HeaderOf(f: Frame): Header
    requires FrameOk(f)
  {
    var h := Header(MAGIC, VERSION, f.kind, |f.payload|, f.correlation, 0);
    h.(checksum := Sum(h, f.payload))
  }

  function Bytes(f: Frame): (b: bytes)
    requires FrameOk(f)
    ensures |b| == HEADER_BYTES + |f.payload|
  {
    PutHeader(HeaderOf(f), f.payload)
  }

  // ---- Receiving from everything that will ever arrive ----

  function Receive(b: bytes): (Receipt, bytes) {
    if |b| < HEADER_BYTES then (Disconnect, [])
    else
      match GetHeader(b[..HEADER_BYTES])
      case None => (Malformed, b[HEADER_BYTES..])
      case Some((h, _)) => ReceivePayload(h, b[HEADER_BYTES..])
  }

  function ReceivePayload(h: Header, b: bytes): (Receipt, bytes) {
    if h.magic != MAGIC || h.version != VERSION then (Malformed, b)
    else if h.length > MAX_PAYLOAD then (Oversized, b)
    else if h.length > |b| then (Truncated, [])
    else
      var payload := b[..h.length];
      (if Sum(h, payload) != h.checksum then Malformed else Received(Frame(h.kind, payload, h.correlation)),
       b[h.length..])
  }

  lemma SumIgnoresChecksum(h: Header, k: u32, payload: bytes)
    ensures Sum(h.(checksum := k), payload) == Sum(h, payload)
  {
  }

  /** The header of a printing is its first 24 bytes. */
  lemma HeaderFirst(h: Header, rest: bytes)
    ensures PutHeader(h, rest) == PutHeader(h, []) + rest
    ensures PutHeader(h, rest)[..HEADER_BYTES] == PutHeader(h, []) && PutHeader(h, rest)[HEADER_BYTES..] == rest
  {
    Regroup(Little(h.magic, 4), Little(h.version, 2), Little(h.kind, 2), Little(h.length, 4), Little(h.correlation, 8),
            Little(h.checksum, 4), rest);
    var b := PutHeader(h, []) + rest;
    assert b[..HEADER_BYTES] == PutHeader(h, []) && b[HEADER_BYTES..] == rest;
  }

  lemma Regroup(a: bytes, b: bytes, c: bytes, d: bytes, e: bytes, f: bytes, rest: bytes)
    ensures a + (b + (c + (d + (e + (f + rest))))) == a + (b + (c + (d + (e + (f + []))))) + rest
  {
  }

  /** A sent frame is received, and nothing after it is consumed. */
  lemma SentIsReceived(f: Frame, rest: bytes)
    requires FrameOk(f)
    ensures Receive(Bytes(f) + rest) == (Received(f), rest)
  {
    hide Sum, PutHeader, GetHeader;
    var h := HeaderOf(f);
    HeaderFirst(h, f.payload);
    var b := Bytes(f) + rest;
    assert b[..HEADER_BYTES] == PutHeader(h, []);
    assert b[HEADER_BYTES..] == f.payload + rest;
    assert (f.payload + rest)[..|f.payload|] == f.payload && (f.payload + rest)[|f.payload|..] == rest;
    SumIgnoresChecksum(h, 0, f.payload);
  }

  /** Whatever is received was sent: it is the bytes of a frame within the limits. */
  lemma ReceivedWasSent(b: bytes)
    requires Receive(b).0.Received?
    ensures FrameOk(Receive(b).0.frame) && b == Bytes(Receive(b).0.frame) + Receive(b).1
  {
    hide Sum, PutHeader, GetHeader;
    var (h, left) := GetHeader(b[..HEADER_BYTES]).value;
    HeaderIsPrinted(b[..HEADER_BYTES]);
    HeaderLength(h, left);
    var f, rest := Receive(b).0.frame, Receive(b).1;
    assert b[HEADER_BYTES..] == f.payload + rest;
    SumIgnoresChecksum(h, 0, f.payload);
    HeaderFirst(h, f.payload);
    assert HeaderOf(f) == h;
    assert b == b[..HEADER_BYTES] + b[HEADER_BYTES..];
  }

  lemma HeaderLength(h: Header, left: bytes)
    requires |PutHeader(h, left)| == HEADER_BYTES
    ensures left == []
  {
  }

  // ---- Corruption ----

  /** Where the fields lie in the bytes of a frame. */
  lemma Layout(f: Frame)
    requires FrameOk(f)
    ensures Bytes(f)[..20] == Covered(HeaderOf(f)) && Bytes(f)[8..12] == Little(|f.payload|, 4)
    ensures Bytes(f)[20..24] == Little(Sum(HeaderOf(f), f.payload), 4) && Bytes(f)[24..] == f.payload
  {
    hide Sum;
    var h := HeaderOf(f);
    SumIgnoresChecksum(h, 0, f.payload);
    Fields(Little(h.magic, 4), Little(h.version, 2), Little(h.kind, 2), Little(h.length, 4), Little(h.correlation, 8),
           Little(h.checksum, 4), f.payload);
  }

  lemma Fields(a: bytes, b: bytes, c: bytes, d: bytes, e: bytes, f: bytes, rest: bytes)
    requires |a| == 4 && |b| == 2 && |c| == 2 && |d| == 4 && |e| == 8 && |f| == 4
    ensures var all := a + (b + (c + (d + (e + (f + rest)))));
            all[..20] == a + b + c + d + e && all[8..12] == d && all[20..24] == f && all[24..] == rest
  {
  }

  /** Changing any one byte outside the length field is noticed. */
  lemma CorruptionIsCaught(f: Frame, other: bytes, i: nat)
    requires FrameOk(f) && |other| == |Bytes(f)| && i < |other| && !(8 <= i < 12)
    requires other[i] != Bytes(f)[i] && forall j | 0 <= j < |other| && j != i :: other[j] == Bytes(f)[j]
    ensures !Receive(other).0.Received?
  {
    hide Receive, Bytes;
    if Receive(other).0.Received? {
      ReceivedWasSent(other);
      var g, rest := Receive(other).0.frame, Receive(other).1;
      SameLength(f, g, rest, other);
      assert rest == [] && other == Bytes(g);
      OneByteDecides(f, g, i);
    }
  }

  /** The bytes of a header, field after field. */
  function Nested(h: Header, length: bytes, rest: bytes): bytes {
    var low, high := Little(h.magic, 4) + Little(h.version, 2) + Little(h.kind, 2), Little(h.correlation, 8);
    low + length + (high + (Little(h.checksum, 4) + rest))
  }

  lemma HeaderNests(h: Header, rest: bytes)
    ensures PutHeader(h, rest) == Nested(h, Little(h.length, 4), rest)
  {
    Nest(Little(h.magic, 4), Little(h.version, 2), Little(h.kind, 2), Little(h.length, 4), Little(h.correlation, 8),
         Little(h.checksum, 4) + rest);
  }

  lemma Nest(a: bytes, b: bytes, c: bytes, d: bytes, e: bytes, rest: bytes)
    ensures a + (b + (c + (d + (e + rest)))) == a + b + c + d + (e + rest)
  {
  }

  lemma LengthReplaced(h: Header, d: bytes, rest: bytes, other: bytes)
    requires |d| == 4 && |other| == |Nested(h, d, rest)|
    requires forall j | 0 <= j < |other| && !(8 <= j < 12) :: other[j] == Nested(h, d, rest)[j]
    ensures other == Nested(h, other[8..12], rest)
  {
  }

  lemma AlteredHeader(f: Frame, other: bytes)
    requires FrameOk(f) && |other| == |Bytes(f)|
    requires forall j | 0 <= j < |other| && !(8 <= j < 12) :: other[j] == Bytes(f)[j]
    ensures var n := FromLittle(other[8..12]);
            && n < TWO_32 && other[24..] == f.payload
            && other[..24] == PutHeader(HeaderOf(f).(length := n), [])
  {
    hide Sum, PutHeader, Nested, Little, FromLittle;
    var h, d := HeaderOf(f), other[8..12];
    FromLittleBound(d);
    LittleInverts(d);
    Widths();
    HeaderNests(h, f.payload);
    LengthReplaced(h, Little(h.length, 4), f.payload, other);
    var k := h.(length := FromLittle(d));
    SameNest(h, FromLittle(d), d, f.payload);
    HeaderNests(k, f.payload);
    HeaderFirst(k, f.payload);
  }

  lemma SameNest(h: Header, n: u32, d: bytes, rest: bytes)
    ensures Nested(h.(length := n), d, rest) == Nested(h, d, rest)
  {
  }

  /** A frame whose length field was altered, as it is received: exactly what happens, for every altered length. */
  lemma AlteredLength(f: Frame, other: bytes, rest: bytes)
    requires FrameOk(f) && |other| == |Bytes(f)|
    requires forall j | 0 <= j < |other| && !(8 <= j < 12) :: other[j] == Bytes(f)[j]
    ensures var n, arrived, h := FromLittle(other[8..12]), f.payload + rest, HeaderOf(f);
            && n < TWO_32
            && Receive(other + rest) ==
               if n > MAX_PAYLOAD then (Oversized, arrived)
               else if n > |arrived| then (Truncated, [])
               else if Sum(h.(length := n), arrived[..n]) != h.checksum then (Malformed, arrived[n..])
               else (Received(Frame(f.kind, arrived[..n], f.correlation)), arrived[n..])
  {
    hide Sum, PutHeader, GetHeader, Bytes;
    AlteredHeader(f, other);
    var b := other + rest;
    assert b[..HEADER_BYTES] == other[..24] && b[HEADER_BYTES..] == f.payload + rest;
  }

  /** In particular a length beyond what was sent is never received from a stream that ends there. */
  lemma LengthenedIsRefused(f: Frame, other: bytes)
    requires FrameOk(f) && |other| == |Bytes(f)|
    requires forall j | 0 <= j < |other| && !(8 <= j < 12) :: other[j] == Bytes(f)[j]
    requires FromLittle(other[8..12]) > |f.payload|
    ensures Receive(other).0 in {Oversized, Truncated}
  {
    hide Receive, Sum, Bytes;
    AlteredLength(f, other, []);
    assert other + [] == other && f.payload + [] == f.payload;
  }

  lemma SameLength(f: Frame, g: Frame, rest: bytes, other: bytes)
    requires FrameOk(f) && FrameOk(g) && other == Bytes(g) + rest && |other| == |Bytes(f)|
    requires other[8..12] == Bytes(f)[8..12]
    ensures |g.payload| == |f.payload|
  {
    hide Bytes;
    Layout(f);
    Layout(g);
    assert other[8..12] == Bytes(g)[8..12];
    Widths();
    FromLittleInverts(|f.payload|, 4);
    FromLittleInverts(|g.payload|, 4);
  }

  /** The bytes the checksum covers: all but its own four. */
  function Squeezed(x: bytes): bytes
    requires |x| >= 24
  {
    x[..20] + x[24..]
  }

  lemma SqueezedAt(x: bytes, j: nat)
    requires |x| >= 24 && j < |x| - 4
    ensures |Squeezed(x)| == |x| - 4 && Squeezed(x)[j] == x[if j < 20 then j else j + 4]
  {
  }

  lemma Summed(f: Frame)
    requires FrameOk(f)
    ensures Squeezed(Bytes(f)) == Covered(HeaderOf(f)) + f.payload
    ensures FromLittle(Bytes(f)[20..24]) == Sum(HeaderOf(f), f.payload)
  {
    hide Bytes, Sum, Covered, Little, FromLittle;
    Layout(f);
    Widths();
    FromLittleInverts(Sum(HeaderOf(f), f.payload), 4);
  }

  lemma LittleOf(x: bytes, s: u32)
    requires |x| == 4 && FromLittle(x) == s
    ensures x == Little(s, 4)
  {
    LittleInverts(x);
  }

  /** Frames whose bytes agree everywhere but at one place agree there too. */
  lemma OneByteDecides(f: Frame, g: Frame, i: nat)
    requires FrameOk(f) && FrameOk(g) && |f.payload| == |g.payload| && i < |Bytes(f)|
    requires forall j | 0 <= j < |Bytes(f)| && j != i :: Bytes(g)[j] == Bytes(f)[j]
    ensures Bytes(f)[i] == Bytes(g)[i]
  {
    hide Bytes, Sum, Covered, Squeezed, HeaderOf, FromLittle, Little;
    Summed(f);
    Summed(g);
    var x, y := Bytes(f), Bytes(g);
    forall j | 0 <= j < |x| - 4
      ensures |Squeezed(x)| == |Squeezed(y)| == |x| - 4
      ensures (if j < 20 then j else j + 4) != i ==> Squeezed(x)[j] == Squeezed(y)[j]
    {
      SqueezedAt(x, j);
      SqueezedAt(y, j);
    }
    SqueezedAt(x, 0);
    SqueezedAt(y, 0);
    if 20 <= i < 24 {
      assert Squeezed(x) == Squeezed(y);
      SumOf(HeaderOf(f), HeaderOf(g), f.payload, g.payload);
      LittleOf(x[20..24], Sum(HeaderOf(f), f.payload));
      LittleOf(y[20..24], Sum(HeaderOf(g), g.payload));
      assert x[i] == x[20..24][i - 20] && y[i] == y[20..24][i - 20];
    } else if x[i] != y[i] {
      var k := if i < 20 then i else i - 4;
      assert x[20..24] == y[20..24];
      SqueezedAt(x, k);
      SqueezedAt(y, k);
      SumApart(HeaderOf(f), HeaderOf(g), f.payload, g.payload, k);
    }
  }

  lemma SumOf(h: Header, k: Header, p: bytes, q: bytes)
    requires Covered(h) + p == Covered(k) + q
    ensures Sum(h, p) == Sum(k, q)
  {
    hide Covered;
  }

  lemma SumApart(h: Header, k: Header, p: bytes, q: bytes, i: nat)
    requires |Covered(h) + p| == |Covered(k) + q| && i < |Covered(h) + p|
    requires (Covered(h) + p)[i] != (Covered(k) + q)[i]
    requires forall j | 0 <= j < |Covered(h) + p| && j != i :: (Covered(h) + p)[j] == (Covered(k) + q)[j]
    ensures Sum(h, p) != Sum(k, q)
  {
    hide Covered;
    OneByteChangesCrc(INITIAL, Covered(h) + p, Covered(k) + q, i);
    var x, y := Crc(INITIAL, Covered(h) + p), Crc(INITIAL, Covered(k) + q);
    assert (x as int) as bv32 == x && (y as int) as bv32 == y;
  }

  // ---- Streams ----

  function Concat(fs: seq<Frame>): bytes
    requires forall f | f in fs :: FrameOk(f)
  {
    if fs == [] then [] else Bytes(fs[0]) + Concat(fs[1..])
  }

  /** The first `n` frames of a stream, if it starts with that many. */
  function ReceiveMany(n: nat, b: bytes): Option<(seq<Frame>, bytes)> {
    if n == 0 then Some(([], b))
    else
      var (r, left) := Receive(b);
      if !r.Received? then None
      else
        var (fs, rest) :- ReceiveMany(n - 1, left);
        Some(([r.frame] + fs, rest))
  }

  lemma {:induction false} StreamRoundTrip(fs: seq<Frame>, rest: bytes)
    requires forall f | f in fs :: FrameOk(f)
    ensures ReceiveMany(|fs|, Concat(fs) + rest) == Some((fs, rest))
  {
    hide Receive, Bytes, FrameOk;
    if fs == [] {
      assert Concat(fs) + rest == rest;
    } else {
      StreamRoundTrip(fs[1..], rest);
      SentIsReceived(fs[0], Concat(fs[1..]) + rest);
      assert Concat(fs) + rest == Bytes(fs[0]) + (Concat(fs[1..]) + rest);
      assert fs == [fs[0]] + fs[1..];
    }
  }

  /** The frames a receiver reads before the first outcome that is not a frame. */
  function ReceiveAll(b: bytes): seq<Frame>
    decreases |b|
  {
    var (r, left) := Receive(b);
    if !r.Received? then []
    else
      ReceivedWasSent(b);
      [r.frame] + ReceiveAll(left)
  }

  lemma {:induction false} ReceiveAllOf(fs: seq<Frame>, tail: bytes)
    requires (forall f | f in fs :: FrameOk(f)) && !Receive(tail).0.Received?
    ensures ReceiveAll(Concat(fs) + tail) == fs
  {
    hide Receive, Bytes, FrameOk;
    if fs == [] {
      assert Concat(fs) + tail == tail;
    } else {
      ReceiveAllOf(fs[1..], tail);
      SentIsReceived(fs[0], Concat(fs[1..]) + tail);
      assert Concat(fs) + tail == Bytes(fs[0]) + (Concat(fs[1..]) + tail);
      assert fs == [fs[0]] + fs[1..];
    }
  }

  lemma {:induction false} ConcatSnoc(fs: seq<Frame>, f: Frame)
    requires (forall g | g in fs :: FrameOk(g)) && FrameOk(f)
    ensures Concat(fs + [f]) == Concat(fs) + Bytes(f)
  {
    hide Bytes, FrameOk;
    if fs == [] {
      assert [f][1..] == [];
    } else {
      ConcatSnoc(fs[1..], f);
      assert (fs + [f])[1..] == fs[1..] + [f];
    }
  }

  /** A frame that was cut short is never received. */
  lemma CutShort(f: Frame, n: nat)
    requires FrameOk(f) && n < |Bytes(f)|
    ensures Receive(Bytes(f)[..n]).0 == if n < HEADER_BYTES then Disconnect else Truncated
  {
    hide Sum, PutHeader, GetHeader;
    var h, b := HeaderOf(f), Bytes(f)[..n];
    if n >= HEADER_BYTES {
      HeaderFirst(h, f.payload);
      assert b[..HEADER_BYTES] == PutHeader(h, []);
    }
  }

  // ---- The source's own form ----

  /** A connection: the bytes on their way, delivered in pieces of any size, then the end of the stream. */
  class Connection {
    var incoming: bytes
    var outgoing: bytes

    constructor (data: bytes)
      ensures incoming == data && outgoing == []
    {
      incoming := data;
      outgoing := [];
    }

    /** The network takes as many bytes as it pleases, or none if the connection is gone. */
    method Send(data: bytes) returns (n: nat)
      modifies this`outgoing
      ensures n <= |data| && outgoing == old(outgoing) + data[..n]
    {
      n :| 0 <= n <= |data|;
      outgoing := outgoing + data[..n];
    }

    /** All of the bytes in order, or a failure after some first part of them. */
    method SendAll(data: bytes) returns (ok: bool)
      modifies this`outgoing
      ensures ok ==> outgoing == old(outgoing) + data
      ensures !ok ==> exists n | 0 <= n < |data| :: outgoing == old(outgoing) + data[..n]
    {
      var sent := 0;
      while sent < |data|
        invariant 0 <= sent <= |data| && outgoing == old(outgoing) + data[..sent]
      {
        var n := Send(data[sent..]);
        if n == 0 {
          return false;
        }
        assert data[..sent] + data[sent..][..n] == data[..sent + n];
        sent := sent + n;
      }
      assert data[..sent] == data;
      ok := true;
    }

    /** Between one byte and `most` bytes, as the network pleases; nothing once the peer has closed. */
    method Recv(most: nat) returns (piece: bytes)
      requires most > 0
      modifies this`incoming
      ensures old(incoming) == piece + incoming && |piece| <= most
      ensures piece == [] <==> old(incoming) == []
    {
      if incoming == [] {
        return [];
      }
      var n :| 1 <= n <= most && n <= |incoming|;
      piece := incoming[..n];
      incoming := incoming[n..];
    }

    /** Exactly `n` bytes, or nothing if the stream ends first. */
    method RecvAll(n: nat) returns (r: Option<bytes>)
      modifies this`incoming
      ensures n <= |old(incoming)| ==> r == Some(old(incoming)[..n]) && incoming == old(incoming)[n..]
      ensures n > |old(incoming)| ==> r == None && incoming == []
    {
      var got: bytes := [];
      while |got| < n
        invariant |got| <= n && got + incoming == old(incoming)
        decreases n - |got|
      {
        var piece := Recv(n - |got|);
        if piece == [] {
          return None;
        }
        got := got + piece;
      }
      r := Some(got);
    }
  }

  /** The checksum is fed field by field. */
  method FrameCrc(h: Header, payload: bytes) returns (crc: u32)
    ensures crc == Sum(h, payload)
  {
    var c := new Crc32();
    c.Update(Little(h.magic, 4));
    c.Update(Little(h.version, 2));
    c.Update(Little(h.kind, 2));
    c.Update(Little(h.length, 4));
    c.Update(Little(h.correlation, 8));
    c.Update(payload);
    crc := c.value as int;
    CrcFields(Little(h.magic, 4), Little(h.version, 2), Little(h.kind, 2), Little(h.length, 4),
              Little(h.correlation, 8), payload);
  }

  lemma CrcFields(a: bytes, b: bytes, c: bytes, d: bytes, e: bytes, payload: bytes)
    ensures Crc(INITIAL, a + b + c + d + e + payload) ==
            Crc(Crc(Crc(Crc(Crc(Crc(INITIAL, a), b), c), d), e), payload)
  {
    hide Crc;
    CrcConcat(INITIAL, a, b);
    CrcConcat(INITIAL, a + b, c);
    CrcConcat(INITIAL, a + b + c, d);
    CrcConcat(INITIAL, a + b + c + d, e);
    CrcConcat(INITIAL, a + b + c + d + e, payload);
  }

  /** The frame in full, or a failure: refused before anything is sent, or after some first part of it. */
  method SendFrame(c: Connection, f: Frame) returns (ok: bool)
    requires f.kind < KINDS
    modifies c`outgoing
    ensures !FrameOk(f) ==> !ok && c.outgoing == old(c.outgoing)
    ensures ok ==> FrameOk(f) && c.outgoing == old(c.outgoing) + Bytes(f)
    ensures !ok && FrameOk(f) ==> exists n | 0 <= n < |Bytes(f)| :: c.outgoing == old(c.outgoing) + Bytes(f)[..n]
  {
    hide Sum, PutHeader;
    if |f.payload| > MAX_PAYLOAD {
      return false;
    }
    var h := Header(MAGIC, VERSION, f.kind, |f.payload|, f.correlation, 0);
    var crc := FrameCrc(h, f.payload);
    h := h.(checksum := crc);
    HeaderFirst(h, f.payload);
    var wire := PutHeader(h, []) + f.payload;
    assert wire == Bytes(f);
    ok := c.SendAll(wire);
  }

  method RecvFrame(c: Connection) returns (r: Receipt)
    modifies c`incoming
    ensures r == Receive(old(c.incoming)).0
    ensures r.Received? ==> c.incoming == Receive(old(c.incoming)).1
  {
    hide Sum, GetHeader;
    var head := c.RecvAll(HEADER_BYTES);
    if head.None? {
      return Disconnect;
    }
    var parsed := GetHeader(head.value);
    if parsed.None? {
      return Malformed;
    }
    var h := parsed.value.0;
    if h.magic != MAGIC || h.version != VERSION {
      return Malformed;
    }
    if h.length > MAX_PAYLOAD {
      return Oversized;
    }
    var payload := c.RecvAll(h.length);
    if payload.None? {
      return Truncated;
    }
    var crc := FrameCrc(h, payload.value);
    r := if crc != h.checksum then Malformed else Received(Frame(h.kind, payload.value, h.correlation));
  }

  /** Frames one after another, until one cannot be sent. */
  method SendFrames(c: Connection, fs: seq<Frame>) returns (n: nat, ghost part: bytes)
    requires forall f | f in fs :: FrameOk(f)
    modifies c`outgoing
    ensures n <= |fs| && c.outgoing == old(c.outgoing) + Concat(fs[..n]) + part && !Receive(part).0.Received?
  {
    hide Bytes, Receive, FrameOk;
    assert Receive([]).0 == Disconnect by { NothingArrives(); }
    n, part := 0, [];
    assert old(c.outgoing) + Concat([]) + [] == old(c.outgoing);
    while n < |fs|
      invariant n <= |fs| && part == [] && c.outgoing == old(c.outgoing) + Concat(fs[..n])
    {
      assert FrameOk(fs[n]) && fs[n].kind < KINDS by { KnownKind(fs[n]); }
      var ok := SendFrame(c, fs[n]);
      if !ok {
        ghost var k :| 0 <= k < |Bytes(fs[n])| && c.outgoing == old(c.outgoing) + Concat(fs[..n]) + Bytes(fs[n])[..k];
        CutShort(fs[n], k);
        part := Bytes(fs[n])[..k];
        return;
      }
      ConcatSnoc(fs[..n], fs[n]);
      assert fs[..n] + [fs[n]] == fs[..n + 1];
      n := n + 1;
    }
  }

  lemma NothingArrives()
    ensures Receive([]).0 == Disconnect
  {
  }

  lemma KnownKind(f: Frame)
    requires FrameOk(f)
    ensures f.kind < KINDS
  {
  }

  /** A receiver's loop: frames until the connection ends or something is not a frame. */
  method RecvFrames(c: Connection) returns (fs: seq<Frame>)
    modifies c`incoming
    ensures fs == ReceiveAll(old(c.incoming))
  {
    hide Receive, Bytes, FrameOk;
    fs := [];
    var going := true;
    while going
      invariant ReceiveAll(old(c.incoming)) == fs + if going then ReceiveAll(c.incoming) else []
      decreases going, |c.incoming|
    {
      ghost var b := c.incoming;
      var r := RecvFrame(c);
      if r.Received? {
        ReceivedWasSent(b);
        fs := fs + [r.frame];
      } else {
        going := false;
      }
    }
  }

  /**
   Both ends of one connection: whatever pieces the network makes, and whenever it stops taking bytes, the
   receiver reads exactly the frames that were sent in full, in order, and nothing else.
   */
  method Exchange(fs: seq<Frame>) returns (sent: nat, got: seq<Frame>)
    requires forall f | f in fs :: FrameOk(f)
    ensures sent <= |fs| && got == fs[..sent]
  {
    hide Receive, Bytes, FrameOk;
    var here := new Connection([]);
    ghost var part;
    sent, part := SendFrames(here, fs);
    var there := new Connection(here.outgoing);
    got := RecvFrames(there);
    ReceiveAllOf(fs[..sent], part);
    assert here.outgoing == Concat(fs[..sent]) + part;
  }
}
