/** The reader's cursor and the writer's buffer, proved against the codec functions. */
module Cursor {
  import opened Types
  import opened Codec

  class ByteReader {
    const data: bytes
    var pos: nat

    ghost predicate Valid()
      reads this
    {
      pos <= |data|
    }

    /** What has not been read yet. */
    ghost function Rest(): bytes
      requires Valid()
      reads this
    {
      data[pos..]
    }

    constructor (source: bytes)
      ensures Valid() && pos == 0 && data == source
    {
      data := source;
      pos := 0;
    }

    method Remaining() returns (n: nat)
      requires Valid()
      ensures n == |Rest()|
    {
      n := |data| - pos;
    }

    /** Takes exactly `n` bytes, or refuses and stays where it is. */
    method ReadSpan(n: nat) returns (r: Option<bytes>)
      requires Valid()
      modifies this`pos
      ensures Valid()
      ensures match Split(old(Rest()), n)
              case None => r.None? && Rest() == old(Rest())
              case Some((span, rest)) => r == Some(span) && Rest() == rest
    {
      if n > |data| - pos {
        return None;
      }
      assert data[pos..][..n] == data[pos..pos + n] && data[pos..][n..] == data[pos + n..];
      r := Some(data[pos..pos + n]);
      pos := pos + n;
    }

    method ReadU16() returns (r: Option<u16>)
      requires Valid()
      modifies this`pos
      ensures Valid()
      ensures match GetU16(old(Rest()))
              case None => r.None? && Rest() == old(Rest())
              case Some((v, rest)) => r == Some(v) && Rest() == rest
    {
      var span := ReadSpan(2);
      if span.None? {
        return None;
      }
      FromLittleBound(span.value);
      Widths();
      r := Some(FromLittle(span.value));
    }

    method ReadU32() returns (r: Option<u32>)
      requires Valid()
      modifies this`pos
      ensures Valid()
      ensures match GetU32(old(Rest()))
              case None => r.None? && Rest() == old(Rest())
              case Some((v, rest)) => r == Some(v) && Rest() == rest
    {
      var span := ReadSpan(4);
      if span.None? {
        return None;
      }
      FromLittleBound(span.value);
      Widths();
      r := Some(FromLittle(span.value));
    }

    method ReadU64() returns (r: Option<u64>)
      requires Valid()
      modifies this`pos
      ensures Valid()
      ensures match GetU64(old(Rest()))
              case None => r.None? && Rest() == old(Rest())
              case Some((v, rest)) => r == Some(v) && Rest() == rest
    {
      var span := ReadSpan(8);
      if span.None? {
        return None;
      }
      FromLittleBound(span.value);
      Widths();
      r := Some(FromLittle(span.value));
    }

    /** A length-prefixed blob; one over the limit is refused. */
    method ReadBlob() returns (r: Option<bytes>)
      requires Valid()
      modifies this`pos
      ensures Valid()
      ensures match GetBlob(old(Rest()))
              case None => r.None?
              case Some((v, rest)) => r == Some(v) && Rest() == rest
    {
      var n := ReadU64();
      if n.None? || n.value > MAX_BLOB {
        return None;
      }
      r := ReadSpan(n.value);
    }
  }

  class ByteWriter {
    var buffer: bytes

    constructor ()
      ensures buffer == []
    {
      buffer := [];
    }

    method WriteRaw(data: bytes)
      modifies this
      ensures buffer == old(buffer) + data
    {
      if |data| > 0 {
        buffer := buffer + data;
      }
    }

    /** Appends the low `n` bytes, least significant first. */
    method WriteInt(v: nat, n: nat)
      modifies this
      ensures buffer == old(buffer) + Little(v, n)
    {
      var left := v;
      for i := 0 to n
        invariant buffer + Little(left, n - i) == old(buffer) + Little(v, n)
      {
        assert Little(left, n - i) == [left % 256] + Little(left / 256, n - i - 1);
        buffer := buffer + [left % 256];
        left := left / 256;
      }
    }
  }
}
