/** The loops of the message decoders and encoders: a count, then the elements, of which a bounded number is read. */
module Lists {
  import opened Types
  import opened Codec
  import opened Cursor
  import opened Wire

  /** What reading `n` more elements after `got` comes to. */
  ghost function Remaining<T>(f: Format<T>, got: seq<T>, n: nat, b: bytes): Option<(seq<T>, bytes)> {
    match GetAll(f, n, b)
    case None => None
    case Some((vs, rest)) => Some((got + vs, rest))
  }

  lemma OneMore<T>(f: Format<T>, got: seq<T>, n: nat, b: bytes)
    requires n > 0
    ensures Remaining(f, got, n, b) ==
            match f.get(b) case None => None case Some((v, rest)) => Remaining(f, got + [v], n - 1, rest)
  {
    if f.get(b).Some? && GetAll(f, n - 1, f.get(b).value.1).Some? {
      var v := f.get(b).value.0;
      var vs := GetAll(f, n - 1, f.get(b).value.1).value.0;
      assert got + ([v] + vs) == got + [v] + vs;
    }
  }

  lemma NoneMore<T>(f: Format<T>, got: seq<T>, b: bytes)
    ensures Remaining(f, got, 0, b) == Some((got, b))
  {
    assert got + [] == got;
  }

  lemma AtFirst<T>(f: Format<T>, cap: nat, b: bytes)
    ensures GetList(f, cap, b) ==
            match GetU64(b)
            case None => None
            case Some((n, rest)) => Remaining(f, [], if n < cap then n else cap, rest)
  {
    if GetU64(b).Some? {
      var (n, rest) := GetU64(b).value;
      var all := GetAll(f, if n < cap then n else cap, rest);
      if all.Some? {
        var (vs, left) := all.value;
        assert [] + vs == vs;
      }
    }
  }

  /** The operation classes, data types and layouts of a registration: at most 64 of each are read. */
  method ReadCodeList(reader: ByteReader) returns (r: Option<seq<Code>>)
    requires reader.Valid()
    modifies reader`pos
    ensures reader.Valid()
    ensures match GetList(CODE, OPS_CAP, old(reader.Rest()))
            case None => r.None?
            case Some((cs, rest)) => r == Some(cs) && reader.Rest() == rest
  {
    hide GetAll, Remaining, GetList;
    ghost var all := GetList(CODE, OPS_CAP, reader.Rest());
    AtFirst(CODE, OPS_CAP, reader.Rest());
    var count := reader.ReadU64();
    if count.None? {
      return None;
    }
    var n := if count.value < OPS_CAP then count.value else OPS_CAP;
    var codes: seq<Code> := [];
    var i := 0;
    while i < n
      invariant 0 <= i <= n && reader.Valid()
      invariant all == Remaining(CODE, codes, n - i, reader.Rest())
    {
      OneMore(CODE, codes, n - i, reader.Rest());
      var c := reader.ReadU16();
      if c.None? {
        return None;
      }
      codes := codes + [c.value];
      i := i + 1;
    }
    NoneMore(CODE, codes, reader.Rest());
    r := Some(codes);
  }

  /** The entries of a capability message: at most 1024 are read. */
  method ReadEntries(reader: ByteReader) returns (r: Option<seq<CapabilityEntry>>)
    requires reader.Valid()
    modifies reader`pos
    ensures reader.Valid()
    ensures match GetList(ENTRY, ENTRIES_CAP, old(reader.Rest()))
            case None => r.None?
            case Some((es, rest)) => r == Some(es) && reader.Rest() == rest
  {
    hide GetAll, Remaining, GetList;
    ghost var all := GetList(ENTRY, ENTRIES_CAP, reader.Rest());
    AtFirst(ENTRY, ENTRIES_CAP, reader.Rest());
    var count := reader.ReadU64();
    if count.None? {
      return None;
    }
    var n := if count.value < ENTRIES_CAP then count.value else ENTRIES_CAP;
    var entries: seq<CapabilityEntry> := [];
    var i := 0;
    while i < n
      invariant 0 <= i <= n && reader.Valid()
      invariant all == Remaining(ENTRY, entries, n - i, reader.Rest())
    {
      OneMore(ENTRY, entries, n - i, reader.Rest());
      var entry := ReadEntry(reader);
      if entry.None? {
        return None;
      }
      entries := entries + [entry.value];
      i := i + 1;
    }
    NoneMore(ENTRY, entries, reader.Rest());
    r := Some(entries);
  }

  method ReadEntry(reader: ByteReader) returns (r: Option<CapabilityEntry>)
    requires reader.Valid()
    modifies reader`pos
    ensures reader.Valid()
    ensures match GetEntry(old(reader.Rest()))
            case None => r.None?
            case Some((e, rest)) => r == Some(e) && reader.Rest() == rest
  {
    hide GetBlob, GetU16;
    var key := reader.ReadBlob();
    if key.None? {
      return None;
    }
    var state := reader.ReadU16();
    if state.None? {
      return None;
    }
    r := Some(CapabilityEntry(key.value, state.value));
  }

  lemma {:induction false} PutAllSnoc(cs: seq<Code>, c: Code)
    ensures PutAll(CODE, cs + [c], []) == PutAll(CODE, cs, []) + Little(c, 2)
  {
    if cs == [] {
      assert cs + [c] == [c] && [c][1..] == [];
      assert PutAll(CODE, [c], []) == PutU16(c, []);
      assert Little(c, 2) + [] == Little(c, 2);
    } else {
      PutAllSnoc(cs[1..], c);
      assert (cs + [c])[1..] == cs[1..] + [c];
      assert Little(cs[0], 2) + (PutAll(CODE, cs[1..], []) + Little(c, 2)) ==
             Little(cs[0], 2) + PutAll(CODE, cs[1..], []) + Little(c, 2);
    }
  }

  /** Every code is written, whatever the reader's cap. */
  method WriteCodeList(w: ByteWriter, cs: seq<Code>)
    modifies w
    ensures w.buffer == old(w.buffer) + PutCodeList(cs, [])
  {
    hide PutAll, Little, PutU64;
    w.WriteInt(Wrap(|cs|), 8);
    ghost var start := w.buffer;
    NothingPut();
    for i := 0 to |cs|
      invariant w.buffer == start + PutAll(CODE, cs[..i], [])
    {
      PutAllSnoc(cs[..i], cs[i]);
      assert cs[..i] + [cs[i]] == cs[..i + 1];
      w.WriteInt(cs[i], 2);
    }
    assert cs[..|cs|] == cs;
    Prefixed(Wrap(|cs|), PutAll(CODE, cs, []));
  }

  lemma NothingPut()
    ensures PutAll(CODE, [], []) == []
  {
  }

  lemma Prefixed(n: u64, rest: bytes)
    ensures PutU64(n, rest) == Little(n, 8) + rest
  {
  }
}
