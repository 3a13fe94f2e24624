/** Saving and loading a coordinator: durable encoding inside the envelope, then conservative recovery. */
module Store {
  import opened Types
  import opened Names
  import opened Engine
  import opened Durable
  import opened Persistence

  /** Printing an operation that names a program but no program generation throws. */
  predicate Printable(s: State) {
    forall o | o in s.operations :: s.operations[o].program.Some? ==> s.operations[o].programGeneration.Some?
  }

  function SaveFile(e: Enums, s: State): Outcome<bytes> {
    if !Printable(s) then Err(E_BAD_OPTIONAL)
    else
      var payload := Encode(e, s);
      if |payload| > MAX_PAYLOAD then Err(E_PERSIST_OVERSIZE) else Ok(Envelope(payload))
  }

  /** The durable state in a file, before recovery. */
  function ReadFile(e: Enums, file: bytes): Outcome<State> {
    match Open(file)
    case Err(code) => Err(code)
    case Ok(payload) =>
      match Decode(e, payload)
      case None => Err(E_PERSIST_DECODE)
      case Some((d, rest)) => if rest != [] then Err(E_PERSIST_TRAILING) else Ok(d)
  }

  function LoadFile(e: Enums, file: bytes): Outcome<State> {
    match ReadFile(e, file)
    case Err(code) => Err(code)
    case Ok(d) => Ok(Recover(d))
  }

  lemma ReadBack(e: Enums, payload: bytes, d: State)
    requires |payload| <= MAX_PAYLOAD
    ensures ReadFile(e, Envelope(payload)) == Ok(d) <==> Decode(e, payload) == Some((d, []))
  {
    hide Decode;
    OpenReturns(payload);
  }

  /**
   A saved file reads back as exactly what the save kept if and only if the state was persistable, and
   then loading it is recovery applied to that.
   */
  lemma LoadAfterSave(e: Enums, s: State)
    requires SaveFile(e, s).Ok?
    ensures ReadFile(e, SaveFile(e, s).value) == Ok(Project(s)) <==> Persistable(e, s)
    ensures Persistable(e, s) ==> LoadFile(e, SaveFile(e, s).value) == Ok(Recover(Project(s)))
  {
    hide Encode, Decode, Recover, Persistable;
    ReadBack(e, Encode(e, s), Project(s));
    StateRoundTrip(e, s);
  }

  /** A damaged file changes nothing: a single altered byte anywhere makes the load fail. */
  lemma DamagedFileIsRefused(e: Enums, s: State, file: bytes, i: nat)
    requires SaveFile(e, s).Ok? && |file| == |SaveFile(e, s).value| && i < |file|
    requires file[i] != SaveFile(e, s).value[i]
    requires forall j :: 0 <= j < |file| && j != i ==> file[j] == SaveFile(e, s).value[j]
    ensures LoadFile(e, file).Err?
  {
    hide Encode, Decode;
    EveryByteIsChecked(Encode(e, s), file, i);
  }
}
