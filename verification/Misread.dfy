/**
 What a load makes of an operation that is bound to a program. The writer puts the program before the description
 and the reader takes the description first, so where the program id happens to be the length of the description
 the file is accepted whole, with another description, program and generation in it.
 */
module Misread {
  import opened Types
  import opened Ordered
  import opened Names
  import opened Codec
  import opened Records
  import opened Engine
  import opened Durable
  import opened Store
  import opened Runs
  import opened Restart
  import opened Lost

  // ---- One operation ----

  function Word(b: bytes): u64
    requires |b| == 8
  {
    FromLittleBound(b);
    Widths();
    FromLittle(b)
  }

  /** The generation, the program taken for a length, and the description, in the order they were written. */
  function Written(generation: Gen, description: bytes): bytes {
    Little(generation, 8) + Little(|description|, 8) + description
  }

  predicate Slips(v: Operation) {
    v.program.Some? && v.programGeneration.Some? && v.program.value == |v.description| && |v.description| <= MAX_BLOB
  }

  /** What is read: as many bytes of description, then eight of program, then eight of generation. */
  function Seen(v: Operation): Operation {
    if Slips(v) then
      var n, all := |v.description|, Written(v.programGeneration.value, v.description);
      v.(description := all[..n], program := Some(Word(all[n..n + 8])), programGeneration := Some(Word(all[n + 8..])))
    else DurableOperation(v)
  }

  /** Within the limits, and either unbound or bound to a program with the id that slips through. */
  predicate Readable(e: Enums, v: Operation) {
    && HeadOk(e, HeadOf(v)) && MiddleOk(e, MiddleOf(v))
    && (if v.program.Some? then Slips(v) else TextOk(v.description))
  }

  lemma TakesWord(b: bytes, rest: bytes)
    requires |b| == 8
    ensures GetU64(b + rest) == Some((Word(b), rest))
  {
    assert (b + rest)[..8] == b && (b + rest)[8..] == rest;
  }

  lemma SlippedTail(v: Operation, rest: bytes)
    requires Slips(v)
    ensures GetTail(PutTail(TailOf(v), rest)) == Some((TailOf(Seen(v)), rest))
  {
    hide GetBlob, PutBlob, PutU64, GetU64, Little, FromLittle;
    var n, generation := |v.description|, v.programGeneration.value;
    var b := PutU64(n, PutU64(generation, PutBlob(v.description, rest)));
    assert GetBool(PutTail(TailOf(v), rest)) == Some((true, b));
    BoundTailLayout(n, generation, v.description, rest);
    var all := Written(generation, v.description);
    assert (all + rest)[..n] == all[..n];
    assert (all + rest)[n..] == all[n..n + 8] + (all[n + 8..] + rest);
    TakesWord(all[n..n + 8], all[n + 8..] + rest);
    TakesWord(all[n + 8..], rest);
  }

  /** The reader accepts the record, keeps everything before the description, and stops where the record ends. */
  lemma OperationReads(e: Enums, v: Operation, rest: bytes)
    requires Readable(e, v)
    ensures GetOperation(e, PutOperation(e, v, rest)) == Some((Seen(v), rest))
  {
    hide GetTail, PutTail, GetHead, PutHead, GetMiddle, PutMiddle, HeadOk, MiddleOk, Written, Word;
    var tail := PutTail(TailOf(v), rest);
    var middle := PutMiddle(e, MiddleOf(v), tail);
    assert GetHead(e, PutHead(e, HeadOf(v), middle)) == Some((HeadOf(v), middle));
    assert GetMiddle(e, middle) == Some((MiddleOf(v), tail));
    if Slips(v) {
      SlippedTail(v, rest);
      assert Assemble(HeadOf(v), MiddleOf(v), TailOf(Seen(v))) == Seen(v);
    } else {
      PlainTail(v, rest);
      assert Assemble(HeadOf(v), MiddleOf(v), TailOf(Seen(v))) == Seen(v);
    }
  }

  lemma PlainTail(v: Operation, rest: bytes)
    requires v.program.None? && TextOk(v.description)
    ensures GetTail(PutTail(TailOf(v), rest)) == Some((TailOf(DurableOperation(v)), rest))
  {
    TailExact(TailOf(DurableOperation(v)), rest);
    assert PutTail(TailOf(DurableOperation(v)), rest) == PutTail(TailOf(v), rest);
  }

  /** It is read as it was if and only if the bytes are the same with the fields on either side. */
  lemma SeenAsItIs(v: Operation)
    requires Slips(v)
    ensures Seen(v) == v <==> SelfReading(v.program.value, v.programGeneration.value, v.description)
  {
    hide PutTail, GetTail, SelfReading, Written, Word;
    SlippedTail(v, []);
    BoundTailExact(v.program.value, v.programGeneration.value, v.description, []);
    assert TailOf(Seen(v)) == TailOf(v) <==> Seen(v) == v;
  }

  // ---- All operations ----

  function SeenAll(vs: seq<Operation>): (r: seq<Operation>)
    ensures |r| == |vs| && forall i :: 0 <= i < |vs| ==> r[i] == Seen(vs[i])
  {
    seq(|vs|, i requires 0 <= i < |vs| => Seen(vs[i]))
  }

  lemma {:induction false} AllRead(e: Enums, vs: seq<Operation>, rest: bytes)
    requires forall v | v in vs :: Readable(e, v)
    ensures GetAll(OperationFormat(e), |vs|, PutAll(OperationFormat(e), vs, rest)) == Some((SeenAll(vs), rest))
  {
    hide GetOperation, PutOperation, Readable, Seen;
    if vs == [] {
      assert SeenAll(vs) == [];
    } else {
      AllRead(e, vs[1..], rest);
      OperationReads(e, vs[0], PutAll(OperationFormat(e), vs[1..], rest));
      assert SeenAll(vs) == [Seen(vs[0])] + SeenAll(vs[1..]);
    }
  }

  lemma SeenInOrder(m: map<Id, Operation>)
    ensures SeenAll(InOrder(m)) == InOrder(Mapped(m, Seen))
  {
    hide Mapped, Seen, Ascending;
  }

  lemma ReadableInOrder(e: Enums, m: map<Id, Operation>, v: Operation)
    requires (forall k | k in m :: Readable(e, m[k])) && v in InOrder(m)
    ensures Readable(e, v)
  {
    hide Readable;
    var keys := Ascending(m.Keys);
    var i :| 0 <= i < |keys| && InOrder(m)[i] == v;
    assert keys[i] in m;
  }

  lemma SectionReads(e: Enums, m: map<Id, Operation>, rest: bytes)
    requires |m| <= MAX_COUNT && forall k | k in m :: m[k].id == k && Readable(e, m[k])
    ensures GetSection(OperationFormat(e), OperationId, PutSection(OperationFormat(e), m, rest)) ==
            Some((Mapped(m, Seen), rest))
  {
    hide Readable, Seen, Mapped, InOrder, PutAll, GetAll, Collect, OperationFormat;
    forall v | v in InOrder(m) ensures Readable(e, v) {
      ReadableInOrder(e, m, v);
    }
    AllRead(e, InOrder(m), rest);
    SeenInOrder(m);
    forall k | k in m ensures Mapped(m, Seen)[k].id == k {
      SeenKeepsId(m[k]);
    }
    CollectInverts(OperationId, Mapped(m, Seen));
  }

  lemma SeenKeepsId(v: Operation)
    ensures Seen(v).id == v.id
  {
  }

  // ---- The state ----

  /** Everything but the operations as in a persistable state, and every operation readable. */
  ghost predicate Acceptable(e: Enums, s: State) {
    && s.epoch != 0 && CatalogOk(e, CatalogOf(s))
    && |s.operations| <= MAX_COUNT
    && (forall o | o in s.operations :: s.operations[o].id == o && Readable(e, s.operations[o]))
    && SectionOk(TargetFormat(e), TargetId, s.targets) && SectionOk(PlanFormat(e), PlanId, Project(s).plans)
    && SectionOk(ResultFormat(e), ResultId, s.results)
  }

  lemma WorkReads(e: Enums, s: State)
    requires Acceptable(e, s)
    ensures ExactOn(WorkParser(e), PutWork(e, WorkOf(s), []),
                    (Mapped(s.operations, Seen), (s.targets, (Project(s).plans, s.results))), [], true)
  {
    hide ExactOn, Then, PutSection, SectionOk, CatalogOk, Mapped, Seen, Readable, Project;
    var history :=
      Then(Section(TargetFormat(e), TargetId),
           Then(Section(PlanFormat(e), PlanId), Section(ResultFormat(e), ResultId)));
    var p := Project(s).plans;
    var b1 := PutSection(TargetFormat(e), s.targets,
      PutSection(PlanFormat(e), p, PutSection(ResultFormat(e), s.results, [])));
    PlansPrintAlike(e, s, PutSection(ResultFormat(e), s.results, []));
    OperationsRead(e, s.operations, b1);
    HistoryExact(e, s.targets, p, s.results, []);
    ThenExact(Section(OperationFormat(e), OperationId), history, PutSection(OperationFormat(e), s.operations, b1),
              Mapped(s.operations, Seen), b1, (s.targets, (p, s.results)), [], true, true);
  }

  lemma PlansPrintAlike(e: Enums, s: State, rest: bytes)
    ensures PutSection(PlanFormat(e), Project(s).plans, rest) == PutSection(PlanFormat(e), s.plans, rest)
  {
    hide PutSection, PrintAlike, Project;
    ProjectionPrintsAlike(e, s);
    SameSection(PlanFormat(e), s.plans, Project(s).plans, rest);
  }

  lemma OperationsRead(e: Enums, m: map<Id, Operation>, rest: bytes)
    requires |m| <= MAX_COUNT && forall k | k in m :: m[k].id == k && Readable(e, m[k])
    ensures ExactOn(Section(OperationFormat(e), OperationId), PutSection(OperationFormat(e), m, rest),
                    Mapped(m, Seen), rest, true)
  {
    hide GetSection, PutSection, Mapped, Seen, Readable;
    SectionReads(e, m, rest);
  }

  /** What is decoded: the projection, with every operation as it is seen. */
  function SeenState(s: State): State {
    Project(s).(operations := Mapped(s.operations, Seen))
  }

  lemma DecodesAsSeen(e: Enums, s: State)
    requires Acceptable(e, s)
    ensures Decode(e, Encode(e, s)) == Some((SeenState(s), []))
  {
    hide ExactOn, Then, CatalogOk, WorkParser, CatalogParser, PutCatalog, PutWork, Restore, Restored, Mapped, Seen,
      SectionOk, Readable;
    var h, c := (s.coordinatorId, s.epoch), CatalogOf(s);
    var w := (Mapped(s.operations, Seen), (s.targets, (Project(s).plans, s.results)));
    var b2 := PutWork(e, WorkOf(s), []);
    var b1 := PutCatalog(e, c, b2);
    HeaderExact(h.0, h.1, b1);
    CatalogExact(e, c, b2);
    WorkReads(e, s);
    ThreeExact(Then(GetU64, GetEpoch), CatalogParser(e), WorkParser(e), PutU64(h.0, PutU64(h.1, b1)), b1, b2, [],
               h, c, w, (true, true, true));
    RestoreExact(StateParser(e), Encode(e, s), h, c, w, true);
    SeenIsRestored(s);
  }

  lemma SeenIsRestored(s: State)
    ensures SeenState(s) == Restored((s.coordinatorId, s.epoch), CatalogOf(s),
                                     (Mapped(s.operations, Seen), (s.targets, (Project(s).plans, s.results))))
  {
    hide Mapped, Seen;
  }

  /** A file of such a state is always accepted, and the process starts from what was seen. */
  lemma LoadsAsSeen(e: Enums, s: State)
    requires Acceptable(e, s) && SaveFile(e, s).Ok?
    ensures LoadFile(e, SaveFile(e, s).value) == Ok(Recover(SeenState(s)))
  {
    hide Encode, Decode, Recover, Acceptable, SeenState;
    DecodesAsSeen(e, s);
    ReadBack(e, Encode(e, s), SeenState(s));
  }

  // ---- A run ----

  lemma WithOperationAcceptable(e: Enums, c: Id, op: Operation)
    requires Readable(e, op) && Named(e.policyOutcome, UNCONSTRAINED)
    ensures Acceptable(e, WithOperation(c, op))
  {
    hide Readable, DomainFormat, DatasetFormat, RegionFormat, ProgramFormat, TargetFormat, PlanFormat, ResultFormat;
    var s := WithOperation(c, op);
    assert |s.operations| == |{op.id}| == 1 by {
      assert s.operations.Keys == {op.id};
    }
    assert |s.policies| == |{1}| == 1 by {
      assert s.policies.Keys == {1};
    }
    assert Project(s).plans == map[];
    assert PolicyFormat(e).ok(s.policies[1]);
  }

  /**
   Create an operation bound to a program whose id is the length of its description, save, start again. The save
   and the load succeed, and the new process holds the operation with another description and another program,
   unless the bytes happen to read the same both ways.
   */
  lemma LoadedOperationIsAnother(e: Enums, c: Id, op: Operation)
    requires op.id != 0 && op.generation != 0 && op.program.Some? && Readable(e, op)
    requires Named(e.policyOutcome, UNCONSTRAINED)
    ensures var run := [OperationAdded(op), Saved, Loaded];
            var s := Running(e, c, run).st;
            && Allowed(e, c, run) && s.operations == map[op.id := Seen(op)]
            && (s.operations[op.id] == op <==>
                  SelfReading(op.program.value, op.programGeneration.value, op.description))
  {
    hide Running, Allowed, SaveFile, Recover, Seen, SelfReading, Acceptable, SeenState, WithOperation, HeadOk, MiddleOk,
      LoadFile, Named;
    var s := WithOperation(c, op);
    SaveSucceeds(e, c, op);
    WithOperationAcceptable(e, c, op);
    LoadsAsSeen(e, s);
    StartsFrom(e, c, op, Recover(SeenState(s)));
    RecoveredOperations(SeenState(s));
    SeenAsItIs(op);
    OneSeen(c, op);
  }

  lemma StartsFrom(e: Enums, c: Id, op: Operation, n: State)
    requires op.id != 0 && op.generation != 0 && SaveFile(e, WithOperation(c, op)).Ok?
    requires LoadFile(e, SaveFile(e, WithOperation(c, op)).value) == Ok(n)
    ensures Allowed(e, c, [OperationAdded(op), Saved, Loaded])
    ensures Running(e, c, [OperationAdded(op), Saved, Loaded]).st == n
  {
    hide Running, Allowed, ProcessStep, SaveFile, LoadFile, WithOperation;
    OperationCreated(e, c, op);
    OneMoreStep(e, c, [OperationAdded(op)], Saved);
    assert [OperationAdded(op)] + [Saved] == [OperationAdded(op), Saved];
    OneMoreStep(e, c, [OperationAdded(op), Saved], Loaded);
    assert [OperationAdded(op), Saved] + [Loaded] == [OperationAdded(op), Saved, Loaded];
    SavesAndLoads(e, Process(WithOperation(c, op), None, NO_IDS), n);
  }

  lemma OneMoreStep(e: Enums, c: Id, run: seq<Action>, a: Action)
    requires Allowed(e, c, run) && (a.Saved? || a.Loaded?)
    ensures Allowed(e, c, run + [a]) && Running(e, c, run + [a]) == ProcessStep(e, Running(e, c, run), a)
  {
    hide ProcessStep;
    assert (run + [a])[..|run|] == run;
  }

  lemma SavesAndLoads(e: Enums, r: Process, n: State)
    requires SaveFile(e, r.st).Ok? && LoadFile(e, SaveFile(e, r.st).value) == Ok(n)
    ensures ProcessStep(e, ProcessStep(e, r, Saved), Loaded).st == n
  {
    hide SaveFile, LoadFile, StateAfter, Initial;
  }

  lemma RecoveredOperations(d: State)
    ensures Recover(d).operations == d.operations
  {
    hide AdvanceEpoch;
  }

  lemma OneSeen(c: Id, op: Operation)
    ensures SeenState(WithOperation(c, op)).operations == map[op.id := Seen(op)]
  {
    hide Seen, Mapped, Project, DefaultPolicy;
  }

  /** Eight letters, program 8, generation 1: the description becomes the generation, the generation the letters. */
  lemma EightLetters(v: Operation)
    requires v.description == [97, 98, 99, 100, 101, 102, 103, 104]
    requires v.program == Some(8) && v.programGeneration == Some(1)
    ensures Seen(v).description == [1, 0, 0, 0, 0, 0, 0, 0] && Seen(v).program == Some(8)
    ensures Seen(v).programGeneration == Some(0x6867_6665_6463_6261) && Seen(v) != v
  {
    OneAndEight();
    var all := Written(1, v.description);
    assert all[..8] == [1, 0, 0, 0, 0, 0, 0, 0] && all[8..16] == [8, 0, 0, 0, 0, 0, 0, 0];
    assert all[16..] == v.description;
    LettersAsWord(v.description);
  }

  lemma OneAndEight()
    ensures Little(1, 8) == [1, 0, 0, 0, 0, 0, 0, 0] && Little(8, 8) == [8, 0, 0, 0, 0, 0, 0, 0]
    ensures FromLittle([8, 0, 0, 0, 0, 0, 0, 0]) == 8
  {
    assert Little(0, 3) == [0, 0, 0];
    assert Little(0, 7) == [0, 0, 0, 0, 0, 0, 0];
    FromLittleInverts(8, 8);
    Widths();
  }

  lemma OneMoreByte(low: u8, high: bytes)
    ensures FromLittle([low] + high) == low + 256 * FromLittle(high)
  {
    assert ([low] + high)[1..] == high;
  }

  lemma LettersAsWord(b: bytes)
    requires b == [97, 98, 99, 100, 101, 102, 103, 104]
    ensures FromLittle(b) == 0x6867_6665_6463_6261
  {
    hide FromLittle;
    OneMoreByte(104, []);
    OneMoreByte(103, [104]);
    OneMoreByte(102, [103, 104]);
    OneMoreByte(101, [102, 103, 104]);
    OneMoreByte(100, [101, 102, 103, 104]);
    OneMoreByte(99, [100, 101, 102, 103, 104]);
    OneMoreByte(98, [99, 100, 101, 102, 103, 104]);
    OneMoreByte(97, [98, 99, 100, 101, 102, 103, 104]);
    NoBytes();
    assert [104] + [] == [104] && [103] + [104] == [103, 104] && [102] + [103, 104] == [102, 103, 104];
    assert [101] + [102, 103, 104] == [101, 102, 103, 104];
    assert [100] + [101, 102, 103, 104] == [100, 101, 102, 103, 104];
    assert [99] + [100, 101, 102, 103, 104] == [99, 100, 101, 102, 103, 104];
    assert [98] + [99, 100, 101, 102, 103, 104] == [98, 99, 100, 101, 102, 103, 104];
    assert [97] + [98, 99, 100, 101, 102, 103, 104] == b;
  }

  lemma NoBytes()
    ensures FromLittle([]) == 0
  {
  }
}
