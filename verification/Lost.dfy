/**
 A run that loses a record: an operation bound to a program, created and saved, is within every limit of the
 file, the save succeeds, and the file does not read back as what was saved.
 */
module Lost {
  import opened Types
  import opened Names
  import opened Codec
  import opened Records
  import opened Engine
  import opened Durable
  import opened Ordered
  import opened Store
  import opened Runs
  import opened Restart

  // ---- How long the file is ----

  lemma U64Size(v: u64, rest: bytes)
    ensures |PutU64(v, rest)| == 8 + |rest|
  {
  }

  lemma BoolSize(v: bool, rest: bytes)
    ensures |PutBool(v, rest)| == 1 + |rest|
  {
  }

  lemma BlobSize(v: bytes, rest: bytes)
    ensures |PutBlob(v, rest)| == 8 + |v| + |rest|
  {
    U64Size(Wrap(|v|), v + rest);
  }

  lemma NameSize(t: Table, c: Code, rest: bytes)
    requires Named(t, c)
    ensures |PutName(t, c, rest)| <= 264 + |rest|
  {
    NamesAreShort(t, c);
    BlobSize(NameOf(t, c), rest);
  }

  lemma ShapeSize(e: Enums, s: Shape, rest: bytes)
    requires ShapeOk(e, s)
    ensures |PutShape(e, s, rest)| <= 544 + |rest|
  {
    hide PutU64, PutName;
    var b0 := PutU64(s.alignment, rest);
    var b1 := PutU64(s.elementCount, b0);
    var b2 := PutName(e.layout, s.layout, b1);
    U64Size(s.alignment, rest);
    U64Size(s.elementCount, b0);
    NameSize(e.layout, s.layout, b1);
    NameSize(e.dataType, s.dataType, b2);
  }

  lemma HeadSize(e: Enums, h: OperationHead, rest: bytes)
    requires HeadOk(e, h)
    ensures |PutHead(e, h, rest)| <= 1024 + |rest|
  {
    hide PutU64, PutName, PutShape, ShapeOk;
    var b0 := PutU64(h.workspaceBytes, rest);
    var b1 := PutU64(h.outputBytes, b0);
    var b2 := PutU64(h.inputBytes, b1);
    var b3 := PutShape(e, h.shape, b2);
    var b4 := PutU64(h.regionGeneration, b3);
    var b5 := PutU64(h.region, b4);
    var b6 := PutU64(h.datasetGeneration, b5);
    var b7 := PutU64(h.dataset, b6);
    var b8 := PutName(e.operationClass, h.opClass, b7);
    U64Size(h.workspaceBytes, rest);
    U64Size(h.outputBytes, b0);
    U64Size(h.inputBytes, b1);
    ShapeSize(e, h.shape, b2);
    U64Size(h.regionGeneration, b3);
    U64Size(h.region, b4);
    U64Size(h.datasetGeneration, b5);
    U64Size(h.dataset, b6);
    NameSize(e.operationClass, h.opClass, b7);
    U64Size(h.generation, b8);
    U64Size(h.id, PutU64(h.generation, b8));
  }

  lemma MiddleSize(e: Enums, m: OperationMiddle, rest: bytes)
    requires MiddleOk(e, m)
    ensures |PutMiddle(e, m, rest)| <= 1024 + |rest|
  {
    hide PutU64, PutName, PutBool;
    var b0 := PutU64(m.policyGeneration, rest);
    var b1 := PutU64(m.policy, b0);
    var b2 := PutName(e.retryClass, m.retryClass, b1);
    var b3 := PutName(e.integrityRequirement, m.integrity, b2);
    var b4 := PutU64(m.requiredThroughputBps, b3);
    var b5 := PutU64(m.maxToleratedLatencyNs, b4);
    var b6 := PutBool(m.determinismRequired, b5);
    U64Size(m.policyGeneration, rest);
    U64Size(m.policy, b0);
    NameSize(e.retryClass, m.retryClass, b1);
    NameSize(e.integrityRequirement, m.integrity, b2);
    U64Size(m.requiredThroughputBps, b3);
    U64Size(m.maxToleratedLatencyNs, b4);
    BoolSize(m.determinismRequired, b5);
    NameSize(e.dataType, m.outputDataType, b6);
  }

  lemma TailSize(t: OperationTail, rest: bytes)
    ensures |PutTail(t, rest)| <= 32 + |t.description| + |rest|
  {
    hide PutU64, PutBool, PutBlob;
    var b0 := PutBlob(t.description, rest);
    BlobSize(t.description, rest);
    if t.program.Some? {
      var b1 := PutU64(t.programGeneration.GetOr(0), b0);
      U64Size(t.programGeneration.GetOr(0), b0);
      U64Size(t.program.value, b1);
      BoolSize(true, PutU64(t.program.value, b1));
    } else {
      BoolSize(false, b0);
    }
  }

  lemma OperationSize(e: Enums, op: Operation, rest: bytes)
    requires HeadOk(e, HeadOf(op)) && MiddleOk(e, MiddleOf(op))
    ensures |PutOperation(e, op, rest)| <= 2080 + |op.description| + |rest|
  {
    hide PutHead, PutMiddle, PutTail, HeadOk, MiddleOk;
    var b0 := PutTail(TailOf(op), rest);
    var b1 := PutMiddle(e, MiddleOf(op), b0);
    TailSize(TailOf(op), rest);
    MiddleSize(e, MiddleOf(op), b0);
    HeadSize(e, HeadOf(op), b1);
  }

  lemma PolicySize(e: Enums, rest: bytes)
    requires Named(e.policyOutcome, UNCONSTRAINED)
    ensures |PutPolicy(e, DefaultPolicy(), rest)| <= 512 + |rest|
  {
    hide PutU64, PutName, PutBool, PutBlob;
    var b0 := PutBool(false, rest);
    var b1 := PutU64(0, b0);
    var b2 := PutBool(true, b1);
    var b3 := PutU64(0, b2);
    var b4 := PutU64(0, b3);
    var b5 := PutNames(e.decision, [], b4);
    var b6 := PutName(e.policyOutcome, UNCONSTRAINED, b5);
    var b7 := PutBlob(DEFAULT_POLICY_NAME, b6);
    BoolSize(false, rest);
    U64Size(0, b0);
    BoolSize(true, b1);
    U64Size(0, b2);
    U64Size(0, b3);
    U64Size(0, b4);
    NameSize(e.policyOutcome, UNCONSTRAINED, b5);
    BlobSize(DEFAULT_POLICY_NAME, b6);
    U64Size(1, b7);
    U64Size(1, PutU64(1, b7));
  }

  lemma EmptySection<V>(f: Format<V>, rest: bytes)
    ensures |PutSection(f, map[], rest)| == 8 + |rest|
  {
    hide PutU64;
    U64Size(0, rest);
    assert InOrder<V>(map[]) == [];
  }

  lemma OneSection<V>(f: Format<V>, m: map<u64, V>, k: u64, rest: bytes)
    requires m.Keys == {k}
    ensures |PutSection(f, m, rest)| == 8 + |f.put(m[k], rest)|
  {
    hide PutU64, Ascending;
    assert |m| == |m.Keys| == 1;
    assert Ascending(m.Keys)[0] in m.Keys;
    assert InOrder(m) == [m[k]];
    assert PutAll(f, [m[k]], rest) == f.put(m[k], rest);
    U64Size(1, f.put(m[k], rest));
  }

  /** The coordinator with one operation on record. */
  function WithOperation(c: Id, op: Operation): State {
    Initial(c).(operations := map[op.id := op])
  }

  lemma WorkSize(e: Enums, s: State, op: Operation)
    requires HeadOk(e, HeadOf(op)) && MiddleOk(e, MiddleOf(op))
    requires s.operations == map[op.id := op] && s.targets == map[] && s.plans == map[] && s.results == map[]
    ensures |PutWork(e, WorkOf(s), [])| <= 2112 + |op.description|
  {
    hide PutSection, PutOperation, HeadOk, MiddleOk;
    var b0 := PutSection(ResultFormat(e), s.results, []);
    var b1 := PutSection(PlanFormat(e), s.plans, b0);
    var b2 := PutSection(TargetFormat(e), s.targets, b1);
    EmptySection(ResultFormat(e), []);
    EmptySection(PlanFormat(e), b0);
    EmptySection(TargetFormat(e), b1);
    OneSection(OperationFormat(e), s.operations, op.id, b2);
    OperationSize(e, op, b2);
  }

  lemma CatalogSize(e: Enums, s: State, rest: bytes)
    requires Named(e.policyOutcome, UNCONSTRAINED)
    requires s.domains == map[] && s.datasets == map[] && s.regions == map[] && s.programs == map[]
    requires s.policies == map[1 := DefaultPolicy()]
    ensures |PutCatalog(e, CatalogOf(s), rest)| <= 552 + |rest|
  {
    hide PutSection, PutPolicy, DefaultPolicy;
    var b0 := PutSection(PolicyFormat(e), s.policies, rest);
    var b1 := PutSection(ProgramFormat(e), s.programs, b0);
    var b2 := PutSection(RegionFormat(e), s.regions, b1);
    var b3 := PutSection(DatasetFormat(), s.datasets, b2);
    OneSection(PolicyFormat(e), s.policies, 1, rest);
    PolicySize(e, rest);
    EmptySection(ProgramFormat(e), b0);
    EmptySection(RegionFormat(e), b1);
    EmptySection(DatasetFormat(), b2);
    EmptySection(DomainFormat(), b3);
  }

  lemma SaveSucceeds(e: Enums, c: Id, op: Operation)
    requires HeadOk(e, HeadOf(op)) && MiddleOk(e, MiddleOf(op)) && |op.description| <= MAX_BLOB
    requires Named(e.policyOutcome, UNCONSTRAINED) && op.program.Some? && op.programGeneration.Some?
    ensures SaveFile(e, WithOperation(c, op)).Ok?
  {
    hide PutU64, PutCatalog, PutWork, HeadOk, MiddleOk, DefaultPolicy;
    var s := WithOperation(c, op);
    var b0 := PutWork(e, WorkOf(s), []);
    var b1 := PutCatalog(e, CatalogOf(s), b0);
    WorkSize(e, s, op);
    CatalogSize(e, s, b0);
    U64Size(s.epoch, b1);
    U64Size(s.coordinatorId, PutU64(s.epoch, b1));
  }

  // ---- The run ----

  lemma OperationCreated(e: Enums, c: Id, op: Operation)
    requires op.id != 0 && op.generation != 0
    ensures Allowed(e, c, [OperationAdded(op)])
    ensures Running(e, c, [OperationAdded(op)]) == Process(WithOperation(c, op), None, NO_IDS)
  {
    hide SaveFile, LoadFile, DefaultPolicy;
    assert [OperationAdded(op)][..0] == [];
    assert StateAfter(Initial(c), OperationAdded(op)) == CreateOperation(Initial(c), op).0;
  }

  /**
   For every operation that is within the limits of the format and bound to a program whose id is not the length
   of its description: create it, save. The run is allowed, the save succeeds, and the file it leaves is not one
   that reads back as the saved state.
   */
  lemma SavedProgramIsLost(e: Enums, c: Id, op: Operation)
    requires op.id != 0 && op.generation != 0
    requires HeadOk(e, HeadOf(op)) && MiddleOk(e, MiddleOf(op)) && |op.description| <= MAX_BLOB
    requires Named(e.policyOutcome, UNCONSTRAINED) && op.program.Some? && op.programGeneration.Some?
    requires op.program.value != |op.description|
    ensures var run := [OperationAdded(op), Saved];
            var r := Running(e, c, run);
            && Allowed(e, c, run) && op.id in r.st.operations && r.st.operations[op.id] == op
            && r.file.Some? && ReadFile(e, r.file.value) != Ok(Project(r.st))
  {
    hide SaveFile, ReadFile, Project, Persistable, HeadOk, MiddleOk, DefaultPolicy, StateAfter;
    var run, s := [OperationAdded(op), Saved], WithOperation(c, op);
    assert run[..1] == [OperationAdded(op)];
    OperationCreated(e, c, op);
    SaveSucceeds(e, c, op);
    BoundProgramNotPersistable(e, s, op.id);
    LoadAfterSave(e, s);
  }
}
