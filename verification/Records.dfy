/**
 The durable printer and parser of each record. A record is `ok` when the parser gives it back: its
 enumeration codes are in their tables, its strings within the blob limit and its lists within the cap.
 */
module Records {
  import opened Types
  import opened Names
  import opened Codec

  const LIST_CAP: nat := 64

  // ---- Lists inside records ----

  function NameFormat(t: Table): Format<Code> {
    Format((c: Code, rest: bytes) => PutName(t, c, rest), (b: bytes) => GetName(t, b), (c: Code) => c < |t.names|)
  }

  const ID_FORMAT: Format<Id> := Format(PutU64, GetU64, (v: Id) => true)
  const TEXT_FORMAT: Format<bytes> := Format(PutBlob, GetBlob, TextOk)

  predicate TextOk(s: bytes) {
    |s| <= MAX_BLOB
  }

  predicate Named(t: Table, c: Code) {
    c < |t.names|
  }

  predicate NamesOk(t: Table, cs: seq<Code>) {
    |cs| <= LIST_CAP && forall c | c in cs :: Named(t, c)
  }

  function PutNames(t: Table, cs: seq<Code>, rest: bytes): (b: bytes)
    ensures NamesOk(t, cs) ==> GetNames(t, b) == Some((cs, rest))
  {
    ListRoundTrip(NameFormat(t), LIST_CAP, cs, rest);
    PutList(NameFormat(t), cs, rest)
  }

  function GetNames(t: Table, b: bytes): (r: Option<(seq<Code>, bytes)>)
    ensures r.Some? ==> NamesOk(t, r.value.0)
  {
    var (cs, rest) :- GetList(NameFormat(t), LIST_CAP, b);
    ListRange(NameFormat(t), LIST_CAP, b);
    Some((cs, rest))
  }

  function PutIds(ids: seq<Id>, rest: bytes): (b: bytes)
    ensures |ids| <= LIST_CAP ==> GetIds(b) == Some((ids, rest))
  {
    ListRoundTrip(ID_FORMAT, LIST_CAP, ids, rest);
    PutList(ID_FORMAT, ids, rest)
  }

  function GetIds(b: bytes): (r: Option<(seq<Id>, bytes)>)
    ensures r.Some? ==> |r.value.0| <= LIST_CAP
  {
    var (ids, rest) :- GetList(ID_FORMAT, LIST_CAP, b);
    ListRange(ID_FORMAT, LIST_CAP, b);
    Some((ids, rest))
  }

  predicate TextsOk(ts: seq<bytes>) {
    |ts| <= LIST_CAP && forall t | t in ts :: TextOk(t)
  }

  function PutTexts(ts: seq<bytes>, rest: bytes): (b: bytes)
    ensures TextsOk(ts) ==> GetTexts(b) == Some((ts, rest))
  {
    ListRoundTrip(TEXT_FORMAT, LIST_CAP, ts, rest);
    PutList(TEXT_FORMAT, ts, rest)
  }

  function GetTexts(b: bytes): (r: Option<(seq<bytes>, bytes)>)
    ensures r.Some? ==> TextsOk(r.value.0)
  {
    var (ts, rest) :- GetList(TEXT_FORMAT, LIST_CAP, b);
    ListRange(TEXT_FORMAT, LIST_CAP, b);
    Some((ts, rest))
  }

  // ---- Optional fields, shape and snapshot ----

  function PutOptional(v: Option<u64>, rest: bytes): (b: bytes)
    ensures GetOptional(b) == Some((v, rest))
  {
    PutBool(v.Some?, if v.Some? then PutU64(v.value, rest) else rest)
  }

  function GetOptional(b: bytes): Option<(Option<u64>, bytes)> {
    var (present, b) :- GetBool(b);
    if present then
      var (v, b) :- GetU64(b);
      Some((Some(v), b))
    else Some((None, b))
  }

  predicate ShapeOk(e: Enums, s: Shape) {
    Named(e.dataType, s.dataType) && Named(e.layout, s.layout)
  }

  function PutShape(e: Enums, s: Shape, rest: bytes): (b: bytes)
    ensures ShapeOk(e, s) ==> GetShape(e, b) == Some((s, rest))
  {
    PutName(e.dataType, s.dataType, PutName(e.layout, s.layout, PutU64(s.elementCount, PutU64(s.alignment, rest))))
  }

  function GetShape(e: Enums, b: bytes): (r: Option<(Shape, bytes)>)
    ensures r.Some? ==> ShapeOk(e, r.value.0)
  {
    var (dataType, b) :- GetName(e.dataType, b);
    var (layout, b) :- GetName(e.layout, b);
    var (count, b) :- GetU64(b);
    var (alignment, b) :- GetU64(b);
    Some((Shape(dataType, layout, count, alignment), b))
  }

  function PutSnapshot(s: Snapshot, rest: bytes): (b: bytes)
    ensures GetSnapshot(b) == Some((s, rest))
  {
    PutU64(s.epoch, PutU64(s.workerBoot, PutU64(s.target, PutU64(s.targetGeneration,
      PutU64(s.memoryDomainGeneration, PutU64(s.datasetGeneration, PutU64(s.regionGeneration,
      PutU64(s.operationGeneration, PutOptional(s.programGeneration, PutU64(s.capabilityGeneration,
      PutU64(s.policyGeneration, PutU64(s.evidenceGeneration, PutU64(s.planGeneration, rest)))))))))))))
  }

  function GetSnapshot(b: bytes): Option<(Snapshot, bytes)> {
    var (epoch, b) :- GetU64(b);
    var (boot, b) :- GetU64(b);
    var (target, b) :- GetU64(b);
    var (targetGen, b) :- GetU64(b);
    var (domainGen, b) :- GetU64(b);
    var (datasetGen, b) :- GetU64(b);
    var (regionGen, b) :- GetU64(b);
    var (operationGen, b) :- GetU64(b);
    var (programGen, b) :- GetOptional(b);
    var (capabilityGen, b) :- GetU64(b);
    var (policyGen, b) :- GetU64(b);
    var (evidenceGen, b) :- GetU64(b);
    var (planGen, b) :- GetU64(b);
    Some((Snapshot(epoch, boot, target, targetGen, domainGen, datasetGen, regionGen, operationGen,
                   programGen, capabilityGen, policyGen, evidenceGen, planGen), b))
  }

  // ---- Memory domains, datasets, regions ----

  predicate DomainOk(v: MemoryDomain) {
    TextOk(v.name)
  }

  function PutDomain(v: MemoryDomain, rest: bytes): (b: bytes)
    ensures DomainOk(v) ==> GetDomain(b) == Some((v, rest))
  {
    PutU64(v.id, PutU64(v.generation, PutBlob(v.name, PutBool(v.durable, rest))))
  }

  function GetDomain(b: bytes): (r: Option<(MemoryDomain, bytes)>)
    ensures r.Some? ==> DomainOk(r.value.0)
  {
    var (id, b) :- GetU64(b);
    var (generation, b) :- GetU64(b);
    var (name, b) :- GetBlob(b);
    var (durable, b) :- GetBool(b);
    Some((MemoryDomain(id, generation, name, durable), b))
  }

  predicate DatasetOk(v: Dataset) {
    TextOk(v.name) && TextOk(v.producer)
  }

  function PutDataset(v: Dataset, rest: bytes): (b: bytes)
    ensures DatasetOk(v) ==> GetDataset(b) == Some((v, rest))
  {
    PutU64(v.id, PutU64(v.generation, PutBlob(v.name, PutBlob(v.producer, PutBool(v.durable, rest)))))
  }

  function GetDataset(b: bytes): (r: Option<(Dataset, bytes)>)
    ensures r.Some? ==> DatasetOk(r.value.0)
  {
    var (id, b) :- GetU64(b);
    var (generation, b) :- GetU64(b);
    var (name, b) :- GetBlob(b);
    var (producer, b) :- GetBlob(b);
    var (durable, b) :- GetBool(b);
    Some((Dataset(id, generation, name, producer, durable), b))
  }

  predicate RegionOk(e: Enums, v: Region) {
    ShapeOk(e, v.shape) && Named(e.integrityState, v.integrity)
  }

  function PutRegion(e: Enums, v: Region, rest: bytes): (b: bytes)
    ensures RegionOk(e, v) ==> GetRegion(e, b) == Some((v, rest))
  {
    PutU64(v.id, PutU64(v.generation, PutU64(v.dataset, PutU64(v.datasetGeneration, PutU64(v.memoryDomain,
      PutU64(v.offset, PutU64(v.length, PutShape(e, v.shape,
      PutName(e.integrityState, v.integrity, PutBool(v.durable, rest))))))))))
  }

  function GetRegion(e: Enums, b: bytes): (r: Option<(Region, bytes)>)
    ensures r.Some? ==> RegionOk(e, r.value.0)
  {
    var (id, b) :- GetU64(b);
    var (generation, b) :- GetU64(b);
    var (dataset, b) :- GetU64(b);
    var (datasetGen, b) :- GetU64(b);
    var (domain, b) :- GetU64(b);
    var (offset, b) :- GetU64(b);
    var (length, b) :- GetU64(b);
    var (shape, b) :- GetShape(e, b);
    var (integrity, b) :- GetName(e.integrityState, b);
    var (durable, b) :- GetBool(b);
    Some((Region(id, generation, dataset, datasetGen, domain, offset, length, shape, integrity, durable), b))
  }

  // ---- Programs and policies ----

  predicate ProgramOk(e: Enums, v: Program) {
    && TextOk(v.name) && TextOk(v.digest)
    && Named(e.operationClass, v.opClass) && Named(e.targetKind, v.targetKind)
    && NamesOk(e.dataType, v.dataTypes) && NamesOk(e.layout, v.layouts)
    && Named(e.programLifecycle, v.lifecycle)
  }

  function PutProgram(e: Enums, v: Program, rest: bytes): (b: bytes)
    ensures ProgramOk(e, v) ==> GetProgram(e, b) == Some((v, rest))
  {
    PutU64(v.id, PutU64(v.generation, PutBlob(v.name, PutName(e.operationClass, v.opClass,
      PutName(e.targetKind, v.targetKind, PutBlob(v.digest, PutNames(e.dataType, v.dataTypes,
      PutNames(e.layout, v.layouts, PutU64(v.workspaceBytes, PutName(e.programLifecycle, v.lifecycle,
      PutBool(v.predefined, PutBool(v.validated, rest))))))))))))
  }

  function GetProgram(e: Enums, b: bytes): (r: Option<(Program, bytes)>)
    ensures r.Some? ==> ProgramOk(e, r.value.0)
  {
    var (id, b) :- GetU64(b);
    var (generation, b) :- GetU64(b);
    var (name, b) :- GetBlob(b);
    var (opClass, b) :- GetName(e.operationClass, b);
    var (kind, b) :- GetName(e.targetKind, b);
    var (digest, b) :- GetBlob(b);
    var (dataTypes, b) :- GetNames(e.dataType, b);
    var (layouts, b) :- GetNames(e.layout, b);
    var (workspace, b) :- GetU64(b);
    var (lifecycle, b) :- GetName(e.programLifecycle, b);
    var (predefined, b) :- GetBool(b);
    var (validated, b) :- GetBool(b);
    Some((Program(id, generation, name, opClass, kind, digest, dataTypes, layouts, workspace, lifecycle,
                  predefined, validated), b))
  }

  predicate PolicyOk(e: Enums, v: Policy) {
    TextOk(v.name) && Named(e.policyOutcome, v.outcome) && NamesOk(e.decision, v.permittedFallbacks)
  }

  function PutPolicy(e: Enums, v: Policy, rest: bytes): (b: bytes)
    ensures PolicyOk(e, v) ==> GetPolicy(e, b) == Some((v, rest))
  {
    PutU64(v.id, PutU64(v.generation, PutBlob(v.name, PutName(e.policyOutcome, v.outcome,
      PutNames(e.decision, v.permittedFallbacks, PutU64(v.requiredConfidence, PutU64(v.nearMemoryBias,
      PutBool(v.rejectOnStale, PutU64(v.maxNearMemoryInputBytes, PutBool(v.requireVerification, rest))))))))))
  }

  function GetPolicy(e: Enums, b: bytes): (r: Option<(Policy, bytes)>)
    ensures r.Some? ==> PolicyOk(e, r.value.0)
  {
    var (id, b) :- GetU64(b);
    var (generation, b) :- GetU64(b);
    var (name, b) :- GetBlob(b);
    var (outcome, b) :- GetName(e.policyOutcome, b);
    var (fallbacks, b) :- GetNames(e.decision, b);
    var (confidence, b) :- GetU64(b);
    var (bias, b) :- GetU64(b);
    var (rejectOnStale, b) :- GetBool(b);
    var (maxInput, b) :- GetU64(b);
    var (verify, b) :- GetBool(b);
    Some((Policy(id, generation, name, outcome, fallbacks, confidence, bias, rejectOnStale, maxInput, verify), b))
  }

  // ---- Operations ----

  /** Identity, class, data binding and shape. */
  datatype OperationHead = OperationHead(
    id: Id, generation: Gen, opClass: Code, dataset: Id, datasetGeneration: Gen,
    region: Id, regionGeneration: Gen, shape: Shape, inputBytes: u64, outputBytes: u64, workspaceBytes: u64)

  datatype OperationMiddle = OperationMiddle(
    outputDataType: Code, determinismRequired: bool, maxToleratedLatencyNs: u64, requiredThroughputBps: u64,
    integrity: Code, retryClass: Code, policy: Id, policyGeneration: Gen)

  datatype OperationTail = OperationTail(program: Option<Id>, programGeneration: Option<Gen>, description: bytes)

  function HeadOf(v: Operation): OperationHead {
    OperationHead(v.id, v.generation, v.opClass, v.dataset, v.datasetGeneration, v.region, v.regionGeneration,
                  v.shape, v.inputBytes, v.outputBytes, v.workspaceBytes)
  }

  function MiddleOf(v: Operation): OperationMiddle {
    OperationMiddle(v.outputDataType, v.determinismRequired, v.maxToleratedLatencyNs, v.requiredThroughputBps,
                    v.integrity, v.retryClass, v.policy, v.policyGeneration)
  }

  function TailOf(v: Operation): OperationTail {
    OperationTail(v.program, v.programGeneration, v.description)
  }

  function Assemble(h: OperationHead, m: OperationMiddle, t: OperationTail): Operation {
    Operation(h.id, h.generation, h.opClass, h.dataset, h.datasetGeneration, h.region, h.regionGeneration, h.shape,
              h.inputBytes, h.outputBytes, h.workspaceBytes, m.outputDataType, m.determinismRequired,
              m.maxToleratedLatencyNs, m.requiredThroughputBps, m.integrity, m.retryClass, m.policy,
              m.policyGeneration, t.program, t.programGeneration, t.description)
  }

  predicate HeadOk(e: Enums, h: OperationHead) {
    Named(e.operationClass, h.opClass) && ShapeOk(e, h.shape)
  }

  function PutHead(e: Enums, h: OperationHead, rest: bytes): (b: bytes)
    ensures HeadOk(e, h) ==> GetHead(e, b) == Some((h, rest))
    ensures GetU64(b).Some? && GetU64(b).value.0 == h.id
  {
    PutU64(h.id, PutU64(h.generation, PutName(e.operationClass, h.opClass, PutU64(h.dataset,
      PutU64(h.datasetGeneration, PutU64(h.region, PutU64(h.regionGeneration, PutShape(e, h.shape,
      PutU64(h.inputBytes, PutU64(h.outputBytes, PutU64(h.workspaceBytes, rest)))))))))))
  }

  function GetHead(e: Enums, b: bytes): (r: Option<(OperationHead, bytes)>)
    ensures r.Some? ==> HeadOk(e, r.value.0) && GetU64(b).Some? && r.value.0.id == GetU64(b).value.0
  {
    var (id, b) :- GetU64(b);
    var (generation, b) :- GetU64(b);
    var (opClass, b) :- GetName(e.operationClass, b);
    var (dataset, b) :- GetU64(b);
    var (datasetGen, b) :- GetU64(b);
    var (region, b) :- GetU64(b);
    var (regionGen, b) :- GetU64(b);
    var (shape, b) :- GetShape(e, b);
    var (input, b) :- GetU64(b);
    var (output, b) :- GetU64(b);
    var (workspace, b) :- GetU64(b);
    Some((OperationHead(id, generation, opClass, dataset, datasetGen, region, regionGen, shape,
                        input, output, workspace), b))
  }

  predicate MiddleOk(e: Enums, m: OperationMiddle) {
    && Named(e.dataType, m.outputDataType)
    && Named(e.integrityRequirement, m.integrity) && Named(e.retryClass, m.retryClass)
  }

  function PutMiddle(e: Enums, m: OperationMiddle, rest: bytes): (b: bytes)
    ensures MiddleOk(e, m) ==> GetMiddle(e, b) == Some((m, rest))
  {
    PutName(e.dataType, m.outputDataType, PutBool(m.determinismRequired, PutU64(m.maxToleratedLatencyNs,
      PutU64(m.requiredThroughputBps, PutName(e.integrityRequirement, m.integrity,
      PutName(e.retryClass, m.retryClass, PutU64(m.policy, PutU64(m.policyGeneration, rest))))))))
  }

  function GetMiddle(e: Enums, b: bytes): (r: Option<(OperationMiddle, bytes)>)
    ensures r.Some? ==> MiddleOk(e, r.value.0)
  {
    var (dataType, b) :- GetName(e.dataType, b);
    var (determinism, b) :- GetBool(b);
    var (latency, b) :- GetU64(b);
    var (throughput, b) :- GetU64(b);
    var (integrity, b) :- GetName(e.integrityRequirement, b);
    var (retry, b) :- GetName(e.retryClass, b);
    var (policy, b) :- GetU64(b);
    var (policyGen, b) :- GetU64(b);
    Some((OperationMiddle(dataType, determinism, latency, throughput, integrity, retry, policy, policyGen), b))
  }

  /** The writer puts a bound program before the description ... */
  function PutTail(t: OperationTail, rest: bytes): bytes {
    PutBool(t.program.Some?,
      if t.program.Some?
      then PutU64(t.program.value, PutU64(t.programGeneration.GetOr(0), PutBlob(t.description, rest)))
      else PutBlob(t.description, rest))
  }

  /** ... and the reader takes the description first. */
  function GetTail(b: bytes): Option<(OperationTail, bytes)> {
    var (bound, b) :- GetBool(b);
    var (description, b) :- GetBlob(b);
    if bound then
      var (program, b) :- GetU64(b);
      var (generation, b) :- GetU64(b);
      Some((OperationTail(Some(program), Some(generation), description), b))
    else Some((OperationTail(None, None, description), b))
  }

  /**
   When the misplaced fields read back as themselves: the program id, taken for a length, is the length
   of the description, and the bytes are the same with the fields on either side of it.
   */
  predicate SelfReading(program: Id, generation: Gen, description: bytes) {
    && |description| <= MAX_BLOB
    && program == |description|
    && Little(generation, 8) + Little(program, 8) + description
       == description + Little(program, 8) + Little(generation, 8)
  }

  predicate TailOk(t: OperationTail) {
    if t.program.None? then t.programGeneration.None? && TextOk(t.description)
    else t.programGeneration.Some? && SelfReading(t.program.value, t.programGeneration.value, t.description)
  }

  lemma BoundTailLayout(program: Id, generation: Gen, description: bytes, rest: bytes)
    requires program == |description| && |description| <= MAX_BLOB
    ensures var b := PutU64(program, PutU64(generation, PutBlob(description, rest)));
            var all := Little(generation, 8) + Little(program, 8) + description + rest;
            && GetBlob(b) == Some((all[..program], all[program..]))
            && |all| == program + 16 + |rest| && all[program + 16..] == rest
  {
    var blob := PutBlob(description, rest);
    assert blob == Little(program, 8) + (description + rest);
    var tail := PutU64(generation, blob);
    var all := Little(generation, 8) + Little(program, 8) + description + rest;
    assert tail == all;
  }

  /** Equal descriptions force the program id to have been read as the description's length. */
  lemma BoundTailExact(program: Id, generation: Gen, description: bytes, rest: bytes)
    ensures var b := PutTail(OperationTail(Some(program), Some(generation), description), rest);
            var same := OperationTail(Some(program), Some(generation), description);
            && (SelfReading(program, generation, description) ==> GetTail(b) == Some((same, rest)))
            && (GetTail(b).Some? && GetTail(b).value.0 == same ==> SelfReading(program, generation, description))
  {
    var t := OperationTail(Some(program), Some(generation), description);
    var b := PutU64(program, PutU64(generation, PutBlob(description, rest)));
    assert GetBool(PutTail(t, rest)) == Some((true, b));
    if program == |description| && |description| <= MAX_BLOB {
      BoundTailLayout(program, generation, description, rest);
      var all := Little(generation, 8) + Little(program, 8) + description + rest;
      var after := all[program..];
      if SelfReading(program, generation, description) {
        assert all == description + Little(program, 8) + Little(generation, 8) + rest;
        assert all[..program] == description;
        assert after == PutU64(program, PutU64(generation, rest));
      } else if GetTail(PutTail(t, rest)).Some? && GetTail(PutTail(t, rest)).value.0 == t {
        assert all[program + 8..] == after[8..];
        BoundTailConverse(program, generation, description, rest, all);
        assert false;
      }
    } else if GetBlob(b).Some? {
      assert |GetBlob(b).value.0| == program;
    }
  }

  lemma BoundTailConverse(program: Id, generation: Gen, description: bytes, rest: bytes, all: bytes)
    requires program == |description| && |description| <= MAX_BLOB
    requires all == Little(generation, 8) + Little(program, 8) + description + rest
    requires all[..program] == description
    requires GetU64(all[program..]).Some? && GetU64(all[program..]).value.0 == program
    requires GetU64(all[program + 8..]).Some? && GetU64(all[program + 8..]).value.0 == generation
    ensures SelfReading(program, generation, description)
  {
    var s := Little(generation, 8) + Little(program, 8) + description;
    ParsedIsPrinted(all[program..]);
    ParsedIsPrinted(all[program + 8..]);
    Slices(all, s, rest, description, Little(program, 8), Little(generation, 8));
  }

  lemma Slices(all: bytes, s: bytes, rest: bytes, d: bytes, x: bytes, y: bytes)
    requires all == s + rest && |s| == |d| + 16 && |x| == |y| == 8
    requires all[..|d|] == d
    requires x <= all[|d|..] && y <= all[|d| + 8..]
    ensures s == d + x + y
  {
    forall i | 0 <= i < |s| ensures s[i] == (d + x + y)[i] {
      if i < |d| {
        assert all[..|d|][i] == s[i];
      } else if i < |d| + 8 {
        assert all[|d|..][i - |d|] == s[i];
      } else {
        assert all[|d| + 8..][i - |d| - 8] == s[i];
      }
    }
  }

  /** The tail comes back exactly when it is `TailOk`. */
  lemma TailExact(t: OperationTail, rest: bytes)
    ensures TailOk(t) ==> GetTail(PutTail(t, rest)) == Some((t, rest))
    ensures GetTail(PutTail(t, rest)).Some? && GetTail(PutTail(t, rest)).value.0 == t ==> TailOk(t)
  {
    if t.program.Some? && t.programGeneration.Some? {
      BoundTailExact(t.program.value, t.programGeneration.value, t.description, rest);
    } else if t.program.None? {
      assert GetBool(PutTail(t, rest)) == Some((false, PutBlob(t.description, rest)));
    }
  }

  predicate OperationOk(e: Enums, v: Operation) {
    HeadOk(e, HeadOf(v)) && MiddleOk(e, MiddleOf(v)) && TailOk(TailOf(v))
  }

  function PutOperation(e: Enums, v: Operation, rest: bytes): bytes {
    PutHead(e, HeadOf(v), PutMiddle(e, MiddleOf(v), PutTail(TailOf(v), rest)))
  }

  function GetOperation(e: Enums, b: bytes): Option<(Operation, bytes)> {
    var (head, b) :- GetHead(e, b);
    var (middle, b) :- GetMiddle(e, b);
    var (tail, b) :- GetTail(b);
    Some((Assemble(head, middle, tail), b))
  }

  lemma OperationReturns(e: Enums, v: Operation, rest: bytes)
    requires OperationOk(e, v)
    ensures GetOperation(e, PutOperation(e, v, rest)) == Some((v, rest))
  {
    var tail := PutTail(TailOf(v), rest);
    var middle := PutMiddle(e, MiddleOf(v), tail);
    TailExact(TailOf(v), rest);
    assert GetHead(e, PutHead(e, HeadOf(v), middle)) == Some((HeadOf(v), middle));
    assert GetMiddle(e, middle) == Some((MiddleOf(v), tail));
    assert GetTail(tail) == Some((TailOf(v), rest));
  }

  /**
   The identity is the first field, so it survives even where the rest of the record does not; and a
   record that comes back equal was `OperationOk`. A bound program almost never is.
   */
  lemma OperationForced(e: Enums, v: Operation, rest: bytes)
    requires GetOperation(e, PutOperation(e, v, rest)).Some?
    ensures GetOperation(e, PutOperation(e, v, rest)).value.0.id == v.id
    ensures GetOperation(e, PutOperation(e, v, rest)).value.0 == v ==> OperationOk(e, v)
  {
    var tail := PutTail(TailOf(v), rest);
    var middle := PutMiddle(e, MiddleOf(v), tail);
    var whole := PutHead(e, HeadOf(v), middle);
    var (head, b1) := GetHead(e, whole).value;
    var (mid, b2) := GetMiddle(e, b1).value;
    var (end, b3) := GetTail(b2).value;
    assert GetOperation(e, whole).value.0 == Assemble(head, mid, end);
    if Assemble(head, mid, end) == v {
      assert head == HeadOf(v) && b1 == middle;
      assert mid == MiddleOf(v) && b2 == tail;
      assert end == TailOf(v);
      TailExact(TailOf(v), rest);
    }
  }

  // ---- Targets ----

  /** Identity and supported kinds. */
  datatype TargetFront = TargetFront(
    id: Id, generation: Gen, provider: Code, kind: Code, name: bytes, description: bytes, failureDomain: Id,
    memoryDomains: seq<Id>, supportedOps: seq<Code>, supportedDataTypes: seq<Code>, supportedLayouts: seq<Code>)

  function FrontOf(v: Target): TargetFront {
    TargetFront(v.id, v.generation, v.provider, v.kind, v.name, v.description, v.failureDomain,
                v.memoryDomains, v.supportedOps, v.supportedDataTypes, v.supportedLayouts)
  }

  predicate FrontOk(e: Enums, f: TargetFront) {
    && Named(e.providerKind, f.provider) && Named(e.targetKind, f.kind)
    && TextOk(f.name) && TextOk(f.description)
    && |f.memoryDomains| <= LIST_CAP && NamesOk(e.operationClass, f.supportedOps)
    && NamesOk(e.dataType, f.supportedDataTypes) && NamesOk(e.layout, f.supportedLayouts)
  }

  function PutFront(e: Enums, f: TargetFront, rest: bytes): (b: bytes)
    ensures FrontOk(e, f) ==> GetFront(e, b) == Some((f, rest))
  {
    PutU64(f.id, PutU64(f.generation, PutName(e.providerKind, f.provider, PutName(e.targetKind, f.kind,
      PutBlob(f.name, PutBlob(f.description, PutU64(f.failureDomain, PutIds(f.memoryDomains,
      PutNames(e.operationClass, f.supportedOps, PutNames(e.dataType, f.supportedDataTypes,
      PutNames(e.layout, f.supportedLayouts, rest)))))))))))
  }

  function GetFront(e: Enums, b: bytes): (r: Option<(TargetFront, bytes)>)
    ensures r.Some? ==> FrontOk(e, r.value.0)
  {
    var (id, b) :- GetU64(b);
    var (generation, b) :- GetU64(b);
    var (provider, b) :- GetName(e.providerKind, b);
    var (kind, b) :- GetName(e.targetKind, b);
    var (name, b) :- GetBlob(b);
    var (description, b) :- GetBlob(b);
    var (failureDomain, b) :- GetU64(b);
    var (domains, b) :- GetIds(b);
    var (ops, b) :- GetNames(e.operationClass, b);
    var (dataTypes, b) :- GetNames(e.dataType, b);
    var (layouts, b) :- GetNames(e.layout, b);
    Some((TargetFront(id, generation, provider, kind, name, description, failureDomain, domains,
                      ops, dataTypes, layouts), b))
  }

  datatype TargetLimits = TargetLimits(
    maxInputBytes: u64, alignmentConstraint: u64, concurrencyCapacity: u32, queueDepth: u64, workspaceBytes: u64,
    accessSemantics: Code, requiresStaging: bool, synthetic: bool, supportsVerification: bool,
    supportsCancellation: bool, supportsDrain: bool, authorityOwner: bytes)

  function LimitsOf(v: Target): TargetLimits {
    TargetLimits(v.maxInputBytes, v.alignmentConstraint, v.concurrencyCapacity, v.queueDepth, v.workspaceBytes,
                 v.accessSemantics, v.requiresStaging, v.synthetic, v.supportsVerification,
                 v.supportsCancellation, v.supportsDrain, v.authorityOwner)
  }

  predicate LimitsOk(e: Enums, l: TargetLimits) {
    Named(e.accessSemantics, l.accessSemantics) && TextOk(l.authorityOwner)
  }

  function PutLimits(e: Enums, l: TargetLimits, rest: bytes): (b: bytes)
    ensures LimitsOk(e, l) ==> GetLimits(e, b) == Some((l, rest))
  {
    PutU64(l.maxInputBytes, PutU64(l.alignmentConstraint, PutU32(l.concurrencyCapacity, PutU64(l.queueDepth,
      PutU64(l.workspaceBytes, PutName(e.accessSemantics, l.accessSemantics, PutBool(l.requiresStaging,
      PutBool(l.synthetic, PutBool(l.supportsVerification, PutBool(l.supportsCancellation,
      PutBool(l.supportsDrain, PutBlob(l.authorityOwner, rest))))))))))))
  }

  function GetLimits(e: Enums, b: bytes): (r: Option<(TargetLimits, bytes)>)
    ensures r.Some? ==> LimitsOk(e, r.value.0)
  {
    var (maxInput, b) :- GetU64(b);
    var (alignment, b) :- GetU64(b);
    var (concurrency, b) :- GetU32(b);
    var (queueDepth, b) :- GetU64(b);
    var (workspace, b) :- GetU64(b);
    var (access, b) :- GetName(e.accessSemantics, b);
    var (staging, b) :- GetBool(b);
    var (synthetic, b) :- GetBool(b);
    var (verification, b) :- GetBool(b);
    var (cancellation, b) :- GetBool(b);
    var (drain, b) :- GetBool(b);
    var (owner, b) :- GetBlob(b);
    Some((TargetLimits(maxInput, alignment, concurrency, queueDepth, workspace, access, staging, synthetic,
                       verification, cancellation, drain, owner), b))
  }

  function AssembleTarget(f: TargetFront, l: TargetLimits): Target {
    Target(f.id, f.generation, f.provider, f.kind, f.name, f.description, f.failureDomain, f.memoryDomains,
           f.supportedOps, f.supportedDataTypes, f.supportedLayouts, l.maxInputBytes, l.alignmentConstraint,
           l.concurrencyCapacity, l.queueDepth, l.workspaceBytes, l.accessSemantics, l.requiresStaging,
           l.synthetic, l.supportsVerification, l.supportsCancellation, l.supportsDrain, l.authorityOwner)
  }

  predicate TargetOk(e: Enums, v: Target) {
    FrontOk(e, FrontOf(v)) && LimitsOk(e, LimitsOf(v))
  }

  function PutTarget(e: Enums, v: Target, rest: bytes): (b: bytes)
    ensures TargetOk(e, v) ==> GetTarget(e, b) == Some((v, rest))
  {
    PutFront(e, FrontOf(v), PutLimits(e, LimitsOf(v), rest))
  }

  function GetTarget(e: Enums, b: bytes): (r: Option<(Target, bytes)>)
    ensures r.Some? ==> TargetOk(e, r.value.0)
  {
    var (front, b) :- GetFront(e, b);
    var (limits, b) :- GetLimits(e, b);
    Some((AssembleTarget(front, limits), b))
  }

  // ---- Plans ----

  function LifecycleCode(l: Lifecycle): Code {
    match l
    case PLANNED => 0 case RESERVED => 1 case DISPATCHED => 2 case RUNNING => 3 case VERIFYING => 4
    case COMPLETED => 5 case COMMITTED => 6 case FAILED => 7 case OUTCOME_UNKNOWN => 8
    case CANCELLED => 9 case FENCED => 10 case SUPERSEDED => 11
  }

  const LIFECYCLES: seq<Lifecycle> := [
    PLANNED, RESERVED, DISPATCHED, RUNNING, VERIFYING, COMPLETED,
    COMMITTED, FAILED, OUTCOME_UNKNOWN, CANCELLED, FENCED, SUPERSEDED]

  function PutLifecycle(e: Enums, l: Lifecycle, rest: bytes): (b: bytes)
    ensures Named(e.lifecycle, LifecycleCode(l)) ==> GetLifecycle(e, b) == Some((l, rest))
  {
    assert LIFECYCLES[LifecycleCode(l)] == l;
    PutName(e.lifecycle, LifecycleCode(l), rest)
  }

  function GetLifecycle(e: Enums, b: bytes): (r: Option<(Lifecycle, bytes)>)
    ensures r.Some? ==> Named(e.lifecycle, LifecycleCode(r.value.0))
  {
    var (c, b) :- GetName(e.lifecycle, b);
    if c < 12 then Some((LIFECYCLES[c], b)) else None
  }

  /** Identity, pinned authority and bindings. */
  datatype PlanFront = PlanFront(
    id: Id, generation: Gen, snapshot: Snapshot, target: Id, targetGeneration: Gen, operation: Id, opClass: Code,
    dataset: Id, datasetGeneration: Gen, region: Id, regionGeneration: Gen)

  datatype PlanBack = PlanBack(
    lifecycle: Lifecycle, reservedSlots: u64, reservedWorkspace: u64, dispatchId: Option<Id>, attemptId: Option<Id>,
    retryClass: Code, decision: Code, notes: seq<bytes>)

  function PlanFrontOf(v: Plan): PlanFront {
    PlanFront(v.id, v.generation, v.authority.snapshot, v.target, v.targetGeneration, v.operation, v.opClass,
              v.dataset, v.datasetGeneration, v.region, v.regionGeneration)
  }

  function PlanBackOf(v: Plan): PlanBack {
    PlanBack(v.lifecycle, v.reservedSlots, v.reservedWorkspace, v.dispatchId, v.attemptId,
             v.retryClass, v.decision, v.notes)
  }

  /** The reader rebuilds the authority record from the plan's own identity. */
  function AssemblePlan(f: PlanFront, k: PlanBack): Plan {
    Plan(f.id, f.generation, Authority(f.snapshot, f.id, f.generation), f.target, f.targetGeneration, f.operation,
         f.opClass, f.dataset, f.datasetGeneration, f.region, f.regionGeneration, k.lifecycle, k.reservedSlots,
         k.reservedWorkspace, k.dispatchId, k.attemptId, k.retryClass, k.decision, k.notes)
  }

  predicate PlanFrontOk(e: Enums, f: PlanFront) {
    Named(e.operationClass, f.opClass)
  }

  predicate PlanBackOk(e: Enums, k: PlanBack) {
    && Named(e.lifecycle, LifecycleCode(k.lifecycle)) && Named(e.retryClass, k.retryClass)
    && Named(e.decision, k.decision) && TextsOk(k.notes)
  }

  predicate PlanOk(e: Enums, v: Plan) {
    && PlanFrontOk(e, PlanFrontOf(v)) && PlanBackOk(e, PlanBackOf(v))
    && v.authority.plan == v.id && v.authority.planGeneration == v.generation
  }

  function PutPlanFront(e: Enums, f: PlanFront, rest: bytes): (b: bytes)
    ensures PlanFrontOk(e, f) ==> GetPlanFront(e, b) == Some((f, rest))
  {
    PutU64(f.id, PutU64(f.generation, PutSnapshot(f.snapshot, PutU64(f.target, PutU64(f.targetGeneration,
      PutU64(f.operation, PutName(e.operationClass, f.opClass, PutU64(f.dataset, PutU64(f.datasetGeneration,
      PutU64(f.region, PutU64(f.regionGeneration, rest)))))))))))
  }

  function GetPlanFront(e: Enums, b: bytes): (r: Option<(PlanFront, bytes)>)
    ensures r.Some? ==> PlanFrontOk(e, r.value.0)
  {
    var (id, b) :- GetU64(b);
    var (generation, b) :- GetU64(b);
    var (snapshot, b) :- GetSnapshot(b);
    var (target, b) :- GetU64(b);
    var (targetGen, b) :- GetU64(b);
    var (operation, b) :- GetU64(b);
    var (opClass, b) :- GetName(e.operationClass, b);
    var (dataset, b) :- GetU64(b);
    var (datasetGen, b) :- GetU64(b);
    var (region, b) :- GetU64(b);
    var (regionGen, b) :- GetU64(b);
    Some((PlanFront(id, generation, snapshot, target, targetGen, operation, opClass, dataset, datasetGen,
                    region, regionGen), b))
  }

  function PutPlanBack(e: Enums, k: PlanBack, rest: bytes): (b: bytes)
    ensures PlanBackOk(e, k) ==> GetPlanBack(e, b) == Some((k, rest))
  {
    PutLifecycle(e, k.lifecycle, PutU64(k.reservedSlots, PutU64(k.reservedWorkspace, PutOptional(k.dispatchId,
      PutOptional(k.attemptId, PutName(e.retryClass, k.retryClass, PutName(e.decision, k.decision,
      PutTexts(k.notes, rest))))))))
  }

  function GetPlanBack(e: Enums, b: bytes): (r: Option<(PlanBack, bytes)>)
    ensures r.Some? ==> PlanBackOk(e, r.value.0)
  {
    var (lifecycle, b) :- GetLifecycle(e, b);
    var (slots, b) :- GetU64(b);
    var (workspace, b) :- GetU64(b);
    var (dispatch, b) :- GetOptional(b);
    var (attempt, b) :- GetOptional(b);
    var (retry, b) :- GetName(e.retryClass, b);
    var (decision, b) :- GetName(e.decision, b);
    var (notes, b) :- GetTexts(b);
    Some((PlanBack(lifecycle, slots, workspace, dispatch, attempt, retry, decision, notes), b))
  }

  function PutPlan(e: Enums, v: Plan, rest: bytes): (b: bytes)
    ensures PlanOk(e, v) ==> GetPlan(e, b) == Some((v, rest))
  {
    PutPlanFront(e, PlanFrontOf(v), PutPlanBack(e, PlanBackOf(v), rest))
  }

  function GetPlan(e: Enums, b: bytes): (r: Option<(Plan, bytes)>)
    ensures r.Some? ==> PlanOk(e, r.value.0)
  {
    var (front, b) :- GetPlanFront(e, b);
    var (back, b) :- GetPlanBack(e, b);
    Some((AssemblePlan(front, back), b))
  }

  // ---- Results ----

  predicate ResultOk(e: Enums, v: ExecResult) {
    Named(e.verifyState, v.verification) && TextOk(v.outputDigest) && TextOk(v.note)
  }

  function PutResult(e: Enums, v: ExecResult, rest: bytes): (b: bytes)
    ensures ResultOk(e, v) ==> GetResult(e, b) == Some((v, rest))
  {
    PutU64(v.id, PutU64(v.generation, PutU64(v.plan, PutU64(v.planGeneration, PutU64(v.dispatch,
      PutU64(v.attempt, PutU64(v.target, PutU64(v.targetGeneration, PutU64(v.workerBoot, PutU64(v.epoch,
      PutU64(v.datasetGeneration, PutU64(v.regionGeneration, PutU64(v.operationGeneration,
      PutName(e.verifyState, v.verification, PutBlob(v.outputDigest, PutU64(v.outputBytes,
      PutBool(v.committed, PutBool(v.ambiguous, PutBlob(v.note, rest)))))))))))))))))))
  }

  function GetResult(e: Enums, b: bytes): (r: Option<(ExecResult, bytes)>)
    ensures r.Some? ==> ResultOk(e, r.value.0)
  {
    var (id, b) :- GetU64(b);
    var (generation, b) :- GetU64(b);
    var (plan, b) :- GetU64(b);
    var (planGen, b) :- GetU64(b);
    var (dispatch, b) :- GetU64(b);
    var (attempt, b) :- GetU64(b);
    var (target, b) :- GetU64(b);
    var (targetGen, b) :- GetU64(b);
    var (boot, b) :- GetU64(b);
    var (epoch, b) :- GetU64(b);
    var (datasetGen, b) :- GetU64(b);
    var (regionGen, b) :- GetU64(b);
    var (operationGen, b) :- GetU64(b);
    var (verification, b) :- GetName(e.verifyState, b);
    var (digest, b) :- GetBlob(b);
    var (output, b) :- GetU64(b);
    var (committed, b) :- GetBool(b);
    var (ambiguous, b) :- GetBool(b);
    var (note, b) :- GetBlob(b);
    Some((ExecResult(id, generation, plan, planGen, dispatch, attempt, target, targetGen, boot, epoch, datasetGen,
                     regionGen, operationGen, verification, digest, output, committed, ambiguous, note), b))
  }
}
