/**
 The wire messages: every encoder with its decoder. A message comes back from its own encoding, whatever follows
 it, exactly when its lists are within the decoder's caps and its strings within the blob limit. Enumeration codes
 travel as raw 16-bit values and are not checked on arrival.
 */
module Wire {
  import opened Types
  import opened Codec

  const OPS_CAP: nat := 64
  const ENTRIES_CAP: nat := 1024

  // ---- Runs of fixed-width fields ----

  const WORD: Format<u64> := Format(PutU64, GetU64, (v: u64) => true)
  const CODE: Format<Code> := Format(PutU16, GetU16, (v: Code) => true)
  const FLAG: Format<bool> := Format(PutBool, GetBool, (v: bool) => true)

  function PutWords(ws: seq<u64>, rest: bytes): (b: bytes)
    ensures GetWords(|ws|, b) == Some((ws, rest))
  {
    AllRoundTrip(WORD, ws, rest);
    PutAll(WORD, ws, rest)
  }

  function GetWords(n: nat, b: bytes): (r: Option<(seq<u64>, bytes)>)
    ensures r.Some? ==> |r.value.0| == n
  {
    GetAll(WORD, n, b)
  }

  function PutCodes(cs: seq<Code>, rest: bytes): (b: bytes)
    ensures GetCodes(|cs|, b) == Some((cs, rest))
  {
    AllRoundTrip(CODE, cs, rest);
    PutAll(CODE, cs, rest)
  }

  function GetCodes(n: nat, b: bytes): (r: Option<(seq<Code>, bytes)>)
    ensures r.Some? ==> |r.value.0| == n
  {
    GetAll(CODE, n, b)
  }

  function PutFlags(fs: seq<bool>, rest: bytes): (b: bytes)
    ensures GetFlags(|fs|, b) == Some((fs, rest))
  {
    AllRoundTrip(FLAG, fs, rest);
    PutAll(FLAG, fs, rest)
  }

  function GetFlags(n: nat, b: bytes): (r: Option<(seq<bool>, bytes)>)
    ensures r.Some? ==> |r.value.0| == n
  {
    GetAll(FLAG, n, b)
  }

  predicate Short(s: bytes) {
    |s| <= MAX_BLOB
  }

  /** A list of codes: all are written, at most 64 are read. */
  function PutCodeList(cs: seq<Code>, rest: bytes): (b: bytes)
    ensures |cs| <= OPS_CAP ==> GetCodeList(b) == Some((cs, rest))
  {
    ListRoundTrip(CODE, OPS_CAP, cs, rest);
    PutList(CODE, cs, rest)
  }

  function GetCodeList(b: bytes): (r: Option<(seq<Code>, bytes)>)
    ensures r.Some? ==> |r.value.0| <= OPS_CAP
  {
    GetList(CODE, OPS_CAP, b)
  }

  // ---- Worker messages ----

  function PutHello(m: HelloMsg, rest: bytes): (b: bytes)
    ensures GetHello(b) == Some((m, rest)) <==> Short(m.name)
  {
    PutWords([m.worker, m.boot], PutBlob(m.name, rest))
  }

  function GetHello(b: bytes): (r: Option<(HelloMsg, bytes)>)
    ensures r.Some? ==> Short(r.value.0.name)
  {
    var (ws, b) :- GetWords(2, b);
    var (name, b) :- GetBlob(b);
    Some((HelloMsg(ws[0], ws[1], name), b))
  }

  predicate RegistrationOk(m: RegisterTargetMsg) {
    Short(m.name) && |m.ops| <= OPS_CAP && |m.dataTypes| <= OPS_CAP && |m.layouts| <= OPS_CAP
  }

  /** The capacities that close a registration. */
  function PutLimits(m: RegisterTargetMsg, rest: bytes): (b: bytes)
    ensures GetLimits(b) == Some(((m.maxInputBytes, m.alignment, m.concurrency, m.workspace, m.ownerBoot), rest))
  {
    PutWords([m.maxInputBytes, m.alignment], PutU32(m.concurrency, PutWords([m.workspace, m.ownerBoot], rest)))
  }

  function GetLimits(b: bytes): Option<((u64, u64, u32, u64, Id), bytes)> {
    var (first, b) :- GetWords(2, b);
    var (concurrency, b) :- GetU32(b);
    var (last, b) :- GetWords(2, b);
    Some(((first[0], first[1], concurrency, last[0], last[1]), b))
  }

  function PutSupport(m: RegisterTargetMsg, rest: bytes): (b: bytes)
    ensures |m.ops| <= OPS_CAP && |m.dataTypes| <= OPS_CAP && |m.layouts| <= OPS_CAP ==>
              GetSupport(b) == Some(((m.ops, m.dataTypes, m.layouts), rest))
  {
    PutCodeList(m.ops, PutCodeList(m.dataTypes, PutCodeList(m.layouts, rest)))
  }

  function GetSupport(b: bytes): (r: Option<((seq<Code>, seq<Code>, seq<Code>), bytes)>)
    ensures r.Some? ==> |r.value.0.0| <= OPS_CAP && |r.value.0.1| <= OPS_CAP && |r.value.0.2| <= OPS_CAP
  {
    var (ops, b) :- GetCodeList(b);
    var (dataTypes, b) :- GetCodeList(b);
    var (layouts, b) :- GetCodeList(b);
    Some(((ops, dataTypes, layouts), b))
  }

  function PutRegistration(m: RegisterTargetMsg, rest: bytes): (b: bytes)
    ensures GetRegistration(b) == Some((m, rest)) <==> RegistrationOk(m)
  {
    PutWords([m.target, m.generation], PutCodes([m.provider, m.kind],
      PutBool(m.synthetic, PutBlob(m.name, PutSupport(m, PutLimits(m, rest))))))
  }

  function GetRegistration(b: bytes): (r: Option<(RegisterTargetMsg, bytes)>)
    ensures r.Some? ==> RegistrationOk(r.value.0)
  {
    var (ids, b) :- GetWords(2, b);
    var (kinds, b) :- GetCodes(2, b);
    var (synthetic, b) :- GetBool(b);
    var (name, b) :- GetBlob(b);
    var ((ops, dataTypes, layouts), b) :- GetSupport(b);
    var ((maxInput, alignment, concurrency, workspace, owner), b) :- GetLimits(b);
    Some((RegisterTargetMsg(ids[0], ids[1], kinds[0], kinds[1], synthetic, name, ops, dataTypes, layouts,
                            maxInput, alignment, concurrency, workspace, owner), b))
  }

  predicate EntryOk(e: CapabilityEntry) {
    Short(e.key)
  }

  function PutEntry(e: CapabilityEntry, rest: bytes): (b: bytes)
    ensures EntryOk(e) ==> GetEntry(b) == Some((e, rest))
  {
    PutBlob(e.key, PutU16(e.state, rest))
  }

  function GetEntry(b: bytes): (r: Option<(CapabilityEntry, bytes)>)
    ensures r.Some? ==> EntryOk(r.value.0)
  {
    var (key, b) :- GetBlob(b);
    var (state, b) :- GetU16(b);
    Some((CapabilityEntry(key, state), b))
  }

  const ENTRY: Format<CapabilityEntry> := Format(PutEntry, GetEntry, EntryOk)

  predicate CapabilityOk(m: CapabilityMsg) {
    |m.entries| <= ENTRIES_CAP && forall e | e in m.entries :: EntryOk(e)
  }

  function PutEntries(m: CapabilityMsg, rest: bytes): (b: bytes)
    ensures CapabilityOk(m) ==> GetEntries(b) == Some((m.entries, rest))
  {
    ListRoundTrip(ENTRY, ENTRIES_CAP, m.entries, rest);
    PutList(ENTRY, m.entries, rest)
  }

  function GetEntries(b: bytes): (r: Option<(seq<CapabilityEntry>, bytes)>)
    ensures r.Some? ==> |r.value.0| <= ENTRIES_CAP && forall e | e in r.value.0 :: EntryOk(e)
  {
    var (entries, rest) :- GetList(ENTRY, ENTRIES_CAP, b);
    ListRange(ENTRY, ENTRIES_CAP, b);
    Some((entries, rest))
  }

  function PutCapability(m: CapabilityMsg, rest: bytes): (b: bytes)
    ensures GetCapability(b) == Some((m, rest)) <==> CapabilityOk(m)
  {
    PutWords([m.target, m.generation], PutEntries(m, PutWords([m.evidenceGeneration, m.publisher], rest)))
  }

  function GetCapability(b: bytes): (r: Option<(CapabilityMsg, bytes)>)
    ensures r.Some? ==> CapabilityOk(r.value.0)
  {
    var (ids, b) :- GetWords(2, b);
    var (entries, b) :- GetEntries(b);
    var (last, b) :- GetWords(2, b);
    Some((CapabilityMsg(ids[0], ids[1], entries, last[0], last[1]), b))
  }

  function PutEvidence(m: EvidenceMsg, rest: bytes): (b: bytes)
    ensures GetEvidence(b) == Some((m, rest))
  {
    PutWords([m.region, m.regionGeneration, m.dataset, m.datasetGeneration, m.memoryDomain, m.memoryDomainGeneration],
      PutFlags([m.present, m.current, m.reachable], PutU64(m.publisher, rest)))
  }

  function GetEvidence(b: bytes): Option<(EvidenceMsg, bytes)> {
    var (ws, b) :- GetWords(6, b);
    var (fs, b) :- GetFlags(3, b);
    var (publisher, b) :- GetU64(b);
    Some((EvidenceMsg(ws[0], ws[1], ws[2], ws[3], ws[4], ws[5], fs[0], fs[1], fs[2], publisher), b))
  }

  /** The confidence travels as the eight bytes of its bit pattern. */
  function PutHeartbeat(m: HeartbeatMsg, rest: bytes): (b: bytes)
    ensures GetHeartbeat(b) == Some((m, rest))
  {
    PutU64(m.target, PutU16(m.lifecycle, PutBool(m.reachable,
      PutWords([m.queueDepth, m.latencyNs, m.throughputBps, m.confidence], rest))))
  }

  function GetHeartbeat(b: bytes): Option<(HeartbeatMsg, bytes)> {
    var (target, b) :- GetU64(b);
    var (lifecycle, b) :- GetU16(b);
    var (reachable, b) :- GetBool(b);
    var (ws, b) :- GetWords(4, b);
    Some((HeartbeatMsg(target, lifecycle, reachable, ws[0], ws[1], ws[2], ws[3]), b))
  }

  // ---- Dispatch and result ----

  function PutOptional(v: Option<u64>, rest: bytes): (b: bytes)
    ensures GetOptional(b) == Some((v, rest))
  {
    if v.Some? then PutBool(true, PutU64(v.value, rest)) else PutBool(false, rest)
  }

  function GetOptional(b: bytes): Option<(Option<u64>, bytes)> {
    var (present, b) :- GetBool(b);
    if !present then Some((None, b))
    else
      var (v, b) :- GetU64(b);
      Some((Some(v), b))
  }

  function PutDispatch(m: DispatchMsg, rest: bytes): (b: bytes)
    ensures GetDispatch(b) == Some((m, rest)) <==> Short(m.payload)
  {
    PutWords([m.plan, m.planGen, m.dispatch, m.attempt, m.target, m.targetGen, m.workerBoot, m.epoch, m.datasetGen,
              m.regionGen, m.operationGen],
      PutOptional(m.programGen, PutCodes([m.opClass, m.dataType, m.retryClass],
        PutFlags([m.idempotent, m.requireVerification], PutBlob(m.payload, rest)))))
  }

  function GetDispatch(b: bytes): (r: Option<(DispatchMsg, bytes)>)
    ensures r.Some? ==> Short(r.value.0.payload)
  {
    var (ws, b) :- GetWords(11, b);
    var (program, b) :- GetOptional(b);
    var (cs, b) :- GetCodes(3, b);
    var (fs, b) :- GetFlags(2, b);
    var (payload, b) :- GetBlob(b);
    Some((DispatchMsg(ws[0], ws[1], ws[2], ws[3], ws[4], ws[5], ws[6], ws[7], ws[8], ws[9], ws[10], program,
                      cs[0], cs[1], cs[2], fs[0], fs[1], payload), b))
  }

  predicate ResultOk(m: ResultMsg) {
    Short(m.output) && Short(m.outputDigest) && Short(m.note)
  }

  function PutResult(m: ResultMsg, rest: bytes): (b: bytes)
    ensures GetResult(b) == Some((m, rest)) <==> ResultOk(m)
  {
    PutWords([m.plan, m.planGen, m.dispatch, m.attempt, m.target, m.targetGen, m.workerBoot, m.epoch, m.datasetGen,
              m.regionGen, m.operationGen, m.resultGen],
      PutBlob(m.output, PutBlob(m.outputDigest, PutBool(m.unknown, PutBlob(m.note, rest)))))
  }

  function GetResult(b: bytes): (r: Option<(ResultMsg, bytes)>)
    ensures r.Some? ==> ResultOk(r.value.0)
  {
    var (ws, b) :- GetWords(12, b);
    var (output, b) :- GetBlob(b);
    var (digest, b) :- GetBlob(b);
    var (unknown, b) :- GetBool(b);
    var (note, b) :- GetBlob(b);
    Some((ResultMsg(ws[0], ws[1], ws[2], ws[3], ws[4], ws[5], ws[6], ws[7], ws[8], ws[9], ws[10], ws[11], output,
                    digest, unknown, note), b))
  }

  // ---- Client messages ----

  /** A bound program is written with its generation, or with 1 if the operation does not say. */
  function PutProgram(op: Operation, rest: bytes): (b: bytes)
    ensures GetProgram(b) ==
            Some((if op.program.Some? then Some((op.program.value, op.programGeneration.GetOr(1))) else None, rest))
  {
    if op.program.None? then PutBool(false, rest)
    else PutBool(true, PutWords([op.program.value, op.programGeneration.GetOr(1)], rest))
  }

  function GetProgram(b: bytes): Option<(Option<(Id, Gen)>, bytes)> {
    var (bound, b) :- GetBool(b);
    if !bound then Some((None, b))
    else
      var (ws, b) :- GetWords(2, b);
      Some((Some((ws[0], ws[1])), b))
  }

  datatype Demand = Demand(
    outputDataType: Code, determinismRequired: bool, maxToleratedLatencyNs: u64, requiredThroughputBps: u64,
    integrity: Code, retryClass: Code, policy: Id, policyGeneration: Gen)

  function DemandOf(op: Operation): Demand {
    Demand(op.outputDataType, op.determinismRequired, op.maxToleratedLatencyNs, op.requiredThroughputBps,
           op.integrity, op.retryClass, op.policy, op.policyGeneration)
  }

  function PutDemand(d: Demand, rest: bytes): (b: bytes)
    ensures GetDemand(b) == Some((d, rest))
  {
    PutU16(d.outputDataType, PutBool(d.determinismRequired,
      PutWords([d.maxToleratedLatencyNs, d.requiredThroughputBps], PutCodes([d.integrity, d.retryClass],
        PutWords([d.policy, d.policyGeneration], rest)))))
  }

  function GetDemand(b: bytes): Option<(Demand, bytes)> {
    var (outputType, b) :- GetU16(b);
    var (deterministic, b) :- GetBool(b);
    var (ws, b) :- GetWords(2, b);
    var (cs, b) :- GetCodes(2, b);
    var (policy, b) :- GetWords(2, b);
    Some((Demand(outputType, deterministic, ws[0], ws[1], cs[0], cs[1], policy[0], policy[1]), b))
  }

  /** An operation travels intact exactly when it names a program and its generation together or not at all. */
  predicate OperationOk(op: Operation) {
    Short(op.description) && (op.program.Some? <==> op.programGeneration.Some?)
  }

  function PutOperationFields(op: Operation, rest: bytes): (b: bytes)
    ensures GetOperationFields(b) == Some((op, rest)) <==> OperationOk(op)
  {
    PutWords([op.id, op.generation], PutU16(op.opClass,
      PutWords([op.dataset, op.datasetGeneration, op.region, op.regionGeneration, op.shape.elementCount],
        PutCodes([op.shape.dataType, op.shape.layout],
          PutWords([op.shape.alignment, op.inputBytes, op.outputBytes, op.workspaceBytes],
            PutDemand(DemandOf(op), PutProgram(op, PutBlob(op.description, rest))))))))
  }

  function GetOperationFields(b: bytes): (r: Option<(Operation, bytes)>)
    ensures r.Some? ==> OperationOk(r.value.0)
  {
    var (ids, b) :- GetWords(2, b);
    var (opClass, b) :- GetU16(b);
    var (data, b) :- GetWords(5, b);
    var (shape, b) :- GetCodes(2, b);
    var (sizes, b) :- GetWords(4, b);
    var (d, b) :- GetDemand(b);
    var (program, b) :- GetProgram(b);
    var (description, b) :- GetBlob(b);
    Some((Operation(ids[0], ids[1], opClass, data[0], data[1], data[2], data[3],
                    Shape(shape[0], shape[1], data[4], sizes[0]), sizes[1], sizes[2], sizes[3],
                    d.outputDataType, d.determinismRequired, d.maxToleratedLatencyNs, d.requiredThroughputBps,
                    d.integrity, d.retryClass, d.policy, d.policyGeneration,
                    if program.Some? then Some(program.value.0) else None,
                    if program.Some? then Some(program.value.1) else None, description), b))
  }

  predicate ReplyOk(m: ClientReplyMsg) {
    Short(m.outputDigest) && Short(m.note)
  }

  function PutReply(m: ClientReplyMsg, rest: bytes): (b: bytes)
    ensures GetReply(b) == Some((m, rest)) <==> ReplyOk(m)
  {
    PutBool(m.ok, PutU64(m.plan, PutU16(m.decision, PutFlags([m.created, m.committed, m.ambiguous],
      PutU16(m.verification, PutU64(m.outputBytes, PutBlob(m.outputDigest, PutBlob(m.note, rest))))))))
  }

  function GetReply(b: bytes): (r: Option<(ClientReplyMsg, bytes)>)
    ensures r.Some? ==> ReplyOk(r.value.0)
  {
    var (ok, b) :- GetBool(b);
    var (plan, b) :- GetU64(b);
    var (decision, b) :- GetU16(b);
    var (fs, b) :- GetFlags(3, b);
    var (verification, b) :- GetU16(b);
    var (outputBytes, b) :- GetU64(b);
    var (digest, b) :- GetBlob(b);
    var (note, b) :- GetBlob(b);
    Some((ClientReplyMsg(ok, plan, decision, fs[0], fs[1], fs[2], verification, outputBytes, digest, note), b))
  }
}
