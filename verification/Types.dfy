/**
 The runtime's value types: fixed-width integers, identities, records and messages.

 Identities and generations are 64-bit values with 0 as the null value. Enumerations that can arrive
 from the wire are kept as raw 16-bit codes, because the wire decoders cast without validating; the
 plan lifecycle never comes from the wire and is a datatype. A double is kept as its bit pattern; `Doubles`
 compares them.
 */
module Types {
  const TWO_8: int := 0x100
  const TWO_16: int := 0x1_0000
  const TWO_32: int := 0x1_0000_0000
  const TWO_64: int := 0x1_0000_0000_0000_0000

  type u8 = x: int | 0 <= x < TWO_8
  type u16 = x: int | 0 <= x < TWO_16
  type u32 = x: int | 0 <= x < TWO_32
  type u64 = x: int | 0 <= x < TWO_64
  type bytes = seq<u8>

  type Id = u64
  type Gen = u64
  type Code = u16
  type F64 = u64

  /** 64-bit addition as the hardware does it. */
  function Wrap(x: int): u64 {
    x % TWO_64
  }

  datatype Option<+T> = None | Some(value: T) {
    predicate IsFailure() {
      None?
    }

    function PropagateFailure<U>(): Option<U>
      requires None?
    {
      None
    }

    function Extract(): T
      requires Some?
    {
      value
    }

    function GetOr(default: T): T {
      if Some? then value else default
    }
  }

  /** Append a reason to a list if it objects. */
  function Noting<T(!new)>(reasons: seq<T>, objects: bool, reason: T): (r: seq<T>)
    ensures forall e :: e in r <==> e in reasons || (objects && e == reason)
  {
    if objects then reasons + [reason] else reasons
  }

  datatype Error =
    | E_ID_NULL | E_DUP | E_RESERVED | E_TARGET_UNKNOWN | E_TARGET_TERMINAL | E_TARGET_STATE
    | E_PLAN_OP | E_PLAN_POLICY | E_PLAN_ACTIVE | E_PLAN_NOT_FOUND | E_PLAN_STATE
    | E_CONCURRENCY | E_WORKSPACE | E_DRAIN | E_STALE_PLAN | E_WORKER_UNKNOWN
    | E_DISPATCH_MISMATCH | E_ATTEMPT_MISMATCH
    | E_RESULT_PLAN | E_RESULT_DUP | E_RESULT_STALE | E_RESULT_STATE
    | E_PERSIST_MAGIC | E_PERSIST_VERSION | E_PERSIST_LEN | E_PERSIST_OVERSIZE | E_PERSIST_TRUNC
    | E_PERSIST_CRC | E_PERSIST_TRAILING | E_PERSIST_DECODE | E_BAD_OPTIONAL

  datatype Outcome<+T> = Ok(value: T) | Err(code: Error)

  // ---- Enumerations ----

  datatype Lifecycle =
    | PLANNED | RESERVED | DISPATCHED | RUNNING | VERIFYING | COMPLETED
    | COMMITTED | FAILED | OUTCOME_UNKNOWN | CANCELLED | FENCED | SUPERSEDED

  // Target lifecycles
  const TL_REGISTERED: Code := 1
  const TL_READY: Code := 3
  const TL_DEGRADED: Code := 5
  const TL_DRAINING: Code := 6
  const TL_REVALIDATION_REQUIRED: Code := 7
  const TL_OFFLINE: Code := 8
  const TL_FAILED: Code := 9
  const TL_RETIRED: Code := 10

  // Capability states
  const CS_UNKNOWN: Code := 2
  const CS_REVALIDATION_REQUIRED: Code := 3

  // Planner decisions
  const NEAR_MEMORY_SELECTED: Code := 0
  const CONVENTIONAL_CPU_SELECTED: Code := 2
  const MOVEMENT_REQUIRED: Code := 4
  const REJECT: Code := 6

  // Verification states
  const UNVERIFIED: Code := 0
  const VERIFIED: Code := 1
  const MISMATCH: Code := 2
  const VERIFY_UNKNOWN: Code := 4

  const NEAR_MEMORY_REQUIRED: Code := 0
  const UNCONSTRAINED: Code := 2
  const PROGRAM_READY: Code := 2
  const ACCESS_DIRECT: Code := 2

  // Retry classes and integrity requirements
  const REPLAY_SAFE: Code := 0
  const IDEMPOTENT: Code := 1
  const CHECKED: Code := 1
  const STRICT: Code := 2

  // ---- Durable records ----

  datatype Shape = Shape(dataType: Code, layout: Code, elementCount: u64, alignment: u64)

  datatype MemoryDomain = MemoryDomain(id: Id, generation: Gen, name: bytes, durable: bool)

  datatype Dataset = Dataset(id: Id, generation: Gen, name: bytes, producer: bytes, durable: bool)

  datatype Region = Region(
    id: Id, generation: Gen, dataset: Id, datasetGeneration: Gen, memoryDomain: Id,
    offset: u64, length: u64, shape: Shape, integrity: Code, durable: bool)

  datatype Program = Program(
    id: Id, generation: Gen, name: bytes, opClass: Code, targetKind: Code, digest: bytes,
    dataTypes: seq<Code>, layouts: seq<Code>, workspaceBytes: u64, lifecycle: Code,
    predefined: bool, validated: bool)

  datatype Policy = Policy(
    id: Id, generation: Gen, name: bytes, outcome: Code, permittedFallbacks: seq<Code>,
    requiredConfidence: F64, nearMemoryBias: F64, rejectOnStale: bool,
    maxNearMemoryInputBytes: u64, requireVerification: bool)

  datatype Operation = Operation(
    id: Id, generation: Gen, opClass: Code, dataset: Id, datasetGeneration: Gen,
    region: Id, regionGeneration: Gen, shape: Shape,
    inputBytes: u64, outputBytes: u64, workspaceBytes: u64,
    outputDataType: Code, determinismRequired: bool,
    maxToleratedLatencyNs: u64, requiredThroughputBps: u64,
    integrity: Code, retryClass: Code, policy: Id, policyGeneration: Gen,
    program: Option<Id>, programGeneration: Option<Gen>, description: bytes)

  datatype Target = Target(
    id: Id, generation: Gen, provider: Code, kind: Code, name: bytes, description: bytes,
    failureDomain: Id, memoryDomains: seq<Id>,
    supportedOps: seq<Code>, supportedDataTypes: seq<Code>, supportedLayouts: seq<Code>,
    maxInputBytes: u64, alignmentConstraint: u64, concurrencyCapacity: u32,
    queueDepth: u64, workspaceBytes: u64, accessSemantics: Code,
    requiresStaging: bool, synthetic: bool, supportsVerification: bool,
    supportsCancellation: bool, supportsDrain: bool, authorityOwner: bytes)

  datatype Snapshot = Snapshot(
    epoch: Gen, workerBoot: Id, target: Id, targetGeneration: Gen, memoryDomainGeneration: Gen,
    datasetGeneration: Gen, regionGeneration: Gen, operationGeneration: Gen,
    programGeneration: Option<Gen>, capabilityGeneration: Gen, policyGeneration: Gen,
    evidenceGeneration: Gen, planGeneration: Gen)

  datatype Authority = Authority(snapshot: Snapshot, plan: Id, planGeneration: Gen)

  datatype Plan = Plan(
    id: Id, generation: Gen, authority: Authority, target: Id, targetGeneration: Gen,
    operation: Id, opClass: Code, dataset: Id, datasetGeneration: Gen,
    region: Id, regionGeneration: Gen, lifecycle: Lifecycle,
    reservedSlots: u64, reservedWorkspace: u64,
    dispatchId: Option<Id>, attemptId: Option<Id>,
    retryClass: Code, decision: Code, notes: seq<bytes>)

  datatype ExecResult = ExecResult(
    id: Id, generation: Gen, plan: Id, planGeneration: Gen, dispatch: Id, attempt: Id,
    target: Id, targetGeneration: Gen, workerBoot: Id, epoch: Gen,
    datasetGeneration: Gen, regionGeneration: Gen, operationGeneration: Gen,
    verification: Code, outputDigest: bytes, outputBytes: u64,
    committed: bool, ambiguous: bool, note: bytes)

  // ---- Dynamic records, never persisted ----

  datatype Evidence = Evidence(
    region: Id, regionGeneration: Gen, datasetGeneration: Gen, memoryDomain: Id,
    memoryDomainGeneration: Gen, present: bool, current: bool, reachable: bool,
    dynamicCurrent: bool, publisher: Id)

  datatype Performance = Performance(latencyNs: u64, throughputBps: u64, setupNs: u64, confidence: F64)

  datatype Runtime = Runtime(
    lifecycle: Code, ownerBoot: Id, reachable: bool, concurrencyInUse: u64, queueDepth: u64,
    performance: Performance, dynamicCurrent: bool)

  datatype Capabilities = Capabilities(
    target: Id, targetGeneration: Gen, generation: Gen, entries: map<bytes, Code>,
    evidenceGeneration: Gen, publisher: Id, dynamicCurrent: bool)

  datatype Reservation = Reservation(slots: u64, workspace: u64)

  datatype Session = Session(worker: Id, boot: Id, name: bytes, connected: bool)

  datatype State = State(
    coordinatorId: Id, epoch: Gen,
    domains: map<Id, MemoryDomain>, datasets: map<Id, Dataset>, regions: map<Id, Region>,
    evidence: map<Id, Evidence>,
    targets: map<Id, Target>, runtime: map<Id, Runtime>, caps: map<Id, Capabilities>,
    operations: map<Id, Operation>, programs: map<Id, Program>, policies: map<Id, Policy>,
    plans: map<Id, Plan>, active: map<Id, Id>, results: map<Id, ExecResult>,
    reservations: map<Id, Reservation>, workers: map<Id, Session>)

  // ---- Messages ----

  datatype HelloMsg = HelloMsg(worker: Id, boot: Id, name: bytes)

  datatype RegisterTargetMsg = RegisterTargetMsg(
    target: Id, generation: Gen, provider: Code, kind: Code, synthetic: bool, name: bytes,
    ops: seq<Code>, dataTypes: seq<Code>, layouts: seq<Code>,
    maxInputBytes: u64, alignment: u64, concurrency: u32, workspace: u64, ownerBoot: Id)

  datatype CapabilityEntry = CapabilityEntry(key: bytes, state: Code)

  datatype CapabilityMsg = CapabilityMsg(
    target: Id, generation: Gen, entries: seq<CapabilityEntry>, evidenceGeneration: Gen, publisher: Id)

  datatype EvidenceMsg = EvidenceMsg(
    region: Id, regionGeneration: Gen, dataset: Id, datasetGeneration: Gen,
    memoryDomain: Id, memoryDomainGeneration: Gen,
    present: bool, current: bool, reachable: bool, publisher: Id)

  datatype HeartbeatMsg = HeartbeatMsg(
    target: Id, lifecycle: Code, reachable: bool, queueDepth: u64, latencyNs: u64,
    throughputBps: u64, confidence: F64)

  datatype DispatchMsg = DispatchMsg(
    plan: Id, planGen: Gen, dispatch: Id, attempt: Id, target: Id, targetGen: Gen,
    workerBoot: Id, epoch: Gen, datasetGen: Gen, regionGen: Gen, operationGen: Gen,
    programGen: Option<Gen>, opClass: Code, dataType: Code, retryClass: Code,
    idempotent: bool, requireVerification: bool, payload: bytes)

  datatype ResultMsg = ResultMsg(
    plan: Id, planGen: Gen, dispatch: Id, attempt: Id, target: Id, targetGen: Gen,
    workerBoot: Id, epoch: Gen, datasetGen: Gen, regionGen: Gen, operationGen: Gen,
    resultGen: Gen, output: bytes, outputDigest: bytes, unknown: bool, note: bytes)

  datatype ClientReplyMsg = ClientReplyMsg(
    ok: bool, plan: Id, decision: Code, created: bool, committed: bool, ambiguous: bool,
    verification: Code, outputBytes: u64, outputDigest: bytes, note: bytes)
}
