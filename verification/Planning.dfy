/** Hard feasibility filter, movement-versus-compute economics and candidate ranking. */
module Planning {
  import opened Types
  import opened Doubles
  import opened Names

  // ---- Hard filter ----

  datatype Reason =
    | TARGET_OFFLINE | TARGET_DEGRADED | TARGET_UNREACHABLE | TARGET_REVALIDATION_REQUIRED
    | OPERATION_UNSUPPORTED | OPERATION_UNKNOWN | DATATYPE_UNSUPPORTED | LAYOUT_UNSUPPORTED
    | ALIGNMENT_UNSUPPORTED | DATA_STALE | DATA_WRONG_GENERATION | DATA_UNREACHABLE
    | INSUFFICIENT_WORKSPACE | CONCURRENCY_EXHAUSTED | PROGRAM_INCOMPATIBLE
    | WRONG_TARGET_GENERATION | WRONG_WORKER_BOOT | EVIDENCE_STALE | INSUFFICIENT_CONFIDENCE

  datatype FilterInput = FilterInput(
    target: Target, runtime: Runtime, op: Operation, data: Option<Evidence>, caps: Capabilities, operationState: Code,
    program: Option<Program>, policy: Policy, currentBoot: Option<Id>, currentGeneration: Option<Gen>)

  function StateOf(caps: Capabilities, key: bytes): Code {
    if key in caps.entries then caps.entries[key] else CS_UNKNOWN
  }

  /** The capability key of an operation class. */
  function OperationKey(opClass: Code): bytes {
    Text("operation:") + NameOf(OPERATION_CLASS, opClass)
  }

  predicate TargetReady(rt: Runtime) {
    && rt.lifecycle !in {TL_OFFLINE, TL_FAILED, TL_RETIRED, TL_DEGRADED, TL_REVALIDATION_REQUIRED}
    && rt.reachable && rt.dynamicCurrent
  }

  predicate OperationSupported(in_: FilterInput) {
    && in_.op.opClass in in_.target.supportedOps
    && in_.operationState !in {CS_UNKNOWN, CS_REVALIDATION_REQUIRED}
    && in_.op.shape.dataType in in_.target.supportedDataTypes
    && in_.op.shape.layout in in_.target.supportedLayouts
    && (in_.target.alignmentConstraint == 0 || in_.op.shape.alignment % in_.target.alignmentConstraint == 0)
  }

  predicate ResourcesFit(in_: FilterInput) {
    && in_.op.workspaceBytes <= in_.target.workspaceBytes
    && in_.runtime.concurrencyInUse < in_.target.concurrencyCapacity
  }

  predicate DataUsable(in_: FilterInput) {
    && in_.data.Some?
    && in_.data.value.present && in_.data.value.current && in_.data.value.reachable
    && in_.data.value.datasetGeneration == in_.op.datasetGeneration
  }

  predicate ProgramUsable(in_: FilterInput) {
    in_.op.program.Some? ==>
      && in_.program.Some?
      && in_.program.value.id == in_.op.program.value
      && in_.program.value.lifecycle == PROGRAM_READY
      && in_.program.value.opClass == in_.op.opClass
      && in_.op.shape.dataType in in_.program.value.dataTypes
  }

  predicate AuthorityFresh(in_: FilterInput) {
    && (in_.currentGeneration.Some? ==> in_.target.generation == in_.currentGeneration.value)
    && (in_.currentBoot.Some? ==> in_.runtime.ownerBoot == in_.currentBoot.value)
    && in_.caps.dynamicCurrent
    && !Below(in_.runtime.performance.confidence, in_.policy.requiredConfidence)
  }

  /** What an eligible target is, independently of the order in which reasons are collected. */
  predicate Eligible(in_: FilterInput) {
    && TargetReady(in_.runtime) && OperationSupported(in_) && DataUsable(in_)
    && ResourcesFit(in_) && ProgramUsable(in_) && AuthorityFresh(in_)
  }

  // What each reason stands for, check by check.

  predicate TargetObjects(rt: Runtime, r: Reason) {
    match r
    case TARGET_OFFLINE => rt.lifecycle in {TL_OFFLINE, TL_FAILED, TL_RETIRED}
    case TARGET_DEGRADED => rt.lifecycle == TL_DEGRADED
    case TARGET_UNREACHABLE => !rt.reachable
    case TARGET_REVALIDATION_REQUIRED => !rt.dynamicCurrent || rt.lifecycle == TL_REVALIDATION_REQUIRED
    case _ => false
  }

  predicate OperationObjects(in_: FilterInput, r: Reason) {
    match r
    case OPERATION_UNSUPPORTED => in_.op.opClass !in in_.target.supportedOps
    case OPERATION_UNKNOWN => in_.operationState == CS_UNKNOWN
    case TARGET_REVALIDATION_REQUIRED => in_.operationState == CS_REVALIDATION_REQUIRED
    case DATATYPE_UNSUPPORTED => in_.op.shape.dataType !in in_.target.supportedDataTypes
    case LAYOUT_UNSUPPORTED => in_.op.shape.layout !in in_.target.supportedLayouts
    case ALIGNMENT_UNSUPPORTED =>
      in_.target.alignmentConstraint != 0 && in_.op.shape.alignment % in_.target.alignmentConstraint != 0
    case _ => false
  }

  predicate DataObjects(data: Evidence, op: Operation, r: Reason) {
    match r
    case DATA_UNREACHABLE => !data.present || !data.reachable
    case DATA_STALE => !data.current
    case DATA_WRONG_GENERATION => data.datasetGeneration != op.datasetGeneration
    case _ => false
  }

  predicate ResourceObjects(in_: FilterInput, r: Reason) {
    match r
    case INSUFFICIENT_WORKSPACE => in_.op.workspaceBytes > in_.target.workspaceBytes
    case CONCURRENCY_EXHAUSTED => in_.runtime.concurrencyInUse >= in_.target.concurrencyCapacity
    case PROGRAM_INCOMPATIBLE => !ProgramUsable(in_)
    case _ => false
  }

  predicate AuthorityObjects(in_: FilterInput, r: Reason) {
    match r
    case WRONG_TARGET_GENERATION => in_.currentGeneration.Some? && in_.target.generation != in_.currentGeneration.value
    case WRONG_WORKER_BOOT => in_.currentBoot.Some? && in_.runtime.ownerBoot != in_.currentBoot.value
    case EVIDENCE_STALE => !in_.caps.dynamicCurrent
    case INSUFFICIENT_CONFIDENCE => Below(in_.runtime.performance.confidence, in_.policy.requiredConfidence)
    case _ => false
  }

  predicate Objects(in_: FilterInput, data: Evidence, r: Reason) {
    || TargetObjects(in_.runtime, r) || OperationObjects(in_, r) || DataObjects(data, in_.op, r)
    || ResourceObjects(in_, r) || AuthorityObjects(in_, r)
  }

  lemma ReadyWithoutObjections(rt: Runtime)
    ensures TargetReady(rt) <==> forall r :: !TargetObjects(rt, r)
  {
    if forall r :: !TargetObjects(rt, r) {
      assert !TargetObjects(rt, TARGET_OFFLINE) && !TargetObjects(rt, TARGET_DEGRADED);
      assert !TargetObjects(rt, TARGET_UNREACHABLE) && !TargetObjects(rt, TARGET_REVALIDATION_REQUIRED);
    }
  }

  lemma SupportedWithoutObjections(in_: FilterInput)
    ensures OperationSupported(in_) <==> forall r :: !OperationObjects(in_, r)
  {
    if forall r :: !OperationObjects(in_, r) {
      assert !OperationObjects(in_, OPERATION_UNSUPPORTED) && !OperationObjects(in_, OPERATION_UNKNOWN);
      assert !OperationObjects(in_, TARGET_REVALIDATION_REQUIRED) && !OperationObjects(in_, DATATYPE_UNSUPPORTED);
      assert !OperationObjects(in_, LAYOUT_UNSUPPORTED) && !OperationObjects(in_, ALIGNMENT_UNSUPPORTED);
    }
  }

  lemma DataWithoutObjections(in_: FilterInput)
    requires in_.data.Some?
    ensures DataUsable(in_) <==> forall r :: !DataObjects(in_.data.value, in_.op, r)
  {
    var d, op := in_.data.value, in_.op;
    if forall r :: !DataObjects(d, op, r) {
      assert !DataObjects(d, op, DATA_UNREACHABLE) && !DataObjects(d, op, DATA_STALE);
      assert !DataObjects(d, op, DATA_WRONG_GENERATION);
    }
  }

  lemma FitsWithoutObjections(in_: FilterInput)
    ensures ResourcesFit(in_) && ProgramUsable(in_) <==> forall r :: !ResourceObjects(in_, r)
  {
    hide ProgramUsable;
    if forall r :: !ResourceObjects(in_, r) {
      assert !ResourceObjects(in_, INSUFFICIENT_WORKSPACE) && !ResourceObjects(in_, CONCURRENCY_EXHAUSTED);
      assert !ResourceObjects(in_, PROGRAM_INCOMPATIBLE);
    }
  }

  lemma FreshWithoutObjections(in_: FilterInput)
    ensures AuthorityFresh(in_) <==> forall r :: !AuthorityObjects(in_, r)
  {
    if forall r :: !AuthorityObjects(in_, r) {
      assert !AuthorityObjects(in_, WRONG_TARGET_GENERATION) && !AuthorityObjects(in_, WRONG_WORKER_BOOT);
      assert !AuthorityObjects(in_, EVIDENCE_STALE) && !AuthorityObjects(in_, INSUFFICIENT_CONFIDENCE);
    }
  }

  /** A target with evidence is eligible exactly when no reason objects. */
  lemma EligibleWithoutObjections(in_: FilterInput)
    requires in_.data.Some?
    ensures Eligible(in_) <==> forall r :: !Objects(in_, in_.data.value, r)
  {
    hide TargetObjects, OperationObjects, DataObjects, ResourceObjects, AuthorityObjects,
      TargetReady, OperationSupported, DataUsable, ResourcesFit, ProgramUsable, AuthorityFresh;
    ReadyWithoutObjections(in_.runtime);
    SupportedWithoutObjections(in_);
    DataWithoutObjections(in_);
    FitsWithoutObjections(in_);
    FreshWithoutObjections(in_);
    if forall r :: !Objects(in_, in_.data.value, r) {
      forall r
        ensures !TargetObjects(in_.runtime, r) && !OperationObjects(in_, r) && !DataObjects(in_.data.value, in_.op, r)
        ensures !ResourceObjects(in_, r) && !AuthorityObjects(in_, r)
      {
        assert !Objects(in_, in_.data.value, r);
      }
    }
  }

  /** The filter as the source runs it: reasons are appended check by check, each exactly when it objects. */
  method HardFilter(in_: FilterInput) returns (reasons: seq<Reason>)
    ensures reasons == [] <==> Eligible(in_)
    ensures in_.data.None? ==> reasons == [TARGET_OFFLINE]
    ensures in_.data.Some? ==> forall r :: r in reasons <==> Objects(in_, in_.data.value, r)
  {
    hide Eligible, TargetObjects, OperationObjects, DataObjects, ResourceObjects, AuthorityObjects;
    if in_.data.None? {
      NoEvidence(in_);
      return [TARGET_OFFLINE];
    }
    var target := TargetReasons(in_.runtime);
    var support := OperationReasons(in_);
    var data := DataReasons(in_.data.value, in_.op);
    var fit := ResourceReasons(in_);
    var late := AuthorityReasons(in_);
    reasons := target + support + data + fit + late;
    EligibleWithoutObjections(in_);
    if reasons == [] {
      forall r ensures !Objects(in_, in_.data.value, r) {
        assert r !in reasons;
      }
    } else {
      var r := reasons[0];
      assert r in target || r in support || r in data || r in fit || r in late;
      assert Objects(in_, in_.data.value, r);
    }
  }

  lemma NoEvidence(in_: FilterInput)
    requires in_.data.None?
    ensures !Eligible(in_)
  {
  }

  method TargetReasons(rt: Runtime) returns (reasons: seq<Reason>)
    ensures forall r :: r in reasons <==> TargetObjects(rt, r)
  {
    hide Noting;
    reasons := Noting([], rt.lifecycle == TL_OFFLINE || rt.lifecycle == TL_FAILED || rt.lifecycle == TL_RETIRED,
                      TARGET_OFFLINE);
    reasons := Noting(reasons, rt.lifecycle == TL_DEGRADED, TARGET_DEGRADED);
    reasons := Noting(reasons, !rt.reachable, TARGET_UNREACHABLE);
    reasons := Noting(reasons, !rt.dynamicCurrent || rt.lifecycle == TL_REVALIDATION_REQUIRED,
                      TARGET_REVALIDATION_REQUIRED);
  }

  method OperationReasons(in_: FilterInput) returns (reasons: seq<Reason>)
    ensures forall r :: r in reasons <==> OperationObjects(in_, r)
  {
    hide Noting;
    reasons := Noting([], in_.op.opClass !in in_.target.supportedOps, OPERATION_UNSUPPORTED);
    if in_.operationState == CS_UNKNOWN {
      reasons := reasons + [OPERATION_UNKNOWN];
    } else if in_.operationState == CS_REVALIDATION_REQUIRED {
      reasons := reasons + [TARGET_REVALIDATION_REQUIRED];
    }
    reasons := Noting(reasons, in_.op.shape.dataType !in in_.target.supportedDataTypes, DATATYPE_UNSUPPORTED);
    reasons := Noting(reasons, in_.op.shape.layout !in in_.target.supportedLayouts, LAYOUT_UNSUPPORTED);
    reasons := Noting(reasons, in_.target.alignmentConstraint != 0
                               && in_.op.shape.alignment % in_.target.alignmentConstraint != 0, ALIGNMENT_UNSUPPORTED);
  }

  method DataReasons(data: Evidence, op: Operation) returns (reasons: seq<Reason>)
    ensures forall r :: r in reasons <==> DataObjects(data, op, r)
  {
    hide Noting;
    reasons := Noting([], !data.present, DATA_UNREACHABLE);
    reasons := Noting(reasons, !data.current, DATA_STALE);
    reasons := Noting(reasons, data.datasetGeneration != op.datasetGeneration, DATA_WRONG_GENERATION);
    reasons := Noting(reasons, !data.reachable, DATA_UNREACHABLE);
  }

  method ResourceReasons(in_: FilterInput) returns (reasons: seq<Reason>)
    ensures forall r :: r in reasons <==> ResourceObjects(in_, r)
  {
    hide Noting;
    reasons := Noting([], in_.op.workspaceBytes > in_.target.workspaceBytes, INSUFFICIENT_WORKSPACE);
    reasons := Noting(reasons, in_.runtime.concurrencyInUse >= in_.target.concurrencyCapacity, CONCURRENCY_EXHAUSTED);
    if in_.op.program.Some? {
      reasons := Noting(reasons, in_.program.None? || in_.program.value.id != in_.op.program.value
                                 || in_.program.value.lifecycle != PROGRAM_READY, PROGRAM_INCOMPATIBLE);
      if in_.program.Some? {
        reasons := Noting(reasons, in_.program.value.opClass != in_.op.opClass, PROGRAM_INCOMPATIBLE);
        reasons := Noting(reasons, in_.op.shape.dataType !in in_.program.value.dataTypes, PROGRAM_INCOMPATIBLE);
      }
    }
  }

  method AuthorityReasons(in_: FilterInput) returns (reasons: seq<Reason>)
    ensures forall r :: r in reasons <==> AuthorityObjects(in_, r)
  {
    hide Noting;
    reasons := Noting([], in_.currentGeneration.Some? && in_.target.generation != in_.currentGeneration.value,
                      WRONG_TARGET_GENERATION);
    reasons := Noting(reasons, in_.currentBoot.Some? && in_.runtime.ownerBoot != in_.currentBoot.value,
                      WRONG_WORKER_BOOT);
    reasons := Noting(reasons, !in_.caps.dynamicCurrent, EVIDENCE_STALE);
    reasons := Noting(reasons, Below(in_.runtime.performance.confidence, in_.policy.requiredConfidence),
                      INSUFFICIENT_CONFIDENCE);
  }

  // ---- Economics ----

  const SYNTHESIS_PENALTY_NS: u64 := 1_000_000

  datatype Transfer = Transfer(
    bytesToMove: u64, bandwidthBps: u64, latencyNs: u64, stagingNs: u64, serializationNs: u64, registrationNs: u64)

  datatype Compute = Compute(executionNs: u64, setupNs: u64, queueDelayNs: u64, resultReturnBytes: u64)

  datatype Economics = Economics(decision: Code, nearTotal: u64, conventionalTotal: u64, movementAvoided: u64)

  /** Time to move `n` bytes, in whole nanoseconds; the source computes it in extended precision. */
  function TransferNs(n: u64, bandwidthBps: u64): u64 {
    if bandwidthBps == 0 then 0 else Wrap(n * 1_000_000_000 / bandwidthBps)
  }

  function NearTotal(tr: Transfer, near: Compute): u64 {
    Wrap(near.setupNs + near.executionNs + near.queueDelayNs + TransferNs(near.resultReturnBytes, tr.bandwidthBps))
  }

  function ConventionalTotal(tr: Transfer, conv: Compute): u64 {
    var fixed := Wrap(tr.stagingNs + tr.serializationNs + tr.registrationNs + conv.executionNs);
    if tr.bandwidthBps > 0 then Wrap(fixed + tr.latencyNs + TransferNs(tr.bytesToMove, tr.bandwidthBps))
    else Wrap(fixed + SYNTHESIS_PENALTY_NS)
  }

  function ChoosePath(tr: Transfer, conv: Compute, near: Compute): (e: Economics)
    ensures e.decision == NEAR_MEMORY_SELECTED <==> e.nearTotal <= e.conventionalTotal
  {
    var nearTotal, convTotal := NearTotal(tr, near), ConventionalTotal(tr, conv);
    Economics(if nearTotal <= convTotal then NEAR_MEMORY_SELECTED else CONVENTIONAL_CPU_SELECTED,
              nearTotal, convTotal, tr.bytesToMove)
  }

  // ---- Ranking ----

  datatype Candidate = Candidate(
    target: Id, generation: Gen, decision: Code, movementAvoided: u64, totalCost: u64,
    estimatedLatency: u64, confidence: F64)

  /** The source's comparator: cost, movement, latency, confidence, identity. */
  predicate Before(a: Candidate, b: Candidate) {
    if a.totalCost != b.totalCost then a.totalCost < b.totalCost
    else if a.movementAvoided != b.movementAvoided then a.movementAvoided > b.movementAvoided
    else if a.estimatedLatency != b.estimatedLatency then a.estimatedLatency < b.estimatedLatency
    else if !Same(a.confidence, b.confidence) then Below(b.confidence, a.confidence)
    else a.target < b.target
  }

  /** Cheapest first, then most trusted, then smallest identity. */
  predicate Cheaper(a: Candidate, b: Candidate) {
    if a.totalCost != b.totalCost then a.totalCost < b.totalCost
    else if !Same(a.confidence, b.confidence) then Below(b.confidence, a.confidence)
    else a.target < b.target
  }

  ghost predicate DistinctTargets(s: seq<Candidate>) {
    forall i, j :: 0 <= i < j < |s| ==> s[i].target != s[j].target
  }

  ghost predicate Ordered(s: seq<Candidate>) {
    forall i, j :: 0 <= i < j < |s| ==> !Before(s[j], s[i])
  }

  // ---- When the comparator orders ----

  /** Only the confidence or the identity can tell them apart. */
  predicate Tied(a: Candidate, b: Candidate) {
    a.totalCost == b.totalCost && a.movementAvoided == b.movementAvoided && a.estimatedLatency == b.estimatedLatency
  }

  /** A confidence that is not a number compares with nothing. */
  predicate Clear(a: Candidate, b: Candidate) {
    Tied(a, b) ==> !NaN(a.confidence) && !NaN(b.confidence)
  }

  /**
   The comparator is always irreflexive, asymmetric and transitive. It decides between two candidates exactly when
   they are clear of each other, and its indecision is transitive where both pairs are.
   */
  lemma BeforeIsStrictTotalOrder(a: Candidate, b: Candidate, c: Candidate)
    ensures !Before(a, a)
    ensures Before(a, b) ==> !Before(b, a)
    ensures Before(a, b) && Before(b, c) ==> Before(a, c)
    ensures Clear(a, b) && Clear(b, c) && !Before(b, a) && !Before(c, b) ==> !Before(c, a)
    ensures a.target != b.target ==> (Before(a, b) || Before(b, a) <==> Clear(a, b))
  {
  }

  /** What a sort asks of its comparator, on the candidates at hand. */
  ghost predicate WeaklyOrders(s: seq<Candidate>) {
    forall i, j, k :: 0 <= i < |s| && 0 <= j < |s| && 0 <= k < |s| && !Before(s[j], s[i]) && !Before(s[k], s[j])
      ==> !Before(s[k], s[i])
  }

  /** No candidate without a number for its confidence ties with two that have one. */
  ghost predicate NoTornTies(s: seq<Candidate>) {
    forall i, j, k :: 0 <= i < |s| && 0 <= j < |s| && 0 <= k < |s| && Torn(s[j], s[i], s[k]) ==> j == k
  }

  predicate Torn(a: Candidate, b: Candidate, c: Candidate) {
    Tied(a, b) && Tied(b, c) && NaN(b.confidence) && !NaN(a.confidence) && !NaN(c.confidence)
  }

  /** Around a candidate without a number, indecision fails to be transitive exactly when two others are decided. */
  lemma IndecisionBreaks(a: Candidate, b: Candidate, c: Candidate)
    requires !Before(b, a) && !Before(c, b)
    ensures Before(c, a) ==> Torn(a, b, c)
  {
  }

  /** The sort is well defined if and only if there are no torn ties. */
  lemma WeaklyOrdersIff(s: seq<Candidate>)
    requires DistinctTargets(s)
    ensures WeaklyOrders(s) <==> NoTornTies(s)
  {
    hide Before, Torn;
    if WeaklyOrders(s) {
      forall i, j, k | 0 <= i < |s| && 0 <= j < |s| && 0 <= k < |s| && Torn(s[j], s[i], s[k]) ensures j == k {
        TornUndecided(s[j], s[i], s[k]);
        TornUndecided(s[k], s[i], s[j]);
        if j != k {
          assert s[j].target != s[k].target;
          TornDecided(s[j], s[i], s[k]);
        }
      }
    }
    if NoTornTies(s) {
      forall i, j, k | 0 <= i < |s| && 0 <= j < |s| && 0 <= k < |s| && !Before(s[j], s[i]) && !Before(s[k], s[j])
        ensures !Before(s[k], s[i])
      {
        IndecisionBreaks(s[i], s[j], s[k]);
        BeforeIsStrictTotalOrder(s[i], s[k], s[k]);
      }
    }
  }

  lemma TornUndecided(a: Candidate, b: Candidate, c: Candidate)
    requires Torn(a, b, c)
    ensures !Before(a, b) && !Before(b, a) && !Before(b, c) && !Before(c, b) && Torn(c, b, a)
  {
  }

  lemma TornDecided(a: Candidate, b: Candidate, c: Candidate)
    requires Torn(a, b, c) && a.target != c.target
    ensures Before(a, c) || Before(c, a)
  {
  }

  /** Three targets alike but for confidences 0.9, not a number, and 0.5. */
  lemma NotANumberTearsTheOrder()
    ensures var a := Candidate(1, 1, 0, 0, 0, 0, 0x3FEC_CCCC_CCCC_CCCD);
            var b := a.(target := 2, confidence := 0x7FF8_0000_0000_0000);
            var c := a.(target := 3, confidence := 0x3FE0_0000_0000_0000);
            && !Before(a, b) && !Before(b, a) && !Before(b, c) && !Before(c, b) && Before(a, c)
            && !WeaklyOrders([a, b, c])
  {
    var a := Candidate(1, 1, 0, 0, 0, 0, 0x3FEC_CCCC_CCCC_CCCD);
    var b := a.(target := 2, confidence := 0x7FF8_0000_0000_0000);
    var c := a.(target := 3, confidence := 0x3FE0_0000_0000_0000);
    var s := [a, b, c];
    assert s[0] == a && s[1] == b && s[2] == c;
    assert !Before(s[1], s[2]) && !Before(s[0], s[1]) && Before(s[0], s[2]);
  }

  /** Every two candidates can be told apart. */
  ghost predicate AllClear(s: seq<Candidate>) {
    forall i, j :: 0 <= i < |s| && 0 <= j < |s| && i != j ==> Clear(s[i], s[j])
  }

  lemma ClearOrders(s: seq<Candidate>)
    requires AllClear(s)
    ensures WeaklyOrders(s)
  {
    hide Before, Clear;
    forall i, j, k | 0 <= i < |s| && 0 <= j < |s| && 0 <= k < |s| && !Before(s[j], s[i]) && !Before(s[k], s[j])
      ensures !Before(s[k], s[i])
    {
      if i != j && j != k {
        BeforeIsStrictTotalOrder(s[i], s[j], s[k]);
      }
    }
  }

  function Insert(c: Candidate, s: seq<Candidate>): (r: seq<Candidate>)
    ensures multiset(r) == multiset(s) + multiset{c}
  {
    if s == [] then [c]
    else if Before(c, s[0]) then [c] + s
    else
      assert s == [s[0]] + s[1..];
      [s[0]] + Insert(c, s[1..])
  }

  lemma InMultiset(c: Candidate, s: seq<Candidate>)
    ensures c in s <==> c in multiset(s)
  {
  }

  lemma {:induction false} InsertOrdered(c: Candidate, s: seq<Candidate>)
    requires Ordered(s)
    ensures Ordered(Insert(c, s))
  {
    if s != [] && !Before(c, s[0]) {
      var rest := Insert(c, s[1..]);
      InsertOrdered(c, s[1..]);
      forall j | 0 <= j < |rest| ensures !Before(rest[j], s[0]) {
        InMultiset(rest[j], rest);
        assert rest[j] in multiset(s[1..]) + multiset{c};
        if rest[j] != c {
          assert rest[j] in s[1..];
        }
      }
    } else if s != [] {
      forall j | 0 <= j < |s| ensures !Before(s[j], c) {
        BeforeIsStrictTotalOrder(c, s[0], s[j]);
      }
    }
  }

  function Ranked(s: seq<Candidate>): (r: seq<Candidate>)
    ensures multiset(r) == multiset(s)
  {
    if s == [] then [] else
      assert s == [s[0]] + s[1..];
      Insert(s[0], Ranked(s[1..]))
  }

  lemma {:induction false} RankedOrdered(s: seq<Candidate>)
    ensures Ordered(Ranked(s))
  {
    if s != [] {
      RankedOrdered(s[1..]);
      InsertOrdered(s[0], Ranked(s[1..]));
    }
  }

  lemma TailOf(r: seq<Candidate>)
    requires Ordered(r) && DistinctTargets(r) && AllClear(r) && r != []
    ensures Ordered(r[1..]) && DistinctTargets(r[1..]) && AllClear(r[1..])
    ensures multiset(r[1..]) == multiset(r) - multiset{r[0]}
  {
    assert r == [r[0]] + r[1..];
  }

  /** Two ordered arrangements of the same clear candidates are the same sequence, whatever sorted them. */
  lemma {:induction false} RankingUnique(r1: seq<Candidate>, r2: seq<Candidate>)
    requires Ordered(r1) && Ordered(r2) && DistinctTargets(r1) && DistinctTargets(r2) && AllClear(r1) && AllClear(r2)
    requires multiset(r1) == multiset(r2)
    ensures r1 == r2
  {
    hide Ordered, DistinctTargets, AllClear;
    SameLength(r1, r2);
    if r1 != [] {
      HeadsAgree(r1, r2);
      TailOf(r1);
      TailOf(r2);
      RankingUnique(r1[1..], r2[1..]);
      assert r1 == [r1[0]] + r1[1..] && r2 == [r2[0]] + r2[1..];
    }
  }

  lemma SameLength(r1: seq<Candidate>, r2: seq<Candidate>)
    requires multiset(r1) == multiset(r2)
    ensures |r1| == |r2|
  {
    assert |multiset(r1)| == |r1| && |multiset(r2)| == |r2|;
  }

  lemma HeadsAgree(r1: seq<Candidate>, r2: seq<Candidate>)
    requires r1 != [] && r2 != []
    requires Ordered(r1) && Ordered(r2) && DistinctTargets(r1) && AllClear(r1)
    requires multiset(r1) == multiset(r2)
    ensures r1[0] == r2[0]
  {
    hide Before, Clear;
    InMultiset(r1[0], r1);
    InMultiset(r1[0], r2);
    InMultiset(r2[0], r2);
    InMultiset(r2[0], r1);
    var i :| 0 <= i < |r1| && r1[i] == r2[0];
    var j :| 0 <= j < |r2| && r2[j] == r1[0];
    if i != 0 {
      assert !Before(r1[i], r1[0]);
      assert j == 0 || !Before(r2[j], r2[0]);
      BeforeIsStrictTotalOrder(r1[0], r2[0], r1[0]);
    }
  }

  lemma DistinctFromMultiset(s: seq<Candidate>, r: seq<Candidate>)
    requires DistinctTargets(s) && multiset(s) == multiset(r)
    ensures DistinctTargets(r)
  {
    SameLength(s, r);
    forall i, j | 0 <= i < j < |r| ensures r[i].target != r[j].target {
      InMultiset(r[i], r);
      InMultiset(r[j], r);
      InMultiset(r[i], s);
      InMultiset(r[j], s);
      if r[i].target == r[j].target {
        var a :| 0 <= a < |s| && s[a] == r[i];
        var b :| 0 <= b < |s| && s[b] == r[j];
        assert a == b;
        OnceEach(s, a);
        TwiceAt(r, i, j);
        assert false;
      }
    }
  }

  lemma OnceEach(s: seq<Candidate>, a: nat)
    requires DistinctTargets(s) && a < |s|
    ensures multiset(s)[s[a]] == 1
  {
    assert s == s[..a] + [s[a]] + s[a + 1..];
    assert s[a] !in s[..a] && s[a] !in s[a + 1..];
  }

  lemma TwiceAt(r: seq<Candidate>, i: nat, j: nat)
    requires i < j < |r| && r[i] == r[j]
    ensures multiset(r)[r[i]] >= 2
  {
    assert r == r[..j] + [r[j]] + r[j + 1..];
    assert r[i] in r[..j];
    assert multiset(r[..j])[r[i]] >= 1;
  }

  lemma ClearFromMultiset(s: seq<Candidate>, r: seq<Candidate>)
    requires DistinctTargets(s) && AllClear(s) && multiset(s) == multiset(r)
    ensures AllClear(r)
  {
    hide Clear;
    DistinctFromMultiset(s, r);
    forall i, j | 0 <= i < |r| && 0 <= j < |r| && i != j ensures Clear(r[i], r[j]) {
      InMultiset(r[i], r);
      InMultiset(r[j], r);
      InMultiset(r[i], s);
      InMultiset(r[j], s);
      var a :| 0 <= a < |s| && s[a] == r[i];
      var b :| 0 <= b < |s| && s[b] == r[j];
    }
  }

  /** Ranking is independent of the order in which clear candidates were collected. */
  lemma RankingIgnoresInputOrder(s: seq<Candidate>, t: seq<Candidate>)
    requires DistinctTargets(s) && AllClear(s) && multiset(s) == multiset(t)
    ensures Ranked(s) == Ranked(t)
  {
    hide DistinctTargets, AllClear, Ordered;
    ClearFromMultiset(s, Ranked(s));
    ClearFromMultiset(s, Ranked(t));
    RankedOrdered(s);
    RankedOrdered(t);
    DistinctFromMultiset(s, Ranked(s));
    DistinctFromMultiset(s, Ranked(t));
    RankingUnique(Ranked(s), Ranked(t));
  }

  /** The sort the planner calls: any ordered arrangement; by `RankingUnique` there is only one. */
  method RankCandidates(s: seq<Candidate>) returns (r: seq<Candidate>)
    ensures r == Ranked(s)
    ensures Ordered(r) && multiset(r) == multiset(s)
  {
    r := [];
    var i := |s|;
    while i > 0
      invariant 0 <= i <= |s|
      invariant r == Ranked(s[i..])
    {
      i := i - 1;
      assert s[i..][1..] == s[i + 1..];
      r := Insert(s[i], r);
    }
    assert s[0..] == s;
    RankedOrdered(s);
  }

  /** For two candidates that is the exact condition. */
  lemma TwoInEitherOrder(a: Candidate, b: Candidate)
    requires a.target != b.target
    ensures Ranked([a, b]) == Ranked([b, a]) <==> Clear(a, b)
  {
    hide Before, Clear;
    BeforeIsStrictTotalOrder(a, b, b);
    RankedTwo(a, b);
    RankedTwo(b, a);
    assert [a, b][0] == a && [b, a][0] == b;
  }

  lemma RankedTwo(a: Candidate, b: Candidate)
    ensures Ranked([a, b]) == if Before(a, b) then [a, b] else [b, a]
  {
    hide Before;
    assert [a, b][1..] == [b] && [b][1..] == [];
    assert Ranked([b]) == Insert(b, []) == [b];
  }

  /** No candidate precedes the front of the ranking, and the front precedes every one it is clear of. */
  lemma FrontIsLeast(s: seq<Candidate>, c: Candidate)
    requires DistinctTargets(s) && c in s
    ensures Ranked(s) != [] && Ranked(s)[0] in s
    ensures c == Ranked(s)[0] || (!Before(c, Ranked(s)[0]) && (Clear(Ranked(s)[0], c) ==> Before(Ranked(s)[0], c)))
  {
    hide Before, Clear;
    var r := Ranked(s);
    RankedOrdered(s);
    DistinctFromMultiset(s, r);
    InMultiset(c, s);
    InMultiset(c, r);
    InMultiset(r[0], r);
    InMultiset(r[0], s);
    var i :| 0 <= i < |r| && r[i] == c;
    if i != 0 {
      BeforeIsStrictTotalOrder(r[0], c, c);
    }
  }
}
