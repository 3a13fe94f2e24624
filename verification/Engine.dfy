/**
 The coordinator's operations as functions from a state to the next state and the caller's outcome.
 Every operation runs under one lock, so one function application is one atomic step.
 */
module Engine {
  import opened Types
  import opened Ordered
  import opened Planning
  import opened Digest

  const DEFAULT_BANDWIDTH_BPS: u64 := 40_000_000_000
  const DEFAULT_LATENCY_NS: u64 := 50_000
  const DEFAULT_POLICY_NAME: bytes := [100, 101, 102, 97, 117, 108, 116]  // "default"
  const WORKER_OWNER: bytes := [119, 111, 114, 107, 101, 114]             // "worker"

  // ---- Lifecycle classes ----

  /** A plan that can still be dispatched or completed. */
  predicate Live(l: Lifecycle) {
    l.PLANNED? || l.RESERVED? || l.DISPATCHED?
  }

  /** A plan whose work may be running on a worker. */
  predicate InFlight(l: Lifecycle) {
    l.DISPATCHED? || l.RUNNING? || l.VERIFYING?
  }

  /** The lifecycles that the active-plan index is rebuilt from. */
  predicate Active(l: Lifecycle) {
    !(l.COMMITTED? || l.FAILED? || l.CANCELLED? || l.SUPERSEDED? || l.FENCED?)
  }

  // ---- Construction and registration ----

  function DefaultPolicy(): Policy {
    Policy(1, 1, DEFAULT_POLICY_NAME, UNCONSTRAINED, [], 0, 0, true, 0, false)
  }

  function Initial(id: Id): State {
    State(id, 1, map[], map[], map[], map[], map[], map[], map[], map[], map[],
          map[1 := DefaultPolicy()], map[], map[], map[], map[], map[])
  }

  /** Nothing registered is ever replaced. */
  ghost predicate Extends<V>(m: map<Id, V>, n: map<Id, V>) {
    forall k | k in m :: k in n && n[k] == m[k]
  }

  /** The guard shared by the static registrations: a non-null identity that is not yet taken. */
  function Admission(id: Id, generation: Gen, taken: set<Id>): Outcome<()> {
    if id == 0 || generation == 0 then Err(E_ID_NULL)
    else if id in taken then Err(E_DUP)
    else Ok(())
  }

  function RegisterDomain(s: State, d: MemoryDomain): (r: (State, Outcome<()>))
    ensures r.0 == s.(domains := r.0.domains) && Extends(s.domains, r.0.domains)
  {
    var r := Admission(d.id, d.generation, s.domains.Keys);
    (if r.Ok? then s.(domains := s.domains[d.id := d]) else s, r)
  }

  function RegisterDataset(s: State, d: Dataset): (r: (State, Outcome<()>))
    ensures r.0 == s.(datasets := r.0.datasets) && Extends(s.datasets, r.0.datasets)
  {
    var r := Admission(d.id, d.generation, s.datasets.Keys);
    (if r.Ok? then s.(datasets := s.datasets[d.id := d]) else s, r)
  }

  function RegisterRegion(s: State, g: Region): (r: (State, Outcome<()>))
    ensures r.0 == s.(regions := r.0.regions) && Extends(s.regions, r.0.regions)
  {
    var r := Admission(g.id, g.generation, s.regions.Keys);
    (if r.Ok? then s.(regions := s.regions[g.id := g]) else s, r)
  }

  function RegisterProgram(s: State, p: Program): (r: (State, Outcome<()>))
    ensures r.0 == s.(programs := r.0.programs) && Extends(s.programs, r.0.programs)
  {
    var r := Admission(p.id, p.generation, s.programs.Keys);
    (if r.Ok? then s.(programs := s.programs[p.id := p]) else s, r)
  }

  function RegisterPolicy(s: State, p: Policy): (r: (State, Outcome<()>))
    ensures r.0 == s.(policies := r.0.policies) && Extends(s.policies, r.0.policies)
  {
    var r := if p.id == 0 || p.generation == 0 then Err(E_ID_NULL)
             else if p.id == 1 then Err(E_RESERVED)
             else Admission(p.id, p.generation, s.policies.Keys);
    (if r.Ok? then s.(policies := s.policies[p.id := p]) else s, r)
  }

  function CreateOperation(s: State, op: Operation): (r: (State, Outcome<()>))
    ensures r.0 == s.(operations := r.0.operations) && Extends(s.operations, r.0.operations)
  {
    var r := Admission(op.id, op.generation, s.operations.Keys);
    (if r.Ok? then s.(operations := s.operations[op.id := op]) else s, r)
  }

  // ---- Publications from workers ----

  function BindWorker(s: State, m: HelloMsg): (r: State)
    ensures r == s.(workers := r.workers)
  {
    s.(workers := s.workers[m.worker := Session(m.worker, m.boot, m.name, true)])
  }

  function TargetOf(m: RegisterTargetMsg): Target {
    Target(m.target, m.generation, m.provider, m.kind, m.name, [], 0, [],
           m.ops, m.dataTypes, m.layouts, m.maxInputBytes, m.alignment, m.concurrency,
           1, m.workspace, ACCESS_DIRECT, false, m.synthetic, false, false, false, WORKER_OWNER)
  }

  function NewRuntime(boot: Id): Runtime {
    Runtime(TL_REGISTERED, boot, false, 0, 0, Performance(0, 0, 0, 0), false)
  }

  function RegisterTarget(s: State, m: RegisterTargetMsg): (r: (State, Outcome<()>))
    ensures r.0 == s.(targets := r.0.targets, runtime := r.0.runtime)
    ensures s.targets.Keys <= r.0.targets.Keys && s.runtime.Keys <= r.0.runtime.Keys
  {
    if m.target == 0 || m.generation == 0 then (s, Err(E_ID_NULL))
    else
      (s.(targets := s.targets[m.target := TargetOf(m)],
          runtime := s.runtime[m.target := NewRuntime(m.ownerBoot)]), Ok(()))
  }

  /** A later entry for a key replaces an earlier one. */
  function EntryMap(entries: seq<CapabilityEntry>): map<bytes, Code> {
    if entries == [] then map[]
    else
      var last := entries[|entries| - 1];
      EntryMap(entries[..|entries| - 1])[last.key := last.state]
  }

  function PublishCapability(s: State, m: CapabilityMsg): (r: (State, Outcome<()>))
    ensures r.0 == s.(caps := r.0.caps) && s.caps.Keys <= r.0.caps.Keys
  {
    if m.target == 0 then (s, Err(E_ID_NULL))
    else if m.target !in s.targets then (s, Err(E_TARGET_UNKNOWN))
    else
      var cs := Capabilities(m.target, s.targets[m.target].generation, m.generation, EntryMap(m.entries),
                             m.evidenceGeneration, m.publisher, true);
      (s.(caps := s.caps[m.target := cs]), Ok(()))
  }

  function PublishEvidence(s: State, m: EvidenceMsg): (r: (State, Outcome<()>))
    ensures r.0 == s.(evidence := r.0.evidence) && s.evidence.Keys <= r.0.evidence.Keys
  {
    if m.region == 0 then (s, Err(E_ID_NULL))
    else
      var ev := Evidence(m.region, m.regionGeneration, m.datasetGeneration, m.memoryDomain,
                         m.memoryDomainGeneration, m.present, m.current, m.reachable, true, m.publisher);
      (s.(evidence := s.evidence[m.region := ev]), Ok(()))
  }

  function Beaten(rt: Runtime, m: HeartbeatMsg): Runtime {
    rt.(lifecycle := m.lifecycle, reachable := m.reachable, queueDepth := m.queueDepth,
        performance := Performance(m.latencyNs, m.throughputBps, rt.performance.setupNs, m.confidence),
        dynamicCurrent := true)
  }

  function Heartbeat(s: State, m: HeartbeatMsg): (r: (State, Outcome<()>))
    ensures r.0 == s.(runtime := r.0.runtime) && r.0.runtime.Keys == s.runtime.Keys
  {
    if m.target !in s.runtime then (s, Err(E_TARGET_UNKNOWN))
    else if s.runtime[m.target].lifecycle in {TL_RETIRED, TL_FAILED} then (s, Err(E_TARGET_TERMINAL))
    else (s.(runtime := s.runtime[m.target := Beaten(s.runtime[m.target], m)]), Ok(()))
  }

  // ---- The active-plan index ----

  function ActivePlansOf(plans: map<Id, Plan>, op: Id): set<Id> {
    set p | p in plans && Active(plans[p].lifecycle) && plans[p].operation == op
  }

  function Greatest(s: set<Id>): (m: Id)
    requires s != {}
    ensures m in s && forall y | y in s :: y <= m
  {
    var a := Ascending(s);
    assert a[|a| - 1] in s;
    a[|a| - 1]
  }

  function ActiveOperations(plans: map<Id, Plan>): (ops: set<Id>)
    ensures forall op :: op in ops <==> ActivePlansOf(plans, op) != {}
  {
    var ops := set p | p in plans && Active(plans[p].lifecycle) :: plans[p].operation;
    assert forall op | op in ops :: ActivePlansOf(plans, op) != {} by {
      forall op | op in ops ensures ActivePlansOf(plans, op) != {} {
        var p :| p in plans && Active(plans[p].lifecycle) && plans[p].operation == op;
        assert p in ActivePlansOf(plans, op);
      }
    }
    assert forall op | ActivePlansOf(plans, op) != {} :: op in ops by {
      forall op | ActivePlansOf(plans, op) != {} ensures op in ops {
        var p :| p in ActivePlansOf(plans, op);
      }
    }
    ops
  }

  /** What the rebuild loop leaves: for each operation with an active plan, the last one in key order. */
  function Index(plans: map<Id, Plan>): map<Id, Id> {
    map op | op in ActiveOperations(plans) :: plans[Greatest(ActivePlansOf(plans, op))].id
  }

  // ---- Planning ----

  function FilterInputFor(s: State, op: Operation, policy: Policy, t: Id): FilterInput
    requires t in s.targets && t in s.runtime && t in s.caps
  {
    FilterInput(
      s.targets[t], s.runtime[t], op,
      if op.region in s.evidence then Some(s.evidence[op.region]) else None,
      s.caps[t], StateOf(s.caps[t], OperationKey(op.opClass)),
      if op.program.Some? && op.program.value in s.programs then Some(s.programs[op.program.value]) else None,
      policy, Some(s.runtime[t].ownerBoot), Some(s.targets[t].generation))
  }

  predicate EligibleTarget(s: State, op: Operation, policy: Policy, t: Id) {
    && t in s.targets && t in s.runtime && t in s.caps
    && Eligible(FilterInputFor(s, op, policy, t))
  }

  function TransferOf(op: Operation): Transfer {
    Transfer(op.inputBytes, DEFAULT_BANDWIDTH_BPS, DEFAULT_LATENCY_NS, 0, 0, 0)
  }

  function ConventionalOf(op: Operation): Compute {
    Compute(op.inputBytes, 0, 0, op.outputBytes)
  }

  function NearOf(op: Operation, perf: Performance): Compute {
    Compute(perf.latencyNs, perf.setupNs, perf.latencyNs, op.outputBytes)
  }

  function CandidateFor(s: State, op: Operation, t: Id): Candidate
    requires t in s.targets && t in s.runtime
  {
    var perf := s.runtime[t].performance;
    var near := NearOf(op, perf);
    var econ := ChoosePath(TransferOf(op), ConventionalOf(op), near);
    Candidate(t, s.targets[t].generation, econ.decision, econ.movementAvoided, econ.nearTotal,
              Wrap(near.executionNs + near.setupNs + near.queueDelayNs), perf.confidence)
  }

  /** The candidates among the given target keys, in the order of the keys. */
  function Candidates(s: State, op: Operation, policy: Policy, keys: seq<Id>): seq<Candidate> {
    if keys == [] then []
    else
      var t := keys[|keys| - 1];
      var front := Candidates(s, op, policy, keys[..|keys| - 1]);
      if EligibleTarget(s, op, policy, t) then front + [CandidateFor(s, op, t)] else front
  }

  function RankedFor(s: State, op: Operation, policy: Policy): seq<Candidate> {
    Ranked(Candidates(s, op, policy, Ascending(s.targets.Keys)))
  }

  datatype PlanOutput = PlanOutput(decision: Code, ranked: seq<Candidate>, created: Option<Plan>)

  function SnapshotFor(s: State, op: Operation, t: Id): Snapshot
    requires t in s.targets && t in s.runtime && t in s.caps
  {
    Snapshot(
      s.epoch, s.runtime[t].ownerBoot, t, s.targets[t].generation,
      if op.region in s.evidence then s.evidence[op.region].memoryDomainGeneration else 1,
      op.datasetGeneration, op.regionGeneration, op.generation, op.programGeneration,
      s.caps[t].generation, op.policyGeneration, s.caps[t].evidenceGeneration, 1)
  }

  function PlanFor(s: State, op: Operation, t: Id, id: Id): Plan
    requires t in s.targets && t in s.runtime && t in s.caps
  {
    Plan(id, 1, Authority(SnapshotFor(s, op, t), id, 1), t, s.targets[t].generation,
         op.id, op.opClass, op.dataset, op.datasetGeneration, op.region, op.regionGeneration,
         PLANNED, 0, 0, None, None, op.retryClass, NEAR_MEMORY_SELECTED, [])
  }

  lemma CandidatesAreEligible(s: State, op: Operation, policy: Policy, keys: seq<Id>)
    ensures forall c | c in Candidates(s, op, policy, keys) ::
              c.target in keys && EligibleTarget(s, op, policy, c.target) && c == CandidateFor(s, op, c.target)
  {
  }

  function MakePlan(s: State, opId: Id, id: Id): (r: (State, Outcome<PlanOutput>))
    ensures r.0 == s.(plans := r.0.plans, active := r.0.active)
  {
    if opId !in s.operations then (s, Err(E_PLAN_OP))
    else
      var op := s.operations[opId];
      if op.policy !in s.policies then (s, Err(E_PLAN_POLICY))
      else if op.id in s.active then (s, Err(E_PLAN_ACTIVE))
      else
        var policy := s.policies[op.policy];
        var ranked := RankedFor(s, op, policy);
        if ranked == [] then
          (s, Ok(PlanOutput(if policy.outcome == NEAR_MEMORY_REQUIRED then REJECT else MOVEMENT_REQUIRED, ranked,
                            None)))
        else if ranked[0].decision != NEAR_MEMORY_SELECTED then
          (s, Ok(PlanOutput(ranked[0].decision, ranked, None)))
        else
          var t := ranked[0].target;
          BestIsEligible(s, op, policy);
          var plan := PlanFor(s, op, t, id);
          (s.(plans := s.plans[id := plan], active := s.active[op.id := id]),
           Ok(PlanOutput(NEAR_MEMORY_SELECTED, ranked, Some(plan))))
  }

  lemma BestIsEligible(s: State, op: Operation, policy: Policy)
    requires RankedFor(s, op, policy) != []
    ensures var best := RankedFor(s, op, policy)[0];
            EligibleTarget(s, op, policy, best.target) && best == CandidateFor(s, op, best.target)
  {
    var cands := Candidates(s, op, policy, Ascending(s.targets.Keys));
    var best := Ranked(cands)[0];
    assert best in multiset(Ranked(cands));
    assert best in multiset(cands);
    CandidatesAreEligible(s, op, policy, Ascending(s.targets.Keys));
  }

  /** What eligibility tells about the maps. */
  lemma EligibleIsKnown(s: State, op: Operation, policy: Policy, t: Id)
    requires EligibleTarget(s, op, policy, t)
    ensures t in s.targets && t in s.runtime && t in s.caps
    ensures op.region in s.evidence && (op.program.Some? ==> op.program.value in s.programs)
  {
  }

  predicate Creates(s: State, opId: Id, id: Id) {
    MakePlan(s, opId, id).1.Ok? && MakePlan(s, opId, id).1.value.created.Some?
  }

  /** A created plan is for an eligible target; planning without one leaves the state alone. */
  lemma Created(s: State, opId: Id, id: Id) returns (t: Id)
    ensures !Creates(s, opId, id) ==> MakePlan(s, opId, id).0 == s
    ensures Creates(s, opId, id) ==>
              && opId in s.operations && s.operations[opId].policy in s.policies
              && s.operations[opId].id !in s.active
              && t in s.targets && t in s.runtime && t in s.caps
              && EligibleTarget(s, s.operations[opId], s.policies[s.operations[opId].policy], t)
              && MakePlan(s, opId, id).0 ==
                 s.(plans := s.plans[id := PlanFor(s, s.operations[opId], t, id)],
                    active := s.active[s.operations[opId].id := id])
  {
    hide RankedFor, PlanFor, EligibleTarget, CandidateFor;
    t := 0;
    if Creates(s, opId, id) {
      var op := s.operations[opId];
      var policy := s.policies[op.policy];
      BestIsEligible(s, op, policy);
      t := RankedFor(s, op, policy)[0].target;
      EligibleIsKnown(s, op, policy, t);
    }
  }

  // ---- Reservation and dispatch ----

  predicate Draining(l: Code) {
    l in {TL_DRAINING, TL_DEGRADED, TL_REVALIDATION_REQUIRED}
  }

  function OperationWorkspace(s: State, op: Id): u64 {
    if op in s.operations then s.operations[op].workspaceBytes else 0
  }

  function ReservationOf(s: State, t: Id): Reservation {
    if t in s.reservations then s.reservations[t] else Reservation(0, 0)
  }

  /** A default-constructed definition, which looking up a missing one leaves behind. */
  function DefaultTarget(): Target {
    Target(0, 0, 2, 10, [], [], 0, [], [], [], [], 0, 1, 1, 1, 0, ACCESS_DIRECT, false, true, false, false, false, [])
  }

  function WithDefinition(s: State, t: Id): (r: State)
    ensures r == s.(targets := r.targets) && t in r.targets && s.targets.Keys <= r.targets.Keys
  {
    if t in s.targets then s else s.(targets := s.targets[t := DefaultTarget()])
  }

  function AdmissionCheck(s: State, plan: Plan): Outcome<()>
    requires plan.target in s.runtime && plan.target in s.targets
  {
    var rs, target := ReservationOf(s, plan.target), s.targets[plan.target];
    if rs.slots >= target.concurrencyCapacity then Err(E_CONCURRENCY)
    else if rs.workspace > target.workspaceBytes then Err(E_WORKSPACE)
    else if Draining(s.runtime[plan.target].lifecycle) then Err(E_DRAIN)
    else if Wrap(rs.workspace + OperationWorkspace(s, plan.operation)) > target.workspaceBytes then Err(E_WORKSPACE)
    else Ok(())
  }

  /** Looking the reservation up creates it, so even a refused admission leaves an entry behind. */
  function Admit(s: State, plan: Plan): (r: (State, Outcome<()>))
    requires plan.target in s.runtime && plan.target in s.targets
    ensures r.0 == s.(plans := r.0.plans, reservations := r.0.reservations)
  {
    var rs, check := ReservationOf(s, plan.target), AdmissionCheck(s, plan);
    if check.Err? then (s.(reservations := s.reservations[plan.target := rs]), check)
    else
      var ws := OperationWorkspace(s, plan.operation);
      (s.(plans := s.plans[plan.id := plan.(lifecycle := RESERVED, reservedSlots := 1, reservedWorkspace := ws)],
          reservations := s.reservations[plan.target := Reservation(Wrap(rs.slots + 1), Wrap(rs.workspace + ws))]),
       Ok(()))
  }

  function Reserve(s: State, p: Id): (r: (State, Outcome<()>))
    ensures r.0 == s.(plans := r.0.plans, reservations := r.0.reservations, targets := r.0.targets)
    ensures s.targets.Keys <= r.0.targets.Keys
  {
    if p !in s.plans then (s, Err(E_PLAN_NOT_FOUND))
    else if s.plans[p].lifecycle != PLANNED then (s, Err(E_PLAN_STATE))
    else if s.plans[p].target !in s.runtime then (s, Err(E_TARGET_UNKNOWN))
    else Admit(WithDefinition(s, s.plans[p].target), s.plans[p])
  }

  /** The staleness check: every lookup that finds an entry must find the pinned generation. */
  predicate Fresh(s: State, plan: Plan) {
    var snap := plan.authority.snapshot;
    && s.epoch == snap.epoch
    && (plan.target in s.runtime ==>
          s.runtime[plan.target].ownerBoot == snap.workerBoot && s.runtime[plan.target].dynamicCurrent)
    && (plan.target in s.targets ==> s.targets[plan.target].generation == snap.targetGeneration)
    && (plan.dataset in s.datasets ==> s.datasets[plan.dataset].generation == snap.datasetGeneration)
    && (plan.region in s.regions ==> s.regions[plan.region].generation == snap.regionGeneration)
    && (plan.target in s.caps ==>
          && s.caps[plan.target].generation == snap.capabilityGeneration
          && s.caps[plan.target].evidenceGeneration == snap.evidenceGeneration
          && s.caps[plan.target].dynamicCurrent)
    && (plan.region in s.evidence ==>
          s.evidence[plan.region].dynamicCurrent && s.evidence[plan.region].datasetGeneration == snap.datasetGeneration)
    && FreshOperation(s, plan)
  }

  predicate FreshOperation(s: State, plan: Plan) {
    var snap := plan.authority.snapshot;
    plan.operation in s.operations ==>
      var op := s.operations[plan.operation];
      && op.generation == snap.operationGeneration
      && (op.policy in s.policies ==> s.policies[op.policy].generation == snap.policyGeneration)
      && (snap.programGeneration.Some? && op.program.Some? && op.program.value in s.programs ==>
            s.programs[op.program.value].generation == snap.programGeneration.value)
  }

  function SessionsOf(s: State, boot: Id): set<Id> {
    set w | w in s.workers && s.workers[w].boot == boot
  }

  datatype DispatchOutput = DispatchOutput(worker: Id, message: DispatchMsg)

  function DispatchFor(s: State, plan: Plan, op: Operation, boot: Id, d: Id, a: Id, payload: bytes): DispatchMsg {
    DispatchMsg(
      plan.id, plan.generation, d, a, plan.target, plan.targetGeneration, boot, s.epoch,
      plan.datasetGeneration, plan.regionGeneration, op.generation,
      if op.program.Some? then Some(op.programGeneration.GetOr(1)) else None,
      op.opClass, op.shape.dataType, op.retryClass,
      op.retryClass == IDEMPOTENT || op.retryClass == REPLAY_SAFE,
      op.integrity == CHECKED || op.integrity == STRICT,
      payload)
  }

  /** A stale plan is superseded on the spot; a fresh one has the dispatch and attempt bound to it. */
  function PrepareDispatch(s: State, p: Id, d: Id, a: Id, payload: bytes): (r: (State, Outcome<DispatchOutput>))
    ensures r.0 == s.(plans := r.0.plans)
  {
    if p !in s.plans then (s, Err(E_PLAN_NOT_FOUND))
    else if s.plans[p].lifecycle != RESERVED then (s, Err(E_PLAN_STATE))
    else
      var plan := s.plans[p];
      if !Fresh(s, plan) then (s.(plans := s.plans[p := plan.(lifecycle := SUPERSEDED)]), Err(E_STALE_PLAN))
      else if plan.operation !in s.operations then (s, Err(E_PLAN_OP))
      else if plan.target !in s.runtime then (s, Err(E_TARGET_UNKNOWN))
      else
        var boot := s.runtime[plan.target].ownerBoot;
        if SessionsOf(s, boot) == {} then (s, Err(E_WORKER_UNKNOWN))
        else
          var msg := DispatchFor(s, plan, s.operations[plan.operation], boot, d, a, payload);
          (s.(plans := s.plans[p := plan.(dispatchId := Some(d), attemptId := Some(a))]),
           Ok(DispatchOutput(Least(SessionsOf(s, boot)), msg)))
  }

  function ConfirmDispatched(s: State, p: Id, d: Id): (r: (State, Outcome<()>))
    ensures r.0 == s.(plans := r.0.plans)
  {
    if p !in s.plans then (s, Err(E_PLAN_NOT_FOUND))
    else if s.plans[p].dispatchId != Some(d) then (s, Err(E_DISPATCH_MISMATCH))
    else if s.plans[p].lifecycle != RESERVED then (s, Err(E_PLAN_STATE))
    else (s.(plans := s.plans[p := s.plans[p].(lifecycle := DISPATCHED)]), Ok(()))
  }

  // ---- Completion ----

  /** The pinned dimensions a completion must reproduce; the target id is not among them. */
  predicate CompletionMatches(m: ResultMsg, authority: Authority) {
    && m.plan == authority.plan
    && m.planGen == authority.planGeneration
    && m.targetGen == authority.snapshot.targetGeneration
    && m.workerBoot == authority.snapshot.workerBoot
    && m.epoch == authority.snapshot.epoch
    && m.datasetGen == authority.snapshot.datasetGeneration
    && m.regionGen == authority.snapshot.regionGeneration
    && m.operationGen == authority.snapshot.operationGeneration
  }

  /** Every check a completion passes before any state is touched. */
  function CompletionGuard(s: State, m: ResultMsg): Outcome<()> {
    if m.plan !in s.plans then Err(E_RESULT_PLAN)
    else
      var plan := s.plans[m.plan];
      var l := plan.lifecycle;
      if l.COMMITTED? then Err(E_RESULT_DUP)
      else if l.CANCELLED? || l.FENCED? || l.SUPERSEDED? then Err(E_RESULT_STALE)
      else if !InFlight(l) then Err(E_RESULT_STATE)
      else if m.epoch != s.epoch then Err(E_RESULT_STALE)
      else if m.target in s.targets && s.targets[m.target].generation != m.targetGen then Err(E_RESULT_STALE)
      else if m.target in s.runtime && s.runtime[m.target].ownerBoot != m.workerBoot then Err(E_RESULT_STALE)
      else if !CompletionMatches(m, plan.authority) then Err(E_RESULT_STALE)
      else if plan.dispatchId != Some(m.dispatch) then Err(E_DISPATCH_MISMATCH)
      else if plan.attemptId != Some(m.attempt) then Err(E_ATTEMPT_MISMATCH)
      else Ok(())
  }

  datatype Verdict = Unknown | Corrupt | Intact

  function VerdictOf(m: ResultMsg): Verdict {
    if m.unknown then Unknown
    else if HexDigest(m.output) == m.outputDigest then Intact
    else Corrupt
  }

  function ResultFor(m: ResultMsg, id: Id, v: Verdict): ExecResult {
    ExecResult(
      id, m.resultGen, m.plan, m.planGen, m.dispatch, m.attempt, m.target, m.targetGen, m.workerBoot, m.epoch,
      m.datasetGen, m.regionGen, m.operationGen,
      match v case Unknown => VERIFY_UNKNOWN case Corrupt => MISMATCH case Intact => VERIFIED,
      if v.Unknown? then [] else m.outputDigest,
      Wrap(|m.output|), v.Intact?, v.Unknown?, m.note)
  }

  function LifecycleAfter(v: Verdict): Lifecycle {
    match v case Unknown => OUTCOME_UNKNOWN case Corrupt => FAILED case Intact => COMMITTED
  }

  /** The guarded decrement used when a slot is given back. */
  function Released(s: State, plan: Plan): map<Id, Reservation> {
    if plan.target !in s.reservations then s.reservations
    else
      var rs := s.reservations[plan.target];
      s.reservations[plan.target := Reservation(
        if rs.slots > 0 then rs.slots - 1 else rs.slots,
        if rs.workspace >= plan.reservedWorkspace then rs.workspace - plan.reservedWorkspace else rs.workspace)]
  }

  function ApplyResult(s: State, m: ResultMsg, id: Id): (r: (State, Outcome<ExecResult>))
    ensures r.0 == s.(plans := r.0.plans, active := r.0.active, results := r.0.results,
                      reservations := r.0.reservations)
  {
    var guard := CompletionGuard(s, m);
    if guard.Err? then (s, Err(guard.code))
    else
      var plan := s.plans[m.plan];
      var v := VerdictOf(m);
      var res := ResultFor(m, id, v);
      (s.(plans := s.plans[m.plan := plan.(lifecycle := LifecycleAfter(v))],
          active := s.active - {plan.operation},
          results := s.results[id := res],
          reservations := if v.Intact? then Released(s, plan) else s.reservations),
       Ok(res))
  }

  // ---- Lifecycle and failure handling ----

  function BeginDrain(s: State, t: Id): (r: (State, Outcome<()>))
    ensures r.0 == s.(runtime := r.0.runtime) && r.0.runtime.Keys == s.runtime.Keys
  {
    if t !in s.runtime then (s, Err(E_TARGET_UNKNOWN))
    else if s.runtime[t].lifecycle in {TL_RETIRED, TL_FAILED} then (s, Err(E_TARGET_STATE))
    else (s.(runtime := s.runtime[t := s.runtime[t].(lifecycle := TL_DRAINING)]), Ok(()))
  }

  function CancelPlan(s: State, p: Id): (r: (State, Outcome<()>))
    ensures r.0 == s.(plans := r.0.plans, active := r.0.active, reservations := r.0.reservations)
  {
    if p !in s.plans then (s, Err(E_PLAN_NOT_FOUND))
    else if !Active(s.plans[p].lifecycle) then (s, Err(E_PLAN_STATE))
    else
      var plan := s.plans[p];
      (s.(plans := s.plans[p := plan.(lifecycle := CANCELLED)],
          active := s.active - {plan.operation},
          reservations := Released(s, plan)), Ok(()))
  }

  function Revoked(rt: Runtime): Runtime {
    rt.(dynamicCurrent := false, reachable := false, lifecycle := TL_REVALIDATION_REQUIRED)
  }

  function Withdrawn(cs: Capabilities): Capabilities {
    cs.(dynamicCurrent := false)
  }

  function Stale(ev: Evidence): Evidence {
    ev.(dynamicCurrent := false)
  }

  function FencedPlan(plan: Plan): Plan {
    plan.(lifecycle := if InFlight(plan.lifecycle) then OUTCOME_UNKNOWN else FENCED)
  }

  function Reindexed(s: State): State {
    s.(active := Index(s.plans))
  }

  /** Everything a worker incarnation vouched for loses its authority, and its open plans are closed. */
  function FenceWorker(s: State, boot: Id): (r: State)
    ensures r == s.(runtime := r.runtime, caps := r.caps, evidence := r.evidence, plans := r.plans, active := r.active)
    ensures r.runtime.Keys == s.runtime.Keys && r.caps.Keys == s.caps.Keys && r.evidence.Keys == s.evidence.Keys
  {
    Reindexed(s.(
      runtime := Mapped(s.runtime, (rt: Runtime) => if rt.ownerBoot == boot then Revoked(rt) else rt),
      caps := Mapped(s.caps, (cs: Capabilities) => if cs.publisher == boot then Withdrawn(cs) else cs),
      evidence := Mapped(s.evidence, (ev: Evidence) => if ev.publisher == boot then Stale(ev) else ev),
      plans := Mapped(s.plans, (plan: Plan) =>
        if plan.authority.snapshot.workerBoot == boot && Active(plan.lifecycle) then FencedPlan(plan) else plan)))
  }

  function Disconnect(s: State, boot: Id): (r: State)
    ensures r == FenceWorker(s, boot).(workers := r.workers)
  {
    FenceWorker(s, boot).(workers := Mapped(s.workers, (session: Session) =>
      if session.boot == boot then session.(connected := false) else session))
  }

  function RetireTarget(s: State, t: Id): (r: (State, Outcome<()>))
    ensures r.0 == s.(runtime := r.0.runtime, plans := r.0.plans, active := r.0.active)
    ensures r.0.runtime.Keys == s.runtime.Keys
  {
    if t !in s.runtime then (s, Err(E_TARGET_UNKNOWN))
    else
      (Reindexed(s.(
        runtime := s.runtime[t := s.runtime[t].(lifecycle := TL_RETIRED, reachable := false, dynamicCurrent := false)],
        plans := Mapped(s.plans, (plan: Plan) =>
          if plan.target == t && Active(plan.lifecycle) then plan.(lifecycle := FENCED) else plan))), Ok(()))
  }

  function EpochClosed(plan: Plan): Plan {
    if plan.lifecycle.COMMITTED? then plan
    else plan.(lifecycle := if InFlight(plan.lifecycle) then OUTCOME_UNKNOWN else SUPERSEDED)
  }

  /** A new epoch invalidates all dynamic authority and closes every plan that has not committed. */
  function AdvanceEpoch(s: State): (r: State)
    ensures r == s.(epoch := r.epoch, runtime := r.runtime, caps := r.caps, evidence := r.evidence,
                  plans := r.plans, active := r.active)
    ensures r.runtime.Keys == s.runtime.Keys && r.caps.Keys == s.caps.Keys && r.evidence.Keys == s.evidence.Keys
  {
    Reindexed(s.(
      epoch := Wrap(s.epoch + 1),
      runtime := Mapped(s.runtime, Revoked),
      caps := Mapped(s.caps, Withdrawn),
      evidence := Mapped(s.evidence, Stale),
      plans := Mapped(s.plans, EpochClosed)))
  }

  // ---- Persistence, on values ----

  /** A program generation is written only with a program. */
  function DurableOperation(op: Operation): Operation {
    if op.program.None? then op.(programGeneration := None) else op
  }

  /** The authority record is rebuilt from the plan's own identity. */
  function DurablePlan(plan: Plan): Plan {
    plan.(authority := Authority(plan.authority.snapshot, plan.id, plan.generation))
  }

  /** What a save keeps: no dynamic evidence, no sessions, no reservations, no index. */
  function Project(s: State): State {
    s.(evidence := map[], runtime := map[], caps := map[], active := map[], reservations := map[], workers := map[],
       operations := Mapped(s.operations, DurableOperation), plans := Mapped(s.plans, DurablePlan))
  }

  /** Conservative recovery, applied to a decoded state. */
  function Recover(d: State): State {
    AdvanceEpoch(d).(reservations := map[], workers := map[])
  }
}
