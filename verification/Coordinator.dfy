/**
 The coordinator object: methods that update its maps in place, loop by loop, each proved to take the step that
 `Engine` specifies.
 */
module Coordinator {
  import opened Types
  import opened Ordered
  import opened Planning
  import opened Digest
  import opened Engine
  import opened Results

  // ---- Loops over sorted maps ----

  /** Visit every entry in key order and replace it. */
  method Sweep<V>(m: map<Id, V>, f: V -> V) returns (r: map<Id, V>)
    ensures r.Keys == m.Keys && forall k | k in m :: r[k] == f(m[k])
  {
    r := m;
    var todo := m.Keys;
    while todo != {}
      invariant todo <= m.Keys && r.Keys == m.Keys
      invariant forall k | k in m :: r[k] == if k in todo then m[k] else f(m[k])
      decreases |todo|
    {
      var k := Least(todo);
      r := r[k := f(r[k])];
      todo := todo - {k};
    }
  }

  lemma ActiveGrows(plans: map<Id, Plan>, p: Id, plan: Plan, op: Id)
    requires p !in plans
    ensures ActivePlansOf(plans[p := plan], op) ==
            if Active(plan.lifecycle) && plan.operation == op then ActivePlansOf(plans, op) + {p}
            else ActivePlansOf(plans, op)
  {
  }

  lemma GreatestAdded(plans: map<Id, Plan>, p: Id, op: Id)
    requires forall q | q in plans :: q < p
    ensures Greatest(ActivePlansOf(plans, op) + {p}) == p
  {
  }

  lemma GreatestKnown(plans: map<Id, Plan>, op: Id)
    requires op in ActiveOperations(plans)
    ensures ActivePlansOf(plans, op) != {} && Greatest(ActivePlansOf(plans, op)) in plans
  {
  }

  /** Scanning one more plan, with a larger key than all before, overwrites the entry of its operation. */
  lemma IndexGrows(plans: map<Id, Plan>, p: Id, plan: Plan)
    requires forall q | q in plans :: q < p
    ensures Index(plans[p := plan]) ==
            if Active(plan.lifecycle) then Index(plans)[plan.operation := plan.id] else Index(plans)
  {
    hide Greatest, ActivePlansOf, ActiveOperations, Active;
    forall op ensures ActivePlansOf(plans[p := plan], op) ==
                      if Active(plan.lifecycle) && plan.operation == op then ActivePlansOf(plans, op) + {p}
                      else ActivePlansOf(plans, op)
    {
      ActiveGrows(plans, p, plan, op);
    }
    GreatestAdded(plans, p, plan.operation);
    forall op | op in ActiveOperations(plans) ensures Greatest(ActivePlansOf(plans, op)) in plans {
      GreatestKnown(plans, op);
    }
  }

  function Scanned(plans: map<Id, Plan>, todo: set<Id>): map<Id, Plan> {
    plans - todo
  }

  method RebuildIndex(plans: map<Id, Plan>) returns (active: map<Id, Id>)
    ensures active == Index(plans)
  {
    hide Index, Active;
    active := map[];
    var todo := plans.Keys;
    assert Scanned(plans, todo) == map[];
    EmptyIndex();
    while todo != {}
      invariant todo <= plans.Keys
      invariant forall p, q | p in plans && p !in todo && q in todo :: p < q
      invariant active == Index(Scanned(plans, todo))
      decreases |todo|
    {
      var p := Least(todo);
      IndexGrows(Scanned(plans, todo), p, plans[p]);
      assert Scanned(plans, todo - {p}) == Scanned(plans, todo)[p := plans[p]];
      if Active(plans[p].lifecycle) {
        active := active[plans[p].operation := plans[p].id];
      }
      todo := todo - {p};
    }
    assert Scanned(plans, todo) == plans;
  }

  lemma EmptyIndex()
    ensures Index(map[]) == map[]
  {
    assert forall op :: ActivePlansOf(map[], op) == {};
  }

  /** The first session of a worker incarnation, in key order. */
  method FindSession(workers: map<Id, Session>, boot: Id) returns (found: Option<Id>)
    ensures found.Some? <==> exists w :: w in workers && workers[w].boot == boot
    ensures found.Some? ==> found.value in workers && workers[found.value].boot == boot
    ensures found.Some? ==> forall w | w in workers && workers[w].boot == boot :: found.value <= w
  {
    var todo := workers.Keys;
    while todo != {}
      invariant todo <= workers.Keys
      invariant forall w, v | w in workers && w !in todo && v in todo :: w < v
      invariant forall w | w in workers && w !in todo :: workers[w].boot != boot
      decreases |todo|
    {
      var w := Least(todo);
      if workers[w].boot == boot {
        return Some(w);
      }
      todo := todo - {w};
    }
    found := None;
  }

  /** The capability entries of a message, later ones replacing earlier ones. */
  method CollectEntries(entries: seq<CapabilityEntry>) returns (m: map<bytes, Code>)
    ensures m == EntryMap(entries)
  {
    m := map[];
    for i := 0 to |entries|
      invariant m == EntryMap(entries[..i])
    {
      assert entries[..i + 1][..i] == entries[..i];
      m := m[entries[i].key := entries[i].state];
    }
    assert entries[..|entries|] == entries;
  }

  /** A target is a candidate if it has a runtime and capabilities and no reason speaks against it. */
  method Consider(s: State, op: Operation, policy: Policy, t: Id) returns (ok: bool)
    requires t in s.targets
    ensures ok == EligibleTarget(s, op, policy, t)
  {
    hide Eligible;
    if t !in s.runtime || t !in s.caps {
      return false;
    }
    var reasons := HardFilter(FilterInputFor(s, op, policy, t));
    ok := reasons == [];
  }

  lemma CandidatesNext(s: State, op: Operation, policy: Policy, keys: seq<Id>, i: nat)
    requires i < |keys|
    ensures Candidates(s, op, policy, keys[..i + 1]) ==
            Candidates(s, op, policy, keys[..i]) +
            if EligibleTarget(s, op, policy, keys[i]) then [CandidateFor(s, op, keys[i])] else []
  {
    hide Eligible, CandidateFor;
    assert keys[..i + 1][..i] == keys[..i];
  }

  /** Filter, cost and collect the targets in key order. */
  method CollectCandidates(s: State, op: Operation, policy: Policy) returns (cands: seq<Candidate>)
    ensures cands == Candidates(s, op, policy, Ascending(s.targets.Keys))
  {
    hide EligibleTarget, CandidateFor, Candidates, Ascending;
    var keys := Ascending(s.targets.Keys);
    cands := [];
    NoCandidates(s, op, policy);
    for i := 0 to |keys|
      invariant cands == Candidates(s, op, policy, keys[..i])
    {
      CandidatesNext(s, op, policy, keys, i);
      assert keys[i] in s.targets.Keys;
      var ok := Consider(s, op, policy, keys[i]);
      if ok {
        EligibleIsKnown(s, op, policy, keys[i]);
        cands := cands + [CandidateFor(s, op, keys[i])];
      }
    }
    assert keys[..|keys|] == keys;
  }

  lemma NoCandidates(s: State, op: Operation, policy: Policy)
    ensures Candidates(s, op, policy, []) == []
  {
  }

  // ---- Staleness, dimension by dimension ----

  datatype Dimension =
    | EPOCH | WORKER_BOOT | TARGET_GENERATION | DATASET_GENERATION | REGION_GENERATION | OPERATION_GENERATION
    | CAPABILITY_GENERATION | PROGRAM_GENERATION | POLICY_GENERATION | EVIDENCE_GENERATION
    | TARGET_DYNAMIC | CAPABILITY_DYNAMIC | DATA_DYNAMIC | PLAN_IDENTITY | PLAN_GENERATION

  /** The dimensions in which a plan is out of date; a lookup that finds nothing raises no objection. */
  predicate Stale(s: State, plan: Plan, d: Dimension) {
    var snap := plan.authority.snapshot;
    match d
    case EPOCH => s.epoch != snap.epoch
    case WORKER_BOOT => plan.target in s.runtime && s.runtime[plan.target].ownerBoot != snap.workerBoot
    case TARGET_GENERATION => plan.target in s.targets && s.targets[plan.target].generation != snap.targetGeneration
    case DATASET_GENERATION =>
      || (plan.dataset in s.datasets && s.datasets[plan.dataset].generation != snap.datasetGeneration)
      || (plan.region in s.evidence && s.evidence[plan.region].datasetGeneration != snap.datasetGeneration)
    case REGION_GENERATION => plan.region in s.regions && s.regions[plan.region].generation != snap.regionGeneration
    case OPERATION_GENERATION =>
      plan.operation in s.operations && s.operations[plan.operation].generation != snap.operationGeneration
    case CAPABILITY_GENERATION => plan.target in s.caps && s.caps[plan.target].generation != snap.capabilityGeneration
    case PROGRAM_GENERATION =>
      && snap.programGeneration.Some? && plan.operation in s.operations
      && s.operations[plan.operation].program.Some? && s.operations[plan.operation].program.value in s.programs
      && s.programs[s.operations[plan.operation].program.value].generation != snap.programGeneration.value
    case POLICY_GENERATION =>
      && plan.operation in s.operations && s.operations[plan.operation].policy in s.policies
      && s.policies[s.operations[plan.operation].policy].generation != snap.policyGeneration
    case EVIDENCE_GENERATION =>
      plan.target in s.caps && s.caps[plan.target].evidenceGeneration != snap.evidenceGeneration
    case TARGET_DYNAMIC => plan.target in s.runtime && !s.runtime[plan.target].dynamicCurrent
    case CAPABILITY_DYNAMIC => plan.target in s.caps && !s.caps[plan.target].dynamicCurrent
    case DATA_DYNAMIC => plan.region in s.evidence && !s.evidence[plan.region].dynamicCurrent
    case PLAN_IDENTITY => false
    case PLAN_GENERATION => false
  }

  lemma FreshIsNotStale(s: State, plan: Plan)
    ensures Fresh(s, plan) <==> forall d :: !Stale(s, plan, d)
  {
    if forall d :: !Stale(s, plan, d) {
      assert !Stale(s, plan, EPOCH) && !Stale(s, plan, WORKER_BOOT) && !Stale(s, plan, TARGET_GENERATION);
      assert !Stale(s, plan, DATASET_GENERATION) && !Stale(s, plan, REGION_GENERATION);
      assert !Stale(s, plan, OPERATION_GENERATION) && !Stale(s, plan, CAPABILITY_GENERATION);
      assert !Stale(s, plan, PROGRAM_GENERATION) && !Stale(s, plan, POLICY_GENERATION);
      assert !Stale(s, plan, EVIDENCE_GENERATION) && !Stale(s, plan, TARGET_DYNAMIC);
      assert !Stale(s, plan, CAPABILITY_DYNAMIC) && !Stale(s, plan, DATA_DYNAMIC);
    }
  }

  method StaleAuthority(s: State, plan: Plan) returns (reasons: seq<Dimension>)
    ensures forall d :: d in reasons <==>
              || (d in {EPOCH, WORKER_BOOT, TARGET_GENERATION, REGION_GENERATION} && Stale(s, plan, d))
              || (d == DATASET_GENERATION && plan.dataset in s.datasets
                  && s.datasets[plan.dataset].generation != plan.authority.snapshot.datasetGeneration)
  {
    hide Noting;
    var snap := plan.authority.snapshot;
    reasons := Noting([], s.epoch != snap.epoch, EPOCH);
    reasons := Noting(reasons, plan.target in s.runtime && s.runtime[plan.target].ownerBoot != snap.workerBoot,
                      WORKER_BOOT);
    reasons := Noting(reasons, plan.target in s.targets && s.targets[plan.target].generation != snap.targetGeneration,
                      TARGET_GENERATION);
    reasons := Noting(reasons,
                      plan.dataset in s.datasets && s.datasets[plan.dataset].generation != snap.datasetGeneration,
                      DATASET_GENERATION);
    reasons := Noting(reasons, plan.region in s.regions && s.regions[plan.region].generation != snap.regionGeneration,
                      REGION_GENERATION);
  }

  method StaleDefinitions(s: State, plan: Plan) returns (reasons: seq<Dimension>)
    ensures forall d :: d in reasons <==> d in {OPERATION_GENERATION, CAPABILITY_GENERATION} && Stale(s, plan, d)
  {
    hide Noting;
    var snap := plan.authority.snapshot;
    reasons := Noting([], plan.operation in s.operations
                          && s.operations[plan.operation].generation != snap.operationGeneration, OPERATION_GENERATION);
    reasons := Noting(reasons, plan.target in s.caps && s.caps[plan.target].generation != snap.capabilityGeneration,
                      CAPABILITY_GENERATION);
  }

  method StaleBindings(s: State, plan: Plan) returns (reasons: seq<Dimension>)
    ensures forall d :: d in reasons <==> d in {PROGRAM_GENERATION, POLICY_GENERATION} && Stale(s, plan, d)
  {
    hide Noting;
    var snap := plan.authority.snapshot;
    reasons := [];
    if plan.operation in s.operations {
      var op := s.operations[plan.operation];
      if snap.programGeneration.Some? && op.program.Some? {
        var p := op.program.value;
        reasons := Noting(reasons, p in s.programs && s.programs[p].generation != snap.programGeneration.value,
                          PROGRAM_GENERATION);
      }
      reasons := Noting(reasons, op.policy in s.policies && s.policies[op.policy].generation != snap.policyGeneration,
                        POLICY_GENERATION);
    }
  }

  method StaleEvidence(s: State, plan: Plan) returns (reasons: seq<Dimension>)
    ensures forall d :: d in reasons <==>
              || (d in {EVIDENCE_GENERATION, TARGET_DYNAMIC, CAPABILITY_DYNAMIC, DATA_DYNAMIC} && Stale(s, plan, d))
              || (d == DATASET_GENERATION && plan.region in s.evidence
                  && s.evidence[plan.region].datasetGeneration != plan.authority.snapshot.datasetGeneration)
  {
    hide Noting;
    var snap := plan.authority.snapshot;
    reasons := Noting([], plan.target in s.caps && s.caps[plan.target].evidenceGeneration != snap.evidenceGeneration,
                      EVIDENCE_GENERATION);
    reasons := Noting(reasons, plan.target in s.runtime && !s.runtime[plan.target].dynamicCurrent, TARGET_DYNAMIC);
    reasons := Noting(reasons, plan.target in s.caps && !s.caps[plan.target].dynamicCurrent, CAPABILITY_DYNAMIC);
    if plan.region in s.evidence {
      var ev := s.evidence[plan.region];
      reasons := Noting(reasons, !ev.dynamicCurrent, DATA_DYNAMIC);
      reasons := Noting(reasons, ev.datasetGeneration != snap.datasetGeneration, DATASET_GENERATION);
    }
  }

  /** The check as the source runs it, appending one dimension after another. */
  method Staleness(s: State, plan: Plan) returns (reasons: seq<Dimension>)
    ensures forall d :: d in reasons <==> Stale(s, plan, d)
    ensures reasons == [] <==> Fresh(s, plan)
  {
    hide Fresh;
    var authority := StaleAuthority(s, plan);
    var definitions := StaleDefinitions(s, plan);
    var bindings := StaleBindings(s, plan);
    var evidence := StaleEvidence(s, plan);
    reasons := authority + definitions + bindings + evidence;
    FreshIsNotStale(s, plan);
    if reasons != [] { assert reasons[0] in reasons; }
  }

  /** The dimensions in which a completion disagrees with the authority its plan pinned. */
  predicate Disagrees(m: ResultMsg, authority: Authority, d: Dimension) {
    var snap := authority.snapshot;
    match d
    case PLAN_IDENTITY => m.plan != authority.plan
    case PLAN_GENERATION => m.planGen != authority.planGeneration
    case TARGET_GENERATION => m.targetGen != snap.targetGeneration
    case WORKER_BOOT => m.workerBoot != snap.workerBoot
    case EPOCH => m.epoch != snap.epoch
    case DATASET_GENERATION => m.datasetGen != snap.datasetGeneration
    case REGION_GENERATION => m.regionGen != snap.regionGeneration
    case OPERATION_GENERATION => m.operationGen != snap.operationGeneration
    case _ => false
  }

  lemma MatchesIsAgreement(m: ResultMsg, authority: Authority)
    ensures CompletionMatches(m, authority) <==> forall d :: !Disagrees(m, authority, d)
  {
    if forall d :: !Disagrees(m, authority, d) {
      assert !Disagrees(m, authority, PLAN_IDENTITY) && !Disagrees(m, authority, PLAN_GENERATION);
      assert !Disagrees(m, authority, TARGET_GENERATION) && !Disagrees(m, authority, WORKER_BOOT);
      assert !Disagrees(m, authority, EPOCH) && !Disagrees(m, authority, DATASET_GENERATION);
      assert !Disagrees(m, authority, REGION_GENERATION) && !Disagrees(m, authority, OPERATION_GENERATION);
    }
  }

  /** The pinned dimensions of a completion, compared one after another. */
  method ValidateCompletion(m: ResultMsg, authority: Authority) returns (reasons: seq<Dimension>)
    ensures forall d :: d in reasons <==> Disagrees(m, authority, d)
    ensures reasons == [] <==> CompletionMatches(m, authority)
  {
    hide Noting, CompletionMatches;
    var snap := authority.snapshot;
    reasons := Noting([], m.plan != authority.plan, PLAN_IDENTITY);
    reasons := Noting(reasons, m.planGen != authority.planGeneration, PLAN_GENERATION);
    reasons := Noting(reasons, m.targetGen != snap.targetGeneration, TARGET_GENERATION);
    reasons := Noting(reasons, m.workerBoot != snap.workerBoot, WORKER_BOOT);
    reasons := Noting(reasons, m.epoch != snap.epoch, EPOCH);
    reasons := Noting(reasons, m.datasetGen != snap.datasetGeneration, DATASET_GENERATION);
    reasons := Noting(reasons, m.regionGen != snap.regionGeneration, REGION_GENERATION);
    reasons := Noting(reasons, m.operationGen != snap.operationGeneration, OPERATION_GENERATION);
    MatchesIsAgreement(m, authority);
    if reasons != [] { assert reasons[0] in reasons; }
  }

  // ---- The sweeps, entry by entry ----

  lemma EpochIs(s: State, runtime: map<Id, Runtime>, caps: map<Id, Capabilities>, evidence: map<Id, Evidence>,
                plans: map<Id, Plan>)
    requires runtime.Keys == s.runtime.Keys && forall t | t in s.runtime :: runtime[t] == Revoked(s.runtime[t])
    requires caps.Keys == s.caps.Keys && forall t | t in s.caps :: caps[t] == s.caps[t].(dynamicCurrent := false)
    requires evidence.Keys == s.evidence.Keys
    requires forall g | g in s.evidence :: evidence[g] == s.evidence[g].(dynamicCurrent := false)
    requires plans.Keys == s.plans.Keys && forall p | p in s.plans :: plans[p] == EpochClosed(s.plans[p])
    ensures Engine.AdvanceEpoch(s) == s.(epoch := Wrap(s.epoch + 1), runtime := runtime, caps := caps,
                                         evidence := evidence, plans := plans, active := Index(plans))
  {
    hide Index, EpochClosed, Revoked, Wrap, Mapped;
    var n := Engine.AdvanceEpoch(s);
    assert n.runtime == runtime && n.caps == caps && n.evidence == evidence && n.plans == plans;
  }

  lemma FenceIs(s: State, boot: Id, runtime: map<Id, Runtime>, caps: map<Id, Capabilities>,
                evidence: map<Id, Evidence>, plans: map<Id, Plan>)
    requires runtime.Keys == s.runtime.Keys
    requires forall t | t in s.runtime ::
               runtime[t] == if s.runtime[t].ownerBoot == boot then Revoked(s.runtime[t]) else s.runtime[t]
    requires caps.Keys == s.caps.Keys
    requires forall t | t in s.caps ::
               caps[t] == if s.caps[t].publisher == boot then s.caps[t].(dynamicCurrent := false) else s.caps[t]
    requires evidence.Keys == s.evidence.Keys
    requires forall g | g in s.evidence ::
               evidence[g] == if s.evidence[g].publisher == boot then s.evidence[g].(dynamicCurrent := false)
                              else s.evidence[g]
    requires plans.Keys == s.plans.Keys
    requires forall p | p in s.plans ::
               plans[p] == if s.plans[p].authority.snapshot.workerBoot == boot && Active(s.plans[p].lifecycle)
                           then FencedPlan(s.plans[p]) else s.plans[p]
    ensures Engine.FenceWorker(s, boot) ==
            s.(runtime := runtime, caps := caps, evidence := evidence, plans := plans, active := Index(plans))
  {
    hide Index, FencedPlan, Revoked, Active, Mapped;
    var n := Engine.FenceWorker(s, boot);
    assert n.runtime == runtime && n.caps == caps && n.evidence == evidence && n.plans == plans;
  }

  /** Marking the sessions before or after the fence is the same. */
  lemma DropIs(s: State, boot: Id, workers: map<Id, Session>)
    requires workers.Keys == s.workers.Keys
    requires forall w | w in s.workers ::
               workers[w] == if s.workers[w].boot == boot then s.workers[w].(connected := false) else s.workers[w]
    ensures Disconnect(s, boot) == Engine.FenceWorker(s.(workers := workers), boot)
  {
    hide Index, FencedPlan, Revoked, Active, Mapped;
    assert workers == Disconnect(s, boot).workers;
  }

  lemma RetireIs(s: State, t: Id, plans: map<Id, Plan>)
    requires t in s.runtime && plans.Keys == s.plans.Keys
    requires forall p | p in s.plans ::
               plans[p] == if s.plans[p].target == t && Active(s.plans[p].lifecycle)
                           then s.plans[p].(lifecycle := FENCED) else s.plans[p]
    ensures Engine.RetireTarget(s, t) ==
              (s.(runtime := s.runtime[t := s.runtime[t].(lifecycle := TL_RETIRED, reachable := false,
                                                          dynamicCurrent := false)],
                  plans := plans, active := Index(plans)), Ok(()))
  {
    hide Index, Active, Mapped;
    assert Engine.RetireTarget(s, t).0.plans == plans;
  }

  lemma RetireUnknown(s: State, t: Id)
    requires t !in s.runtime
    ensures Engine.RetireTarget(s, t) == (s, Err(E_TARGET_UNKNOWN))
  {
  }

  // ---- The object ----

  class Coordinator {
    var st: State

    constructor (id: Id)
      ensures st == Initial(id)
    {
      st := Initial(id);
    }

    method RebuildActivePlans()
      modifies this
      ensures st == Reindexed(old(st))
    {
      hide Index;
      var active := RebuildIndex(st.plans);
      st := st.(active := active);
    }

    method AdvanceEpoch()
      modifies this
      ensures st == Engine.AdvanceEpoch(old(st))
    {
      hide Index, EpochClosed, Revoked, Engine.AdvanceEpoch;
      st := st.(epoch := Wrap(st.epoch + 1));
      var runtime := Sweep(st.runtime, Revoked);
      st := st.(runtime := runtime);
      var caps := Sweep(st.caps, (c: Capabilities) => c.(dynamicCurrent := false));
      st := st.(caps := caps);
      var evidence := Sweep(st.evidence, (e: Evidence) => e.(dynamicCurrent := false));
      st := st.(evidence := evidence);
      var plans := Sweep(st.plans, EpochClosed);
      st := st.(plans := plans);
      RebuildActivePlans();
      EpochIs(old(st), runtime, caps, evidence, plans);
    }

    /** Everything the incarnation vouched for is withdrawn; shared by fencing and disconnection. */
    method Invalidate(boot: Id)
      modifies this
      ensures st == Engine.FenceWorker(old(st), boot)
    {
      hide Index, FencedPlan, Revoked, Active, Engine.FenceWorker;
      var runtime := Sweep(st.runtime, (rt: Runtime) => if rt.ownerBoot == boot then Revoked(rt) else rt);
      st := st.(runtime := runtime);
      var caps := Sweep(st.caps, (c: Capabilities) => if c.publisher == boot then c.(dynamicCurrent := false) else c);
      st := st.(caps := caps);
      var evidence := Sweep(st.evidence,
                            (e: Evidence) => if e.publisher == boot then e.(dynamicCurrent := false) else e);
      st := st.(evidence := evidence);
      var plans := Sweep(st.plans, (p: Plan) =>
        if p.authority.snapshot.workerBoot == boot && Active(p.lifecycle) then FencedPlan(p) else p);
      st := st.(plans := plans);
      RebuildActivePlans();
      FenceIs(old(st), boot, runtime, caps, evidence, plans);
    }

    method FenceWorker(boot: Id)
      modifies this
      ensures st == Engine.FenceWorker(old(st), boot)
    {
      hide Engine.FenceWorker;
      Invalidate(boot);
    }

    method OnWorkerDisconnected(boot: Id)
      modifies this
      ensures st == Disconnect(old(st), boot)
    {
      hide Engine.FenceWorker, Disconnect;
      var workers := Sweep(st.workers, (w: Session) => if w.boot == boot then w.(connected := false) else w);
      st := st.(workers := workers);
      Invalidate(boot);
      DropIs(old(st), boot, workers);
    }

    method RetireTarget(t: Id) returns (r: Outcome<()>)
      modifies this
      ensures st == Engine.RetireTarget(old(st), t).0 && r == Engine.RetireTarget(old(st), t).1
    {
      hide Index, Active, Engine.RetireTarget;
      if t !in st.runtime {
        RetireUnknown(st, t);
        return Err(E_TARGET_UNKNOWN);
      }
      st := st.(runtime := st.runtime[t := st.runtime[t].(lifecycle := TL_RETIRED, reachable := false,
                                                          dynamicCurrent := false)]);
      var plans := Sweep(st.plans, (p: Plan) =>
        if p.target == t && Active(p.lifecycle) then p.(lifecycle := FENCED) else p);
      st := st.(plans := plans);
      RebuildActivePlans();
      RetireIs(old(st), t, plans);
      r := Ok(());
    }

    method CreateOperation(op: Operation) returns (r: Outcome<()>)
      modifies this
      ensures st == Engine.CreateOperation(old(st), op).0 && r == Engine.CreateOperation(old(st), op).1
    {
      if op.id == 0 || op.generation == 0 {
        return Err(E_ID_NULL);
      }
      if op.id in st.operations {
        return Err(E_DUP);
      }
      st := st.(operations := st.operations[op.id := op]);
      r := Ok(());
    }

    method RegisterPolicy(p: Policy) returns (r: Outcome<()>)
      modifies this
      ensures st == Engine.RegisterPolicy(old(st), p).0 && r == Engine.RegisterPolicy(old(st), p).1
    {
      if p.id == 0 || p.generation == 0 {
        return Err(E_ID_NULL);
      }
      if p.id == 1 {
        return Err(E_RESERVED);
      }
      if p.id in st.policies {
        return Err(E_DUP);
      }
      st := st.(policies := st.policies[p.id := p]);
      r := Ok(());
    }

    /** A registration always starts from a runtime without dynamic evidence. */
    method ApplyRegisterTarget(m: RegisterTargetMsg) returns (r: Outcome<()>)
      modifies this
      ensures st == RegisterTarget(old(st), m).0 && r == RegisterTarget(old(st), m).1
    {
      if m.target == 0 || m.generation == 0 {
        return Err(E_ID_NULL);
      }
      var def := DefaultTarget().(
        id := m.target, generation := m.generation, provider := m.provider, kind := m.kind, name := m.name,
        synthetic := m.synthetic, supportedOps := m.ops, supportedDataTypes := m.dataTypes,
        supportedLayouts := m.layouts, maxInputBytes := m.maxInputBytes, alignmentConstraint := m.alignment,
        concurrencyCapacity := m.concurrency, workspaceBytes := m.workspace, authorityOwner := WORKER_OWNER);
      var rt := Runtime(TL_REGISTERED, m.ownerBoot, false, 0, 0, Performance(0, 0, 0, 0), false);
      st := st.(targets := st.targets[m.target := def], runtime := st.runtime[m.target := rt]);
      r := Ok(());
    }

    method ApplyHeartbeat(m: HeartbeatMsg) returns (r: Outcome<()>)
      modifies this
      ensures st == Heartbeat(old(st), m).0 && r == Heartbeat(old(st), m).1
    {
      if m.target !in st.runtime {
        return Err(E_TARGET_UNKNOWN);
      }
      var rt := st.runtime[m.target];
      if rt.lifecycle == TL_RETIRED || rt.lifecycle == TL_FAILED {
        return Err(E_TARGET_TERMINAL);
      }
      rt := rt.(lifecycle := m.lifecycle, reachable := m.reachable, queueDepth := m.queueDepth);
      rt := rt.(performance := rt.performance.(latencyNs := m.latencyNs, throughputBps := m.throughputBps,
                                               confidence := m.confidence));
      rt := rt.(dynamicCurrent := true);
      st := st.(runtime := st.runtime[m.target := rt]);
      r := Ok(());
    }

    method ApplyCapability(m: CapabilityMsg) returns (r: Outcome<()>)
      modifies this
      ensures st == PublishCapability(old(st), m).0 && r == PublishCapability(old(st), m).1
    {
      if m.target == 0 {
        return Err(E_ID_NULL);
      }
      if m.target !in st.targets {
        return Err(E_TARGET_UNKNOWN);
      }
      var entries := CollectEntries(m.entries);
      var cs := Capabilities(m.target, st.targets[m.target].generation, m.generation, entries, m.evidenceGeneration,
                             m.publisher, true);
      st := st.(caps := st.caps[m.target := cs]);
      r := Ok(());
    }

    /** `id` is the identity that the new plan is given. */
    method MakePlan(opId: Id, id: Id) returns (r: Outcome<PlanOutput>)
      modifies this
      ensures st == Engine.MakePlan(old(st), opId, id).0 && r == Engine.MakePlan(old(st), opId, id).1
    {
      hide Candidates, CandidateFor, EligibleTarget, PlanFor, Ranked;
      if opId !in st.operations {
        return Err(E_PLAN_OP);
      }
      var op := st.operations[opId];
      if op.policy !in st.policies {
        return Err(E_PLAN_POLICY);
      }
      if op.id in st.active {
        return Err(E_PLAN_ACTIVE);
      }
      var policy := st.policies[op.policy];
      var cands := CollectCandidates(st, op, policy);
      var ranked := RankCandidates(cands);
      if ranked == [] {
        return Ok(PlanOutput(if policy.outcome == NEAR_MEMORY_REQUIRED then REJECT else MOVEMENT_REQUIRED, ranked,
                             None));
      }
      if ranked[0].decision != NEAR_MEMORY_SELECTED {
        return Ok(PlanOutput(ranked[0].decision, ranked, None));
      }
      BestIsEligible(st, op, policy);
      EligibleIsKnown(st, op, policy, ranked[0].target);
      var plan := PlanFor(st, op, ranked[0].target, id);
      st := st.(plans := st.plans[id := plan], active := st.active[op.id := id]);
      r := Ok(PlanOutput(NEAR_MEMORY_SELECTED, ranked, Some(plan)));
    }

    method Reserve(p: Id) returns (r: Outcome<()>)
      modifies this
      ensures st == Engine.Reserve(old(st), p).0 && r == Engine.Reserve(old(st), p).1
    {
      hide AdmissionCheck, WithDefinition, ReservationOf, Wrap;
      if p !in st.plans {
        return Err(E_PLAN_NOT_FOUND);
      }
      var plan := st.plans[p];
      if plan.lifecycle != PLANNED {
        return Err(E_PLAN_STATE);
      }
      if plan.target !in st.runtime {
        return Err(E_TARGET_UNKNOWN);
      }
      st := WithDefinition(st, plan.target);
      var rs := ReservationOf(st, plan.target);
      var check := CheckAdmission(plan, rs);
      if check.Err? {
        st := st.(reservations := st.reservations[plan.target := rs]);
        return check;
      }
      var ws := OperationWorkspace(st, plan.operation);
      var booked := Reservation(Wrap(rs.slots + 1), Wrap(rs.workspace + ws));
      st := st.(plans := st.plans[plan.id := plan.(lifecycle := RESERVED, reservedSlots := 1, reservedWorkspace := ws)],
                reservations := st.reservations[plan.target := booked]);
      r := Ok(());
    }

    method CheckAdmission(plan: Plan, rs: Reservation) returns (r: Outcome<()>)
      requires plan.target in st.runtime && plan.target in st.targets && rs == ReservationOf(st, plan.target)
      ensures r == AdmissionCheck(st, plan)
    {
      var target := st.targets[plan.target];
      if rs.slots >= target.concurrencyCapacity {
        return Err(E_CONCURRENCY);
      }
      if rs.workspace > target.workspaceBytes {
        return Err(E_WORKSPACE);
      }
      if Draining(st.runtime[plan.target].lifecycle) {
        return Err(E_DRAIN);
      }
      if Wrap(rs.workspace + OperationWorkspace(st, plan.operation)) > target.workspaceBytes {
        return Err(E_WORKSPACE);
      }
      r := Ok(());
    }

    method PrepareDispatch(p: Id, d: Id, a: Id, payload: bytes) returns (r: Outcome<DispatchOutput>)
      modifies this
      ensures st == Engine.PrepareDispatch(old(st), p, d, a, payload).0
      ensures r == Engine.PrepareDispatch(old(st), p, d, a, payload).1
    {
      hide Fresh, DispatchFor;
      if p !in st.plans {
        return Err(E_PLAN_NOT_FOUND);
      }
      var plan := st.plans[p];
      if plan.lifecycle != RESERVED {
        return Err(E_PLAN_STATE);
      }
      var stale := Staleness(st, plan);
      if stale != [] {
        st := st.(plans := st.plans[p := plan.(lifecycle := SUPERSEDED)]);
        return Err(E_STALE_PLAN);
      }
      if plan.operation !in st.operations {
        return Err(E_PLAN_OP);
      }
      if plan.target !in st.runtime {
        return Err(E_TARGET_UNKNOWN);
      }
      var boot := st.runtime[plan.target].ownerBoot;
      var worker := FindSession(st.workers, boot);
      SessionIsLeast(st, boot, worker);
      if worker.None? {
        return Err(E_WORKER_UNKNOWN);
      }
      var message := DispatchFor(st, plan, st.operations[plan.operation], boot, d, a, payload);
      st := st.(plans := st.plans[p := plan.(dispatchId := Some(d), attemptId := Some(a))]);
      r := Ok(DispatchOutput(worker.value, message));
    }

    method ConfirmDispatched(p: Id, d: Id) returns (r: Outcome<()>)
      modifies this
      ensures st == Engine.ConfirmDispatched(old(st), p, d).0 && r == Engine.ConfirmDispatched(old(st), p, d).1
    {
      if p !in st.plans {
        return Err(E_PLAN_NOT_FOUND);
      }
      var plan := st.plans[p];
      if plan.dispatchId.None? || plan.dispatchId.value != d {
        return Err(E_DISPATCH_MISMATCH);
      }
      if plan.lifecycle != RESERVED {
        return Err(E_PLAN_STATE);
      }
      st := st.(plans := st.plans[p := plan.(lifecycle := DISPATCHED)]);
      r := Ok(());
    }

    /** The checks a completion passes before anything is changed. */
    method CheckCompletion(m: ResultMsg) returns (r: Outcome<()>)
      ensures r == CompletionGuard(st, m)
    {
      hide CompletionMatches;
      if m.plan !in st.plans {
        return Err(E_RESULT_PLAN);
      }
      var plan := st.plans[m.plan];
      if plan.lifecycle == COMMITTED {
        return Err(E_RESULT_DUP);
      }
      if plan.lifecycle == CANCELLED || plan.lifecycle == FENCED || plan.lifecycle == SUPERSEDED {
        return Err(E_RESULT_STALE);
      }
      if !InFlight(plan.lifecycle) {
        return Err(E_RESULT_STATE);
      }
      if m.epoch != st.epoch {
        return Err(E_RESULT_STALE);
      }
      if m.target in st.targets && st.targets[m.target].generation != m.targetGen {
        return Err(E_RESULT_STALE);
      }
      if m.target in st.runtime && st.runtime[m.target].ownerBoot != m.workerBoot {
        return Err(E_RESULT_STALE);
      }
      var stale := ValidateCompletion(m, plan.authority);
      if stale != [] {
        return Err(E_RESULT_STALE);
      }
      if plan.dispatchId.None? || plan.dispatchId.value != m.dispatch {
        return Err(E_DISPATCH_MISMATCH);
      }
      if plan.attemptId.None? || plan.attemptId.value != m.attempt {
        return Err(E_ATTEMPT_MISMATCH);
      }
      r := Ok(());
    }

    /** `id` is the identity that the new result is given. */
    method ApplyResult(m: ResultMsg, id: Id) returns (r: Outcome<ExecResult>)
      modifies this
      ensures st == Engine.ApplyResult(old(st), m, id).0 && r == Engine.ApplyResult(old(st), m, id).1
    {
      hide CompletionGuard, HexDigest;
      var guard := CheckCompletion(m);
      if guard.Err? {
        return Err(guard.code);
      }
      GuardKnowsPlan(st, m);
      var plan := st.plans[m.plan];
      var v := if m.unknown then Unknown else if HexDigest(m.output) == m.outputDigest then Intact else Corrupt;
      var res := ResultFor(m, id, v);
      st := st.(plans := st.plans[m.plan := plan.(lifecycle := LifecycleAfter(v))]);
      st := st.(active := st.active - {plan.operation}, results := st.results[id := res]);
      if v.Intact? {
        Release(plan);
      }
      r := Ok(res);
    }

    method Release(plan: Plan)
      modifies this
      ensures st == old(st).(reservations := Released(old(st), plan))
    {
      if plan.target !in st.reservations {
        return;
      }
      var rs := st.reservations[plan.target];
      var slots, workspace := rs.slots, rs.workspace;
      if slots > 0 {
        slots := slots - 1;
      }
      if workspace >= plan.reservedWorkspace {
        workspace := workspace - plan.reservedWorkspace;
      }
      st := st.(reservations := st.reservations[plan.target := Reservation(slots, workspace)]);
    }

    method CancelPlan(p: Id) returns (r: Outcome<()>)
      modifies this
      ensures st == Engine.CancelPlan(old(st), p).0 && r == Engine.CancelPlan(old(st), p).1
    {
      if p !in st.plans {
        return Err(E_PLAN_NOT_FOUND);
      }
      var plan := st.plans[p];
      if !Active(plan.lifecycle) {
        return Err(E_PLAN_STATE);
      }
      Release(plan);
      st := st.(plans := st.plans[p := plan.(lifecycle := CANCELLED)], active := st.active - {plan.operation});
      r := Ok(());
    }

    /** Recovery after a decoded state has been put in place. */
    method RecoverFrom(d: State)
      modifies this
      ensures st == Recover(d)
    {
      hide Engine.AdvanceEpoch;
      st := d;
      AdvanceEpoch();
      st := st.(reservations := map[], workers := map[]);
    }

    /**
     The first result of a plan that a scan meets. The order of the scan is left open: where a plan has at most
     one result, every order gives the same answer.
     */
    method ResultOf(p: Id) returns (found: Option<ExecResult>)
      ensures found.Some? <==> exists r :: r in st.results && st.results[r].plan == p
      ensures found.Some? ==> exists r :: r in st.results && st.results[r].plan == p && st.results[r] == found.value
      ensures OnePerPlan(st) ==> forall r | r in st.results && st.results[r].plan == p :: found == Some(st.results[r])
    {
      var todo := st.results.Keys;
      while todo != {}
        invariant todo <= st.results.Keys
        invariant forall r | r in st.results && r !in todo :: st.results[r].plan != p
        decreases |todo|
      {
        var r :| r in todo;
        if st.results[r].plan == p {
          return Some(st.results[r]);
        }
        todo := todo - {r};
      }
      found := None;
    }
  }

  lemma SessionIsLeast(s: State, boot: Id, found: Option<Id>)
    requires found.Some? <==> exists w :: w in s.workers && s.workers[w].boot == boot
    requires found.Some? ==> found.value in s.workers && s.workers[found.value].boot == boot
    requires found.Some? ==> forall w | w in s.workers && s.workers[w].boot == boot :: found.value <= w
    ensures found.None? <==> SessionsOf(s, boot) == {}
    ensures found.Some? ==> SessionsOf(s, boot) != {} && Least(SessionsOf(s, boot)) == found.value
  {
    if found.Some? {
      assert found.value in SessionsOf(s, boot);
    }
  }

  lemma GuardKnowsPlan(s: State, m: ResultMsg)
    requires CompletionGuard(s, m).Ok?
    ensures m.plan in s.plans
  {
  }
}
