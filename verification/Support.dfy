/**
 No lookup in the staleness check is ever skipped for a live plan: every entry the check reads exists, so a
 successful dispatch proves that all of the pinned authority is current.
 */
module Support {
  import opened Types
  import opened Engine
  import opened Runs
  import opened PlanLifecycle

  /** Everything the staleness check looks up is there, and the operation is the one that was planned. */
  ghost predicate PlanSupported(s: State, plan: Plan) {
    var snap := plan.authority.snapshot;
    && snap.epoch == s.epoch
    && plan.target in s.runtime && plan.target in s.targets && plan.target in s.caps
    && plan.region in s.evidence
    && plan.operation in s.operations
    && PinsOperation(s, plan, s.operations[plan.operation])
  }

  predicate PinsOperation(s: State, plan: Plan, op: Operation) {
    var snap := plan.authority.snapshot;
    && op.policy in s.policies
    && (op.program.Some? ==> op.program.value in s.programs)
    && plan.opClass == op.opClass && plan.retryClass == op.retryClass
    && plan.dataset == op.dataset && plan.region == op.region
    && snap.datasetGeneration == op.datasetGeneration && snap.regionGeneration == op.regionGeneration
    && snap.operationGeneration == op.generation
    && snap.programGeneration == op.programGeneration && snap.policyGeneration == op.policyGeneration
  }

  ghost predicate OperationsKeyed(s: State) {
    forall o | o in s.operations :: s.operations[o].id == o
  }

  ghost predicate LivePlansSupported(s: State) {
    forall p | p in s.plans && Live(s.plans[p].lifecycle) :: PlanSupported(s, s.plans[p])
  }

  ghost predicate Supported(s: State) {
    OperationsKeyed(s) && LivePlansSupported(s) && s.runtime.Keys <= s.targets.Keys
  }

  /** Entries are added, never removed, and a registered operation, program or policy is never replaced. */
  ghost predicate Grows(s: State, t: State) {
    && t.epoch == s.epoch
    && s.runtime.Keys <= t.runtime.Keys && s.targets.Keys <= t.targets.Keys && s.caps.Keys <= t.caps.Keys
    && s.evidence.Keys <= t.evidence.Keys
    && Extends(s.operations, t.operations) && Extends(s.programs, t.programs) && Extends(s.policies, t.policies)
  }

  lemma WorkGrows(s: State, a: Action)
    requires Works(a)
    ensures Grows(s, WorkAfter(s, a))
  {
    hide WorkAfter;
  }

  lemma SweepGrows(s: State, a: Action)
    requires Sweeps(a) && !a.EpochMoved?
    ensures Grows(s, SweepAfter(s, a))
  {
    hide SweepAfter;
  }

  lemma QuietGrows(s: State, a: Action)
    requires Quiet(a)
    ensures Grows(s, QuietAfter(s, a))
  {
    hide QuietAfter, Extends;
  }

  lemma StepGrows(w: World, a: Action)
    requires !a.EpochMoved? && !a.Loaded?
    ensures Grows(w.st, Apply(w, a).st)
  {
    hide Apply, WorkAfter, SweepAfter, QuietAfter, Grows;
    Stepped(w, a);
    if Works(a) {
      WorkGrows(w.st, a);
    } else if Sweeps(a) {
      SweepGrows(w.st, a);
    } else {
      QuietGrows(w.st, a);
    }
  }

  lemma GrowthSupports(s: State, t: State, o: Plan, n: Plan)
    requires Grows(s, t) && PlanSupported(s, o) && SamePin(o, n)
    ensures PlanSupported(t, n)
  {
  }

  lemma PlanningSupports(s: State, op: Id, id: Id)
    requires Supported(s) && Creates(s, op, id)
    ensures var t := MakePlan(s, op, id).0; id in t.plans && PlanSupported(t, t.plans[id])
  {
    hide MakePlan, EligibleTarget, LivePlansSupported;
    var t := Created(s, op, id);
    EligibleIsKnown(s, s.operations[op], s.policies[s.operations[op].policy], t);
  }

  lemma StepSupports(w: World, a: Action)
    requires Known(w) && Supported(w.st) && Enabled(w, a) && !a.EpochMoved? && !a.Loaded?
    ensures LivePlansSupported(Apply(w, a).st)
  {
    hide Apply, PlanSupported, PlanWf, Evolves, Grows, Known;
    var s, t := w.st, Apply(w, a).st;
    StepMoves(w, a);
    StepGrows(w, a);
    forall p | p in t.plans && Live(t.plans[p].lifecycle) ensures PlanSupported(t, t.plans[p]) {
      if p in s.plans {
        Carried(s.plans[p], t.plans[p]);
        GrowthSupports(s, t, s.plans[p], t.plans[p]);
      } else {
        NewlySupported(w, a);
      }
    }
  }

  lemma Carried(o: Plan, n: Plan)
    requires Evolves(o, n)
    ensures SamePin(o, n) && (Live(n.lifecycle) ==> Live(o.lifecycle))
  {
  }

  lemma NewlySupported(w: World, a: Action)
    requires Supported(w.st) && a.Planned? && a.id in Apply(w, a).st.plans && a.id !in w.st.plans
    ensures PlanSupported(Apply(w, a).st, Apply(w, a).st.plans[a.id])
  {
    hide MakePlan, Supported;
    var t := Created(w.st, a.op, a.id);
    PlanningSupports(w.st, a.op, a.id);
  }

  /** After an epoch change nothing is live. */
  lemma EpochClosesAll(s: State)
    requires PlansWf(s.plans)
    ensures forall p | p in AdvanceEpoch(s).plans :: !Live(AdvanceEpoch(s).plans[p].lifecycle)
  {
    hide Index;
  }

  lemma RegisterKeyed(s: State, m: RegisterTargetMsg)
    requires s.runtime.Keys <= s.targets.Keys
    ensures RegisterTarget(s, m).0.runtime.Keys <= RegisterTarget(s, m).0.targets.Keys
  {
    hide TargetOf, NewRuntime;
  }

  lemma CreateKeyed(s: State, op: Operation)
    requires OperationsKeyed(s)
    ensures OperationsKeyed(CreateOperation(s, op).0)
  {
  }

  lemma StepKeyed(w: World, a: Action)
    requires OperationsKeyed(w.st) && !a.Loaded?
    ensures OperationsKeyed(Apply(w, a).st)
  {
    hide Apply, StateAfter, CreateOperation;
    Stepped(w, a);
    AppliedDefinition(w, a);
    if a.OperationAdded? {
      CreateKeyed(w.st, a.operation);
    }
  }

  lemma StepDefined(w: World, a: Action)
    requires w.st.runtime.Keys <= w.st.targets.Keys && !a.Loaded?
    ensures Apply(w, a).st.runtime.Keys <= Apply(w, a).st.targets.Keys
  {
    hide Apply, StateAfter, RegisterTarget;
    Stepped(w, a);
    AppliedDefinition(w, a);
    if a.Registered? {
      RegisterKeyed(w.st, a.registration);
    }
  }
}
