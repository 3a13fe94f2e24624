/**
 What a worker is told to do: in every run the message of a successful dispatch describes the operation as it was when
 the plan was made.
 */
module WorkOrder {
  import opened Types
  import opened Engine
  import opened Runs
  import opened PlanLifecycle
  import opened Support
  import opened Safety
  import opened History

  /** The plan is live and carries the pins of `pin`, and its operation is on record as `op`. */
  predicate Underpinned(w: World, p: Id, pin: Plan, op: Operation) {
    && p in w.st.plans && Live(w.st.plans[p].lifecycle) && SamePin(pin, w.st.plans[p])
    && pin.operation in w.st.operations && w.st.operations[pin.operation] == op
  }

  /** Planning the operation made the plan. */
  predicate MakesPlan(w: World, a: Action, p: Id, op: Operation) {
    && a == Planned(op.id, p) && Creates(w.st, op.id, p)
    && op.id in w.st.operations && w.st.operations[op.id] == op
  }

  lemma PinnedBefore(s: State, t: State, o: Plan, n: Plan, pin: Plan, op: Operation)
    requires Grows(s, t) && PlanSupported(s, o) && SamePin(o, n) && SamePin(pin, n)
    requires pin.operation in t.operations && t.operations[pin.operation] == op
    ensures SamePin(pin, o) && pin.operation in s.operations && s.operations[pin.operation] == op
  {
  }

  lemma MadeNow(w: World, a: Action, p: Id, pin: Plan, op: Operation)
    requires OperationsKeyed(w.st) && a.Planned? && a.id == p && p !in w.st.plans
    requires Underpinned(Apply(w, a), p, pin, op)
    ensures MakesPlan(w, a, p, op)
  {
    hide Apply, MakePlan, EligibleTarget, SnapshotFor;
    Applied(w, a);
    var t := Created(w.st, a.op, a.id);
  }

  lemma NothingLiveAfter(w: World, a: Action, p: Id)
    requires Inv(w) && Cuts(w, a) && p in Apply(w, a).st.plans
    ensures !Live(Apply(w, a).st.plans[p].lifecycle)
  {
    KnownOf(w);
    hide Inv, Apply, Known, Revived;
    if a.Loaded? {
      LoadedWorld(w);
      RevivedPlans(w, p);
    } else {
      AppliedSweep(w, a);
      EpochClosesAll(w.st);
    }
  }

  lemma UnderpinnedStep(w: World, a: Action, p: Id, pin: Plan, op: Operation)
    requires Inv(w) && Enabled(w, a) && Underpinned(Apply(w, a), p, pin, op)
    ensures MakesPlan(w, a, p, op) || (Underpinned(w, p, pin, op) && !Cuts(w, a))
  {
    KnownOf(w);
    SupportedOf(w);
    hide Inv, Apply, Enabled, Known, PlanSupported, Evolves, PlanWf, Live, MakesPlan, Grows, SamePin;
    var s, t := w.st, Apply(w, a).st;
    if Cuts(w, a) {
      NothingLiveAfter(w, a, p);
    } else {
      StepMoves(w, a);
      if p in s.plans {
        StepGrows(w, a);
        Carried(s.plans[p], t.plans[p]);
        PinnedBefore(s, t, s.plans[p], t.plans[p], pin, op);
      } else {
        MadeNow(w, a, p, pin, op);
      }
    }
  }

  /** In every run a live plan was made by planning its operation as it still is, in this epoch of this process. */
  lemma MadeSince(c: Id, run: seq<Action>, p: Id) returns (i: nat)
    requires Legal(c, run) && p in After(c, run).st.plans && Live(After(c, run).st.plans[p].lifecycle)
    ensures After(c, run).st.plans[p].operation in After(c, run).st.operations
    ensures var s := After(c, run).st;
            Last(c, run, i, (w, a) => MakesPlan(w, a, p, s.operations[s.plans[p].operation]), Cuts)
  {
    RunInv(c, run);
    hide After, Apply, Inv, Enabled, MakesPlan, Live, PinsOperation;
    var s := After(c, run).st;
    SupportedOf(After(c, run));
    SupportedPlan(s, p);
    var pin, op := s.plans[p], s.operations[s.plans[p].operation];
    forall w, a | Inv(w) && DiskStatic(w) && Enabled(w, a) && Underpinned(Apply(w, a), p, pin, op)
      ensures MakesPlan(w, a, p, op) || (Underpinned(w, p, pin, op) && !Cuts(w, a))
    {
      UnderpinnedStep(w, a, p, pin, op);
    }
    InitiallyNone(c, p, pin, op);
    i := SinceLegally(c, run, w => Underpinned(w, p, pin, op), (w, a) => MakesPlan(w, a, p, op), Cuts);
  }

  lemma SupportedPlan(s: State, p: Id)
    requires Supported(s) && p in s.plans && Live(s.plans[p].lifecycle)
    ensures PlanSupported(s, s.plans[p])
  {
  }

  lemma InitiallyNone(c: Id, p: Id, pin: Plan, op: Operation)
    ensures !Underpinned(After(c, []), p, pin, op)
  {
  }

  /** The message asks for the operation's own work, with its own safety demands. */
  predicate Describes(m: DispatchMsg, op: Operation) {
    && m.opClass == op.opClass && m.dataType == op.shape.dataType && m.retryClass == op.retryClass
    && (m.idempotent <==> op.retryClass in {IDEMPOTENT, REPLAY_SAFE})
    && (m.requireVerification <==> op.integrity in {CHECKED, STRICT})
    && (m.programGen.Some? <==> op.program.Some?)
    && (m.programGen.Some? ==>
          m.programGen.value == if op.programGeneration.Some? then op.programGeneration.value else 1)
  }

  lemma PreparedMessage(s: State, p: Id, d: Id, t: Id, payload: bytes)
    requires PrepareDispatch(s, p, d, t, payload).1.Ok?
    ensures p in s.plans && s.plans[p].lifecycle == RESERVED && s.plans[p].operation in s.operations
    ensures var m := PrepareDispatch(s, p, d, t, payload).1.value.message;
            && m.dispatch == d && m.attempt == t && m.payload == payload
            && Describes(m, s.operations[s.plans[p].operation])
  {
    hide Fresh, SessionsOf;
  }

  /**
   In every run, the message of a successful dispatch carries the caller's payload and describes the operation as it
   was when, in this epoch of this process, the plan was made for it; class and retry class are also the plan's own.
   */
  lemma DispatchDescribesWork(c: Id, run: seq<Action>, p: Id, d: Id, attempt: Id, payload: bytes) returns (i: nat)
    requires Legal(c, run) && PrepareDispatch(After(c, run).st, p, d, attempt, payload).1.Ok?
    ensures p in After(c, run).st.plans
    ensures var s := After(c, run).st;
            var plan := s.plans[p];
            var m := PrepareDispatch(s, p, d, attempt, payload).1.value.message;
            && plan.operation in s.operations
            && Last(c, run, i, (w, a) => MakesPlan(w, a, p, s.operations[plan.operation]), Cuts)
            && Describes(m, s.operations[plan.operation]) && m.payload == payload
            && m.opClass == plan.opClass && m.retryClass == plan.retryClass
  {
    RunInv(c, run);
    hide After, Inv, PrepareDispatch, MakesPlan;
    var s := After(c, run).st;
    PreparedMessage(s, p, d, attempt, payload);
    SupportedOf(After(c, run));
    SupportedPlan(s, p);
    i := MadeSince(c, run, p);
  }

  // ---- New plans, and which plans can be dispatched ----

  /** What the operation names agrees with what is registered, and the evidence planning relied on is in force. */
  predicate Consistent(s: State, op: Operation) {
    && op.region in s.evidence && s.evidence[op.region].dynamicCurrent
    && (op.dataset in s.datasets ==> s.datasets[op.dataset].generation == op.datasetGeneration)
    && (op.region in s.regions ==> s.regions[op.region].generation == op.regionGeneration)
    && op.policy in s.policies && s.policies[op.policy].generation == op.policyGeneration
    && (op.program.Some? && op.programGeneration.Some? && op.program.value in s.programs ==>
          s.programs[op.program.value].generation == op.programGeneration.value)
  }

  lemma EligibleEvidence(s: State, op: Operation, policy: Policy, t: Id)
    requires EligibleTarget(s, op, policy, t)
    ensures t in s.runtime && s.runtime[t].dynamicCurrent && t in s.caps && s.caps[t].dynamicCurrent && t in s.targets
    ensures op.region in s.evidence && s.evidence[op.region].datasetGeneration == op.datasetGeneration
  {
  }

  lemma PlanForIsFresh(s: State, op: Operation, t: Id, id: Id)
    requires t in s.runtime && s.runtime[t].dynamicCurrent && t in s.caps && s.caps[t].dynamicCurrent && t in s.targets
    requires op.region in s.evidence && s.evidence[op.region].datasetGeneration == op.datasetGeneration
    requires op.id in s.operations && s.operations[op.id] == op && op.policy in s.policies
    ensures Fresh(s, PlanFor(s, op, t, id)) <==> Consistent(s, op)
  {
  }

  lemma FreshAlike(s: State, n: State, plan: Plan)
    requires n == s.(plans := n.plans, active := n.active)
    ensures Fresh(n, plan) <==> Fresh(s, plan)
  {
  }

  /** A plan is fresh the moment it is made exactly when its operation agrees with what is registered. */
  lemma NewPlanIsFreshIff(c: Id, run: seq<Action>, opId: Id, id: Id)
    requires Legal(c, run) && Creates(After(c, run).st, opId, id)
    ensures var s := After(c, run).st;
            var n := MakePlan(s, opId, id).0;
            opId in s.operations && id in n.plans &&
            (Fresh(n, n.plans[id]) <==> Consistent(s, s.operations[opId]))
  {
    hide After, Inv, Supported, MakePlan, EligibleTarget, Fresh, Consistent, PlanFor, Creates;
    var s := After(c, run).st;
    RunInv(c, run);
    SupportedOf(After(c, run));
    SupportedParts(s);
    var t := Created(s, opId, id);
    var op := s.operations[opId];
    EligibleEvidence(s, op, s.policies[op.policy], t);
    PlanForIsFresh(s, op, t, id);
    FreshAlike(s, MakePlan(s, opId, id).0, PlanFor(s, op, t, id));
  }

  /** The worker of the least identity among the sessions of the incarnation. */
  predicate Serves(s: State, u: Id, boot: Id) {
    && u in s.workers && s.workers[u].boot == boot
    && forall v | v in s.workers && s.workers[v].boot == boot :: u <= v
  }

  lemma PreparesFresh(s: State, p: Id, d: Id, a: Id, payload: bytes)
    ensures var r := PrepareDispatch(s, p, d, a, payload).1;
            r.Ok? <==>
              && p in s.plans && s.plans[p].lifecycle == RESERVED && Fresh(s, s.plans[p])
              && s.plans[p].operation in s.operations && s.plans[p].target in s.runtime
              && SessionsOf(s, s.runtime[s.plans[p].target].ownerBoot) != {}
    ensures var r := PrepareDispatch(s, p, d, a, payload).1;
            r.Ok? ==> r.value.worker in SessionsOf(s, s.runtime[s.plans[p].target].ownerBoot) &&
                      forall v | v in SessionsOf(s, s.runtime[s.plans[p].target].ownerBoot) :: r.value.worker <= v
  {
    hide Fresh, DispatchFor, SessionsOf;
  }

  lemma SomeSession(s: State, boot: Id)
    ensures SessionsOf(s, boot) != {} <==> exists u :: u in s.workers && s.workers[u].boot == boot
  {
    if SessionsOf(s, boot) != {} {
      var u :| u in SessionsOf(s, boot);
    }
    if u :| u in s.workers && s.workers[u].boot == boot {
      assert u in SessionsOf(s, boot);
    }
  }

  /**
   In every run a dispatch is prepared exactly when the plan is reserved, everything pinned is current, the registered
   dataset and region agree, and some session is of the pinned incarnation; the message goes to the least such worker.
   */
  lemma PreparesIff(c: Id, run: seq<Action>, p: Id, d: Id, a: Id, payload: bytes)
    requires Legal(c, run)
    ensures var s := After(c, run).st;
            PrepareDispatch(s, p, d, a, payload).1.Ok? <==>
              && p in s.plans && s.plans[p].lifecycle == RESERVED && Current(s, s.plans[p])
              && RegistrationsAgree(s, s.plans[p])
              && exists u :: u in s.workers && s.workers[u].boot == s.plans[p].authority.snapshot.workerBoot
    ensures var s := After(c, run).st;
            PrepareDispatch(s, p, d, a, payload).1.Ok? ==>
              p in s.plans && Serves(s, PrepareDispatch(s, p, d, a, payload).1.value.worker,
                                     s.plans[p].authority.snapshot.workerBoot)
  {
    hide After, PrepareDispatch, Fresh, SessionsOf;
    var s := After(c, run).st;
    PreparesFresh(s, p, d, a, payload);
    if p in s.plans && s.plans[p].lifecycle == RESERVED {
      FreshIsCurrent(c, run, p);
      SomeSession(s, s.plans[p].authority.snapshot.workerBoot);
      if PrepareDispatch(s, p, d, a, payload).1.Ok? {
        LeastServes(s, PrepareDispatch(s, p, d, a, payload).1.value.worker, s.plans[p].authority.snapshot.workerBoot);
      }
    }
  }

  predicate RegistrationsAgree(s: State, plan: Plan) {
    && (plan.dataset in s.datasets ==>
          s.datasets[plan.dataset].generation == plan.authority.snapshot.datasetGeneration)
    && (plan.region in s.regions ==> s.regions[plan.region].generation == plan.authority.snapshot.regionGeneration)
  }

  lemma LeastServes(s: State, u: Id, boot: Id)
    requires u in SessionsOf(s, boot) && forall v | v in SessionsOf(s, boot) :: u <= v
    ensures Serves(s, u, boot)
  {
    forall v | v in s.workers && s.workers[v].boot == boot ensures u <= v {
      assert v in SessionsOf(s, boot);
    }
  }
}
