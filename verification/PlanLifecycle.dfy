/**
 How plans move: every operation changes a plan only along the lifecycle graph, never touches what was
 pinned at planning, and binds a dispatch only while the plan is reserved.
 */
module PlanLifecycle {
  import opened Types
  import opened Engine
  import opened Runs

  function Rank(l: Lifecycle): nat {
    match l
    case PLANNED => 0
    case RESERVED => 1
    case DISPATCHED => 2
    case _ => 3
  }

  /** The edges of the lifecycle graph. */
  predicate Edge(a: Lifecycle, b: Lifecycle) {
    match a
    case PLANNED => b in {RESERVED, CANCELLED, FENCED, SUPERSEDED}
    case RESERVED => b in {DISPATCHED, CANCELLED, FENCED, SUPERSEDED}
    case DISPATCHED => b in {COMMITTED, FAILED, OUTCOME_UNKNOWN, CANCELLED, FENCED}
    case OUTCOME_UNKNOWN => b in {CANCELLED, FENCED, SUPERSEDED}
    case COMMITTED => false
    case _ => b == SUPERSEDED
  }

  predicate SamePin(o: Plan, n: Plan) {
    n == o.(lifecycle := n.lifecycle, reservedSlots := n.reservedSlots, reservedWorkspace := n.reservedWorkspace,
            dispatchId := n.dispatchId, attemptId := n.attemptId)
  }

  predicate Evolves(o: Plan, n: Plan) {
    && SamePin(o, n)
    && (o.lifecycle == n.lifecycle || Edge(o.lifecycle, n.lifecycle))
    && (!(o.lifecycle == PLANNED && n.lifecycle == RESERVED) ==>
          n.reservedSlots == o.reservedSlots && n.reservedWorkspace == o.reservedWorkspace)
    && (!(o.lifecycle == RESERVED && n.lifecycle == RESERVED) ==>
          n.dispatchId == o.dispatchId && n.attemptId == o.attemptId)
  }

  /** What holds of every plan record at all times. */
  predicate PlanWf(p: Id, plan: Plan) {
    var snap := plan.authority.snapshot;
    && plan.id == p && plan.authority.plan == p
    && plan.generation == plan.authority.planGeneration == snap.planGeneration
    && plan.target == snap.target && plan.targetGeneration == snap.targetGeneration
    && plan.datasetGeneration == snap.datasetGeneration && plan.regionGeneration == snap.regionGeneration
    && plan.lifecycle !in {RUNNING, VERIFYING, COMPLETED}
    && (plan.lifecycle == PLANNED ==> plan.dispatchId == None && plan.attemptId == None)
    && (plan.lifecycle in {DISPATCHED, COMMITTED, FAILED} ==> plan.dispatchId.Some?)
    && (plan.dispatchId.Some? <==> plan.attemptId.Some?)
    && plan.reservedSlots <= 1
    && (plan.lifecycle in {RESERVED, DISPATCHED, COMMITTED} ==> plan.reservedSlots == 1)
  }

  ghost predicate PlansWf(plans: map<Id, Plan>) {
    forall p | p in plans :: PlanWf(p, plans[p])
  }

  ghost predicate PlansEvolve(old_: map<Id, Plan>, new_: map<Id, Plan>) {
    forall p | p in old_ :: p in new_ && Evolves(old_[p], new_[p])
  }

  /** A plan that enters the table is a new, planned one. */
  ghost predicate PlansEnter(old_: map<Id, Plan>, new_: map<Id, Plan>, a: Action) {
    forall p | p in new_ && p !in old_ :: a.Planned? && a.id == p && new_[p].lifecycle == PLANNED && PlanWf(p, new_[p])
  }

  /**
   Only a completion for the plan commits it, only a cancel cancels it, only a reservation reserves it, and only
   a preparation binds a dispatch to it.
   */
  predicate Caused(p: Id, o: Plan, n: Plan, a: Action) {
    && (n.lifecycle == COMMITTED ==> o.lifecycle == COMMITTED || (a.Completed? && a.result.plan == p))
    && (n.lifecycle == CANCELLED ==> o.lifecycle == CANCELLED || (a.CancelAsked? && a.plan == p))
    && (n.lifecycle == RESERVED ==> o.lifecycle == RESERVED || (a.ReserveAsked? && a.plan == p))
    && (n.dispatchId == o.dispatchId || (a.PrepareAsked? && a.plan == p && n.dispatchId == Some(a.dispatch)))
  }

  ghost predicate PlansCaused(old_: map<Id, Plan>, new_: map<Id, Plan>, a: Action) {
    forall p | p in old_ && p in new_ :: Caused(p, old_[p], new_[p], a)
  }

  lemma EvolvesRank(o: Plan, n: Plan)
    requires Evolves(o, n)
    ensures Rank(o.lifecycle) <= Rank(n.lifecycle)
    ensures o.lifecycle == COMMITTED ==> n.lifecycle == COMMITTED
    ensures n.lifecycle == COMMITTED ==> o.lifecycle in {DISPATCHED, COMMITTED}
    ensures Live(n.lifecycle) ==> Live(o.lifecycle)
  {
  }

  lemma EvolvesToSelf(o: Plan)
    ensures Evolves(o, o)
  {
  }

  lemma CausedToSelf(p: Id, plan: Plan, a: Action)
    ensures Caused(p, plan, plan, a)
  {
  }

  // ---- Maps of plans ----

  /** Plans evolve from one table to the next, stay well formed, and only a new one enters. */
  ghost predicate Moves(old_: map<Id, Plan>, new_: map<Id, Plan>, a: Action) {
    PlansEvolve(old_, new_) && PlansEnter(old_, new_, a) && PlansCaused(old_, new_, a) && PlansWf(new_)
  }

  lemma Changed(plans: map<Id, Plan>, p: Id, n: Plan, a: Action)
    requires PlansWf(plans) && p in plans && Evolves(plans[p], n) && PlanWf(p, n)
    requires Caused(p, plans[p], n, a)
    ensures Moves(plans, plans[p := n], a)
  {
    hide Evolves, PlanWf, Caused, PlansEnter;
    NoneEnter(plans, plans[p := n], a);
    forall q | q in plans
      ensures Evolves(plans[q], plans[p := n][q])
      ensures Caused(q, plans[q], plans[p := n][q], a)
    {
      EvolvesToSelf(plans[q]);
      CausedToSelf(q, plans[q], a);
    }
  }

  lemma Unmoved(plans: map<Id, Plan>, a: Action)
    requires PlansWf(plans)
    ensures Moves(plans, plans, a)
  {
    hide Evolves, PlanWf;
    forall q | q in plans ensures Evolves(plans[q], plans[q]) {
      EvolvesToSelf(plans[q]);
    }
  }

  lemma Entered(plans: map<Id, Plan>, n: Plan, a: Action)
    requires PlansWf(plans) && a.Planned? && a.id !in plans && PlanWf(a.id, n) && n.lifecycle == PLANNED
    ensures Moves(plans, plans[a.id := n], a)
  {
    hide Evolves, PlanWf;
    forall q | q in plans ensures Evolves(plans[q], plans[a.id := n][q]) {
      EvolvesToSelf(plans[q]);
    }
  }

  // ---- One operation at a time ----

  ghost predicate Known(w: World) {
    PlansWf(w.st.plans) && w.st.plans.Keys <= w.used.plans
  }

  /** A reservation either books the plan or leaves every plan alone. */
  lemma ReservePlans(s: State, p: Id)
    requires p in s.plans ==> s.plans[p].id == p
    ensures var r := Reserve(s, p);
            r.0.plans == if r.1.Ok? then s.plans[p := s.plans[p].(lifecycle := RESERVED, reservedSlots := 1,
                           reservedWorkspace := OperationWorkspace(s, s.plans[p].operation))] else s.plans
    ensures Reserve(s, p).1.Ok? ==> p in s.plans && s.plans[p].lifecycle == PLANNED
  {
    hide AdmissionCheck, WithDefinition;
  }

  lemma ReserveMoves(s: State, p: Id)
    requires PlansWf(s.plans)
    ensures Moves(s.plans, Reserve(s, p).0.plans, ReserveAsked(p))
  {
    hide PlansWf, Moves, Reserve;
    var a := ReserveAsked(p);
    if p in s.plans { WfAt(s.plans, p); }
    ReservePlans(s, p);
    if Reserve(s, p).1.Ok? {
      Changed(s.plans, p, Reserve(s, p).0.plans[p], a);
    } else {
      Unmoved(s.plans, a);
    }
  }

  lemma WfId(plans: map<Id, Plan>, q: Id)
    requires PlansWf(plans) && q in plans
    ensures plans[q].id == q
  {
  }

  lemma WfAt(plans: map<Id, Plan>, p: Id)
    requires PlansWf(plans) && p in plans
    ensures PlanWf(p, plans[p])
  {
  }

  lemma PrepareMoves(s: State, p: Id, d: Id, t: Id, payload: bytes)
    requires PlansWf(s.plans)
    ensures Moves(s.plans, PrepareDispatch(s, p, d, t, payload).0.plans, PrepareAsked(p, d, t, payload))
  {
    hide PlansWf, Moves, Fresh, DispatchFor, SessionsOf;
    var a := PrepareAsked(p, d, t, payload);
    var r := PrepareDispatch(s, p, d, t, payload);
    if r.1.Ok? || r.1.code == E_STALE_PLAN {
      var n := if r.1.Ok? then s.plans[p].(dispatchId := Some(d), attemptId := Some(t))
               else s.plans[p].(lifecycle := SUPERSEDED);
      assert r.0.plans == s.plans[p := n];
      WfAt(s.plans, p);
      Changed(s.plans, p, n, a);
    } else {
      Unmoved(s.plans, a);
    }
  }

  lemma ConfirmMoves(s: State, p: Id, d: Id)
    requires PlansWf(s.plans)
    ensures Moves(s.plans, ConfirmDispatched(s, p, d).0.plans, ConfirmAsked(p, d))
  {
    hide PlansWf, Moves;
    var a := ConfirmAsked(p, d);
    if ConfirmDispatched(s, p, d).1.Ok? {
      WfAt(s.plans, p);
      Changed(s.plans, p, s.plans[p].(lifecycle := DISPATCHED), a);
    } else {
      Unmoved(s.plans, a);
    }
  }

  lemma ResultMoves(s: State, m: ResultMsg, id: Id)
    requires PlansWf(s.plans)
    ensures Moves(s.plans, ApplyResult(s, m, id).0.plans, Completed(m, id))
  {
    hide PlansWf, Moves, VerdictOf, ResultFor, Released;
    var a := Completed(m, id);
    if CompletionGuard(s, m).Ok? {
      WfAt(s.plans, m.plan);
      Changed(s.plans, m.plan, s.plans[m.plan].(lifecycle := LifecycleAfter(VerdictOf(m))), a);
    } else {
      Unmoved(s.plans, a);
    }
  }

  lemma CancelMoves(s: State, p: Id)
    requires PlansWf(s.plans)
    ensures Moves(s.plans, CancelPlan(s, p).0.plans, CancelAsked(p))
  {
    hide PlansWf, Moves, Released;
    var a := CancelAsked(p);
    if CancelPlan(s, p).1.Ok? {
      WfAt(s.plans, p);
      Changed(s.plans, p, s.plans[p].(lifecycle := CANCELLED), a);
    } else {
      Unmoved(s.plans, a);
    }
  }

  /** Left alone, or closed without a verdict. */
  predicate Closes(o: Plan, n: Plan) {
    n == o || (Edge(o.lifecycle, n.lifecycle) && n == o.(lifecycle := n.lifecycle) &&
               n.lifecycle in {OUTCOME_UNKNOWN, FENCED, SUPERSEDED})
  }

  lemma ClosesKeeps(p: Id, o: Plan, n: Plan, a: Action)
    requires PlanWf(p, o) && Closes(o, n)
    ensures Evolves(o, n) && PlanWf(p, n) && Caused(p, o, n, a)
  {
  }

  lemma NoneEnter(old_: map<Id, Plan>, new_: map<Id, Plan>, a: Action)
    requires new_.Keys == old_.Keys
    ensures PlansEnter(old_, new_, a)
  {
  }

  lemma Swept(old_: map<Id, Plan>, new_: map<Id, Plan>, a: Action)
    requires PlansWf(old_) && new_.Keys == old_.Keys
    requires forall p | p in old_ :: Closes(old_[p], new_[p])
    ensures Moves(old_, new_, a)
  {
    hide Closes, Evolves, PlanWf, Caused, PlansEnter;
    NoneEnter(old_, new_, a);
    forall p | p in old_
      ensures Evolves(old_[p], new_[p]) && PlanWf(p, new_[p])
      ensures Caused(p, old_[p], new_[p], a)
    {
      ClosesKeeps(p, old_[p], new_[p], a);
    }
  }

  lemma FenceMoves(s: State, boot: Id, a: Action)
    requires PlansWf(s.plans)
    ensures Moves(s.plans, FenceWorker(s, boot).plans, a)
  {
    hide Moves, Index, Revoked;
    var n := FenceWorker(s, boot).plans;
    forall p | p in s.plans ensures Closes(s.plans[p], n[p]) {
      WfAt(s.plans, p);
    }
    Swept(s.plans, n, a);
  }

  lemma RetireMoves(s: State, t: Id)
    requires PlansWf(s.plans)
    ensures Moves(s.plans, RetireTarget(s, t).0.plans, TargetRetired(t))
  {
    hide Moves, Index;
    var a := TargetRetired(t);
    var n := RetireTarget(s, t).0.plans;
    forall p | p in s.plans ensures Closes(s.plans[p], n[p]) {
      WfAt(s.plans, p);
    }
    Swept(s.plans, n, a);
  }

  lemma EpochMoves(s: State, a: Action)
    requires PlansWf(s.plans)
    ensures Moves(s.plans, AdvanceEpoch(s).plans, a)
  {
    hide Moves, Index, Revoked;
    var n := AdvanceEpoch(s).plans;
    forall p | p in s.plans ensures Closes(s.plans[p], n[p]) {
      WfAt(s.plans, p);
    }
    Swept(s.plans, n, a);
  }

  lemma PlanForWf(s: State, op: Operation, t: Id, id: Id)
    requires t in s.targets && t in s.runtime && t in s.caps
    ensures PlanWf(id, PlanFor(s, op, t, id)) && PlanFor(s, op, t, id).lifecycle == PLANNED
  {
  }

  lemma PlanMoves(s: State, op: Id, id: Id)
    requires PlansWf(s.plans) && id !in s.plans
    ensures Moves(s.plans, MakePlan(s, op, id).0.plans, Planned(op, id))
  {
    hide PlansWf, Moves, PlanWf, EligibleTarget, PlanFor, MakePlan;
    var a := Planned(op, id);
    var t := Created(s, op, id);
    if Creates(s, op, id) {
      PlanForWf(s, s.operations[op], t, id);
      Entered(s.plans, PlanFor(s, s.operations[op], t, id), a);
    } else {
      Unmoved(s.plans, a);
    }
  }

  lemma WorkMoves(w: World, a: Action)
    requires Known(w) && Enabled(w, a) && Works(a)
    ensures Moves(w.st.plans, Apply(w, a).st.plans, a)
  {
    hide Apply, MakePlan, Reserve, PrepareDispatch, ConfirmDispatched, ApplyResult, CancelPlan, Moves, PlansWf;
    var s := w.st;
    Applied(w, a);
    match a
    case Planned(op, id) => PlanMoves(s, op, id);
    case ReserveAsked(p) => ReserveMoves(s, p);
    case PrepareAsked(p, d, t, payload) => PrepareMoves(s, p, d, t, payload);
    case ConfirmAsked(p, d) => ConfirmMoves(s, p, d);
    case Completed(m, id) => ResultMoves(s, m, id);
    case CancelAsked(p) => CancelMoves(s, p);
  }

  /** Every operation other than a restart moves plans only along the graph. */
  lemma StepMoves(w: World, a: Action)
    requires Known(w) && Enabled(w, a) && !a.Loaded?
    ensures Moves(w.st.plans, Apply(w, a).st.plans, a)
  {
    hide Apply, Enabled, StateAfter, FenceWorker, Disconnect, RetireTarget, AdvanceEpoch, Moves, PlansWf;
    var s := w.st;
    if Works(a) {
      WorkMoves(w, a);
    } else if Quiet(a) {
      Stepped(w, a);
      Unmoved(s.plans, a);
    } else {
      AppliedSweep(w, a);
      match a
      case WorkerFenced(b) => FenceMoves(s, b, a);
      case WorkerDropped(b) => FenceMoves(s, b, a);
      case TargetRetired(t) => RetireMoves(s, t);
      case EpochMoved => EpochMoves(s, a);
    }
  }

  lemma StepKnown(w: World, a: Action)
    requires Known(w) && Enabled(w, a) && !a.Loaded?
    ensures Known(Apply(w, a))
  {
    hide Apply, Evolves, PlanWf, PlansCaused;
    StepMoves(w, a);
    UsedAfter(w, a);
  }
}
