/**
 What becomes of each plan, and of what a worker vouched for, when authority is withdrawn: exactly, for a fence, a
 disconnection, a retirement, an epoch change and a start of the process.
 */
module Fates {
  import opened Types
  import opened Ordered
  import opened Engine
  import opened Runs
  import opened PlanLifecycle
  import opened Support
  import opened Safety
  import opened IndexScan
  import opened Delivery

  /** Work that may have been running is never declared over; what was not running is closed for good. */
  predicate FencedAs(o: Lifecycle, n: Lifecycle) {
    && (n == OUTCOME_UNKNOWN <==> o == DISPATCHED)
    && (n == FENCED <==> o in {PLANNED, RESERVED, OUTCOME_UNKNOWN, FENCED})
    && (o in {COMMITTED, FAILED, CANCELLED, SUPERSEDED} ==> n == o)
  }

  /** A new epoch also closes what had already been closed, except a commit. */
  predicate EpochedAs(o: Lifecycle, n: Lifecycle) {
    && (n == OUTCOME_UNKNOWN <==> o == DISPATCHED)
    && (n == COMMITTED <==> o == COMMITTED)
    && (n == SUPERSEDED <==> o !in {DISPATCHED, COMMITTED})
  }

  predicate RetiredAs(o: Lifecycle, n: Lifecycle) {
    && (n == FENCED <==> o in {PLANNED, RESERVED, DISPATCHED, OUTCOME_UNKNOWN, FENCED})
    && (o in {COMMITTED, FAILED, CANCELLED, SUPERSEDED} ==> n == o)
  }

  lemma FenceFate(s: State, boot: Id, p: Id)
    requires p in s.plans && PlanWf(p, s.plans[p])
    ensures var n := FenceWorker(s, boot).plans;
            && p in n && n[p] == s.plans[p].(lifecycle := n[p].lifecycle)
            && (if s.plans[p].authority.snapshot.workerBoot == boot
                then FencedAs(s.plans[p].lifecycle, n[p].lifecycle) else n[p] == s.plans[p])
  {
    hide Index, Mapped, Revoked, Withdrawn, Stale;
  }

  lemma EpochFate(s: State, p: Id)
    requires p in s.plans && PlanWf(p, s.plans[p])
    ensures var n := AdvanceEpoch(s).plans;
            && p in n && n[p] == s.plans[p].(lifecycle := n[p].lifecycle)
            && EpochedAs(s.plans[p].lifecycle, n[p].lifecycle)
  {
    hide Index, Mapped, Revoked, Withdrawn, Stale;
  }

  lemma RetireFate(s: State, t: Id, p: Id)
    requires p in s.plans && PlanWf(p, s.plans[p]) && t in s.runtime
    ensures var n := RetireTarget(s, t).0.plans;
            && p in n && n[p] == s.plans[p].(lifecycle := n[p].lifecycle)
            && (if s.plans[p].target == t then RetiredAs(s.plans[p].lifecycle, n[p].lifecycle) else n[p] == s.plans[p])
  {
    hide Index, Mapped;
  }

  /** What befalls one plan in one sweep. */
  predicate Fated(w: World, a: Action, o: Plan, n: Plan) {
    && n == o.(lifecycle := n.lifecycle)
    && match a
       case WorkerFenced(boot) =>
         if o.authority.snapshot.workerBoot == boot then FencedAs(o.lifecycle, n.lifecycle) else n == o
       case WorkerDropped(boot) =>
         if o.authority.snapshot.workerBoot == boot then FencedAs(o.lifecycle, n.lifecycle) else n == o
       case TargetRetired(t) =>
         if o.target == t && t in w.st.runtime then RetiredAs(o.lifecycle, n.lifecycle) else n == o
       case EpochMoved => EpochedAs(o.lifecycle, n.lifecycle)
       case _ => true
  }

  lemma RetireNothing(s: State, t: Id)
    requires t !in s.runtime
    ensures RetireTarget(s, t).0 == s
  {
  }

  /** In every run, exactly what a sweep makes of every plan on record. */
  lemma SweepFate(c: Id, run: seq<Action>, a: Action, p: Id)
    requires Legal(c, run) && Sweeps(a) && p in After(c, run).st.plans
    ensures var w := After(c, run);
            var n := Apply(w, a).st.plans;
            p in n && Fated(w, a, w.st.plans[p], n[p])
  {
    hide After, Apply, Inv, FenceWorker, Disconnect, RetireTarget, AdvanceEpoch, FencedAs, EpochedAs, RetiredAs;
    var w := After(c, run);
    RunInv(c, run);
    KnownOf(w);
    WfAt(w.st.plans, p);
    AppliedSweep(w, a);
    if a.EpochMoved? {
      EpochFate(w.st, p);
    } else if a.TargetRetired? {
      if a.target in w.st.runtime {
        RetireFate(w.st, a.target, p);
      } else {
        RetireNothing(w.st, a.target);
      }
    } else {
      FenceFate(w.st, a.boot, p);
    }
  }

  /** In every run, a process that loads what was saved closes the saved plans as a new epoch does. */
  lemma LoadFate(c: Id, run: seq<Action>, p: Id)
    requires Legal(c, run) && After(c, run).disk.Some? && p in After(c, run).disk.value.plans
    ensures var d, n := After(c, run).disk.value, Apply(After(c, run), Loaded).st;
            && p in n.plans && n.plans[p] == d.plans[p].(lifecycle := n.plans[p].lifecycle)
            && EpochedAs(d.plans[p].lifecycle, n.plans[p].lifecycle)
  {
    hide After, Apply, Inv, AdvanceEpoch, EpochedAs;
    RunInv(c, run);
    DiskPlansWf(After(c, run));
    WfAt(After(c, run).disk.value.plans, p);
    LoadedWorld(After(c, run));
    EpochFate(After(c, run).disk.value, p);
  }

  // ---- What a worker vouched for ----

  /** Withdrawn until it is heard of again, with what was measured kept. */
  predicate Unsettled(o: Runtime, n: Runtime) {
    && !n.dynamicCurrent && !n.reachable && n.lifecycle == TL_REVALIDATION_REQUIRED
    && n.ownerBoot == o.ownerBoot && n.performance == o.performance
    && n.concurrencyInUse == o.concurrencyInUse && n.queueDepth == o.queueDepth
  }

  lemma FencedRuntime(s: State, boot: Id)
    ensures var n := FenceWorker(s, boot);
            forall t | t in s.runtime :: t in n.runtime &&
              if s.runtime[t].ownerBoot == boot then Unsettled(s.runtime[t], n.runtime[t])
              else n.runtime[t] == s.runtime[t]
  {
    hide Index, Mapped, FencedPlan;
  }

  lemma FencedCaps(s: State, boot: Id)
    ensures var n := FenceWorker(s, boot);
            forall t | t in s.caps :: t in n.caps &&
              n.caps[t] == if s.caps[t].publisher == boot then s.caps[t].(dynamicCurrent := false) else s.caps[t]
  {
    hide Index, Mapped, FencedPlan, Revoked;
  }

  lemma FencedData(s: State, boot: Id)
    ensures var n := FenceWorker(s, boot);
            forall g | g in s.evidence :: g in n.evidence &&
              n.evidence[g] == if s.evidence[g].publisher == boot then s.evidence[g].(dynamicCurrent := false)
                               else s.evidence[g]
  {
    hide Index, Mapped, FencedPlan, Revoked;
  }

  /** A fence withdraws what that incarnation owns or published, and nothing of any other. */
  lemma FenceEvidence(s: State, boot: Id)
    ensures var n := FenceWorker(s, boot);
            && (forall t | t in s.runtime :: t in n.runtime &&
                 if s.runtime[t].ownerBoot == boot then Unsettled(s.runtime[t], n.runtime[t])
                 else n.runtime[t] == s.runtime[t])
            && (forall t | t in s.caps :: t in n.caps &&
                 n.caps[t] == if s.caps[t].publisher == boot then s.caps[t].(dynamicCurrent := false) else s.caps[t])
            && (forall g | g in s.evidence :: g in n.evidence &&
                 n.evidence[g] == if s.evidence[g].publisher == boot then s.evidence[g].(dynamicCurrent := false)
                                  else s.evidence[g])
  {
    hide FenceWorker, Unsettled;
    FencedRuntime(s, boot);
    FencedCaps(s, boot);
    FencedData(s, boot);
  }

  lemma EpochEvidence(s: State)
    ensures var n := AdvanceEpoch(s);
            && (forall t | t in s.runtime :: t in n.runtime && Unsettled(s.runtime[t], n.runtime[t]))
            && (forall t | t in s.caps :: t in n.caps && n.caps[t] == s.caps[t].(dynamicCurrent := false))
            && (forall g | g in s.evidence ::
                 g in n.evidence && n.evidence[g] == s.evidence[g].(dynamicCurrent := false))
            && n.epoch == (s.epoch + 1) % TWO_64
  {
    hide Index, Mapped, EpochClosed;
  }

  /** A greeting binds the worker to its incarnation; a disconnection marks the sessions of the incarnation. */
  lemma SessionsFollow(s: State, m: HelloMsg, boot: Id)
    ensures var n := BindWorker(s, m).workers;
            && m.worker in n && n == s.workers[m.worker := n[m.worker]]
            && n[m.worker].boot == m.boot && n[m.worker].connected && n[m.worker].name == m.name
    ensures var n := Disconnect(s, boot).workers;
            && n.Keys == s.workers.Keys
            && forall u | u in n ::
                 n[u] == s.workers[u].(connected := s.workers[u].connected && s.workers[u].boot != boot)
  {
    hide FenceWorker, Mapped;
  }

  // ---- An operation whose outcome is unknown ----

  /** The plan's outcome is unknown, and the index knows. */
  predicate Blocked(s: State, p: Id, op: Id) {
    p in s.plans && s.plans[p].lifecycle == OUTCOME_UNKNOWN && s.plans[p].operation == op && op in s.active
  }

  /** A plan of the operation is answered or cancelled. */
  predicate Settles(w: World, a: Action, op: Id) {
    match a
    case Completed(m, _) =>
      CompletionGuard(w.st, m).Ok? && m.plan in w.st.plans && w.st.plans[m.plan].operation == op
    case CancelAsked(q) => CancelPlan(w.st, q).1.Ok? && q in w.st.plans && w.st.plans[q].operation == op
    case _ => false
  }

  /** What lifts it: the answer to, or cancel of, a plan of the operation, or whatever closes the plan. */
  predicate Unblocks(w: World, a: Action, p: Id, op: Id)
    requires p in w.st.plans
  {
    match a
    case Completed(_, _) => Settles(w, a, op)
    case CancelAsked(_) => Settles(w, a, op)
    case WorkerFenced(boot) => w.st.plans[p].authority.snapshot.workerBoot == boot
    case WorkerDropped(boot) => w.st.plans[p].authority.snapshot.workerBoot == boot
    case TargetRetired(t) => w.st.plans[p].target == t
    case EpochMoved => true
    case Loaded => true
    case _ => false
  }

  /** A rebuild finds every plan that is active. */
  lemma IndexFinds(plans: map<Id, Plan>, p: Id)
    requires p in plans && Active(plans[p].lifecycle)
    ensures plans[p].operation in Index(plans)
  {
    assert p in ActivePlansOf(plans, plans[p].operation);
  }

  /** In every run a fence or disconnection leaves the operation of a plan in flight blocked. */
  lemma FenceBlocks(c: Id, run: seq<Action>, a: Action, p: Id)
    requires Legal(c, run) && (a.WorkerFenced? || a.WorkerDropped?) && p in After(c, run).st.plans
    requires var plan := After(c, run).st.plans[p];
             plan.lifecycle == DISPATCHED && plan.authority.snapshot.workerBoot == a.boot
    ensures Blocked(Apply(After(c, run), a).st, p, After(c, run).st.plans[p].operation)
  {
    hide After, Apply, Index;
    SweepFate(c, run, a, p);
    SweepReindexes(After(c, run), a);
    IndexFinds(Apply(After(c, run), a).st.plans, p);
  }

  lemma SweptBlocked(w: World, a: Action, p: Id, op: Id)
    requires Inv(w) && Sweeps(a) && Blocked(w.st, p, op) && !Unblocks(w, a, p, op)
    ensures Blocked(Apply(w, a).st, p, op)
  {
    hide Apply, Inv, FenceWorker, Disconnect, RetireTarget, AdvanceEpoch, Index;
    KnownOf(w);
    WfAt(w.st.plans, p);
    AppliedSweep(w, a);
    if a.TargetRetired? {
      if a.target in w.st.runtime {
        RetireFate(w.st, a.target, p);
        SweepReindexes(w, a);
        IndexFinds(Apply(w, a).st.plans, p);
      } else {
        RetireNothing(w.st, a.target);
      }
    } else {
      FenceFate(w.st, a.boot, p);
      SweepReindexes(w, a);
      IndexFinds(Apply(w, a).st.plans, p);
    }
  }

  lemma AnsweredOthers(s: State, m: ResultMsg, id: Id, p: Id, op: Id)
    requires PlansWf(s.plans) && Blocked(s, p, op)
    requires !(CompletionGuard(s, m).Ok? && m.plan in s.plans && s.plans[m.plan].operation == op)
    ensures Blocked(ApplyResult(s, m, id).0, p, op)
  {
    hide VerdictOf, ResultFor, Released, PlanWf;
  }

  lemma CancelledOthers(s: State, q: Id, p: Id, op: Id)
    requires Blocked(s, p, op) && !(CancelPlan(s, q).1.Ok? && q in s.plans && s.plans[q].operation == op)
    ensures Blocked(CancelPlan(s, q).0, p, op)
  {
    hide Released;
  }

  lemma PlannedOthers(s: State, o: Id, id: Id, p: Id, op: Id)
    requires Blocked(s, p, op) && id != p
    ensures Blocked(MakePlan(s, o, id).0, p, op)
  {
    hide MakePlan, EligibleTarget;
    var t := Created(s, o, id);
  }

  lemma ReservedOthers(s: State, q: Id, p: Id, op: Id)
    requires PlansWf(s.plans) && Blocked(s, p, op)
    ensures Blocked(Reserve(s, q).0, p, op)
  {
    hide Reserve, PlansWf;
    ReserveSpares(s, q, p);
  }

  lemma PreparedOthers(s: State, q: Id, d: Id, a: Id, payload: bytes, p: Id, op: Id)
    requires Blocked(s, p, op)
    ensures Blocked(PrepareDispatch(s, q, d, a, payload).0, p, op)
  {
    hide PrepareDispatch;
    PrepareSpares(s, q, d, a, payload, p);
  }

  lemma ConfirmedOthers(s: State, q: Id, d: Id, p: Id, op: Id)
    requires Blocked(s, p, op)
    ensures Blocked(ConfirmDispatched(s, q, d).0, p, op)
  {
  }

  lemma WorkBlocked(w: World, a: Action, p: Id, op: Id)
    requires Inv(w) && Enabled(w, a) && Works(a) && Blocked(w.st, p, op) && !Settles(w, a, op)
    ensures Blocked(Apply(w, a).st, p, op)
  {
    NewPlanIsNew(w, a);
    KnownOf(w);
    BlockedPlan(w.st, p, op);
    hide Apply, StateAfter, Inv, Known, Enabled, Blocked, MakePlan, ApplyResult, CancelPlan, CompletionGuard, PlansWf,
      Reserve, PrepareDispatch, ConfirmDispatched;
    Applied(w, a);
    if a.Completed? {
      AnsweredOthers(w.st, a.result, a.id, p, op);
    } else if a.CancelAsked? {
      CancelledOthers(w.st, a.plan, p, op);
    } else if a.Planned? {
      PlannedOthers(w.st, a.op, a.id, p, op);
    } else if a.ReserveAsked? {
      ReservedOthers(w.st, a.plan, p, op);
    } else if a.PrepareAsked? {
      PreparedOthers(w.st, a.plan, a.dispatch, a.attempt, a.payload, p, op);
    } else {
      ConfirmedOthers(w.st, a.plan, a.dispatch, p, op);
    }
  }

  lemma BlockedStep(w: World, a: Action, p: Id, op: Id)
    requires Inv(w) && Enabled(w, a) && Blocked(w.st, p, op) && !Unblocks(w, a, p, op)
    ensures Blocked(Apply(w, a).st, p, op)
  {
    BlockedPlan(w.st, p, op);
    hide Apply, StateAfter, Inv, Enabled, Blocked, CancelPlan, CompletionGuard;
    if Sweeps(a) {
      SweptBlocked(w, a, p, op);
    } else if Works(a) {
      WorkBlocked(w, a, p, op);
    } else {
      Stepped(w, a);
      SameBlocked(w.st, Apply(w, a).st, p, op);
    }
  }

  lemma BlockedPlan(s: State, p: Id, op: Id)
    requires Blocked(s, p, op)
    ensures p in s.plans
  {
  }

  lemma SameBlocked(s: State, n: State, p: Id, op: Id)
    requires Blocked(s, p, op) && n.plans == s.plans && n.active == s.active
    ensures Blocked(n, p, op)
  {
  }

  /** While it is blocked, planning the operation changes nothing and creates nothing. */
  lemma BlockedIsRefused(s: State, p: Id, op: Id, id: Id)
    requires Blocked(s, p, op) && OperationsKeyed(s)
    ensures MakePlan(s, op, id).0 == s && MakePlan(s, op, id).1.Err?
    ensures op in s.operations && s.operations[op].policy in s.policies ==> MakePlan(s, op, id).1.code == E_PLAN_ACTIVE
  {
    hide RankedFor, PlanFor;
  }

  /**
   In every run: once a fence or a disconnection at step i has caught a plan in flight, its operation cannot be
   planned again until a plan of it is answered or cancelled, or the plan is fenced again, retired, or closed by an
   epoch change or a start of the process.
   */
  lemma {:induction false} BlockedLasts(c: Id, run: seq<Action>, i: nat, p: Id, op: Id)
    requires Legal(c, run) && i <= |run| && Blocked(After(c, run[..i]).st, p, op)
    requires forall j | i <= j < |run| && p in After(c, run[..j]).st.plans ::
               !Unblocks(After(c, run[..j]), run[j], p, op)
    ensures Blocked(After(c, run).st, p, op)
    decreases |run|
  {
    hide Apply, Inv, Enabled, Blocked, Unblocks;
    if i == |run| {
      assert run[..i] == run;
    } else {
      var front := run[..|run| - 1];
      assert front[..i] == run[..i] && run[..|front|] == front;
      forall j | i <= j < |front| && p in After(c, front[..j]).st.plans
        ensures !Unblocks(After(c, front[..j]), front[j], p, op)
      {
        assert front[..j] == run[..j];
      }
      BlockedLasts(c, front, i, p, op);
      RunInv(c, front);
      BlockedPlan(After(c, front).st, p, op);
      BlockedStep(After(c, front), run[|front|], p, op);
    }
  }

  lemma UnknownIsNotReplanned(c: Id, run: seq<Action>, i: nat, p: Id, id: Id)
    requires Legal(c, run) && i < |run| && (run[i].WorkerFenced? || run[i].WorkerDropped?)
    requires p in After(c, run[..i]).st.plans
    requires var plan := After(c, run[..i]).st.plans[p];
             && plan.lifecycle == DISPATCHED && plan.authority.snapshot.workerBoot == run[i].boot
             && forall j | i < j < |run| && p in After(c, run[..j]).st.plans ::
                  !Unblocks(After(c, run[..j]), run[j], p, plan.operation)
    ensures var s, op := After(c, run).st, After(c, run[..i]).st.plans[p].operation;
            && MakePlan(s, op, id).0 == s && MakePlan(s, op, id).1.Err?
            && (op in s.operations && s.operations[op].policy in s.policies ==>
                  MakePlan(s, op, id).1.code == E_PLAN_ACTIVE)
  {
    hide After, Apply, Inv, Blocked, Unblocks, MakePlan, Supported;
    var op := After(c, run[..i]).st.plans[p].operation;
    LegalPrefix(c, run, i);
    FenceBlocks(c, run[..i], run[i], p);
    BlockedLasts(c, run, i + 1, p, op);
    RunInv(c, run);
    SupportedOf(After(c, run));
    SupportedParts(After(c, run).st);
    BlockedIsRefused(After(c, run).st, p, op, id);
  }
}
