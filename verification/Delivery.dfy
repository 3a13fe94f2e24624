/**
 No false rejection: the completion a worker echoes for a prepared and confirmed dispatch is committed in every
 run in which nothing revoked its authority in between.
 */
module Delivery {
  import opened Types
  import opened Digest
  import opened Engine
  import opened Runs
  import opened PlanLifecycle
  import opened Support
  import opened Safety
  import opened Slots

  /** The worker's reply: every authority field of the dispatch is echoed, the digest is that of the output. */
  function Echo(d: DispatchMsg, output: bytes, note: bytes): ResultMsg {
    ResultMsg(d.plan, d.planGen, d.dispatch, d.attempt, d.target, d.targetGen, d.workerBoot, d.epoch,
              d.datasetGen, d.regionGen, d.operationGen, 1, output, HexDigest(output), false, note)
  }

  /** The plan carries the dispatch and pins what the message says. */
  predicate Carries(plan: Plan, d: DispatchMsg) {
    var snap := plan.authority.snapshot;
    && plan.dispatchId == Some(d.dispatch) && plan.attemptId == Some(d.attempt)
    && plan.authority.plan == d.plan && plan.authority.planGeneration == d.planGen
    && plan.target == d.target && snap.targetGeneration == d.targetGen
    && snap.workerBoot == d.workerBoot && snap.epoch == d.epoch
    && snap.datasetGeneration == d.datasetGen && snap.regionGeneration == d.regionGen
    && snap.operationGeneration == d.operationGen
  }

  /** The live state still agrees with the message. */
  predicate Agrees(s: State, d: DispatchMsg) {
    && s.epoch == d.epoch
    && (d.target in s.targets ==> s.targets[d.target].generation == d.targetGen)
    && (d.target in s.runtime ==> s.runtime[d.target].ownerBoot == d.workerBoot)
  }

  predicate Bound(s: State, d: DispatchMsg) {
    && d.plan in s.plans && s.plans[d.plan].lifecycle in {RESERVED, DISPATCHED}
    && Carries(s.plans[d.plan], d) && Agrees(s, d)
  }

  /** A bound, dispatched plan commits its echo. */
  lemma BoundCommits(s: State, d: DispatchMsg, output: bytes, note: bytes, id: Id)
    requires Bound(s, d) && s.plans[d.plan].lifecycle == DISPATCHED
    ensures var r := ApplyResult(s, Echo(d, output, note), id);
            r.1.Ok? && r.1.value.committed && r.1.value.outputDigest == HexDigest(output)
            && d.plan in r.0.plans && r.0.plans[d.plan].lifecycle == COMMITTED
  {
  }

  lemma PreparedIsBound(w: World, p: Id, d: Id, t: Id, payload: bytes)
    requires Inv(w) && PrepareDispatch(w.st, p, d, t, payload).1.Ok?
    ensures var r := PrepareDispatch(w.st, p, d, t, payload);
            Bound(r.0, r.1.value.message) && r.1.value.message.plan == p && r.1.value.message.dispatch == d
            && r.0.plans[p].lifecycle == RESERVED
  {
    assert PlanWf(p, w.st.plans[p]);
    assert PlanSupported(w.st, w.st.plans[p]);
    hide Inv, SessionsOf;
  }

  // ---- What disturbs a dispatch ----

  predicate Disturbs(w: World, a: Action, d: DispatchMsg) {
    match a
    case EpochMoved => true
    case Loaded => true
    case WorkerFenced(boot) => boot == d.workerBoot
    case WorkerDropped(boot) => boot == d.workerBoot
    case TargetRetired(t) => t == d.target
    case Registered(m) =>
      && m.target == d.target && RegisterTarget(w.st, m).1.Ok?
      && (m.generation != d.targetGen || m.ownerBoot != d.workerBoot)
    case CancelAsked(p) => p == d.plan
    case Completed(m, _) => m.plan == d.plan && CompletionGuard(w.st, m).Ok?
    case _ => false
  }

  /** A second preparation of a plan that is still reserved; it may bind another dispatch, or be refused. */
  predicate Reprepares(w: World, a: Action, d: DispatchMsg) {
    a.PrepareAsked? && a.plan == d.plan && d.plan in w.st.plans && w.st.plans[d.plan].lifecycle == RESERVED
  }

  // ---- Everything else leaves the plan alone, or confirms it ----

  lemma FenceSpares(s: State, boot: Id, p: Id)
    requires p in s.plans && s.plans[p].authority.snapshot.workerBoot != boot
    ensures p in FenceWorker(s, boot).plans && FenceWorker(s, boot).plans[p] == s.plans[p]
  {
    hide Index, Revoked;
  }

  lemma RetireSpares(s: State, t: Id, p: Id)
    requires p in s.plans && s.plans[p].target != t
    ensures p in RetireTarget(s, t).0.plans && RetireTarget(s, t).0.plans[p] == s.plans[p]
  {
    hide Index;
  }

  lemma ReserveSpares(s: State, q: Id, p: Id)
    requires PlansWf(s.plans) && p in s.plans && s.plans[p].lifecycle != PLANNED
    ensures p in Reserve(s, q).0.plans && Reserve(s, q).0.plans[p] == s.plans[p]
  {
    hide Reserve, PlanWf;
    if q in s.plans { WfId(s.plans, q); }
    ReservePlans(s, q);
  }

  lemma PreparePlans(s: State, q: Id, d: Id, t: Id, payload: bytes)
    ensures var r := PrepareDispatch(s, q, d, t, payload);
            && (r.1.Ok? || r.1.code == E_STALE_PLAN ==> q in s.plans && s.plans[q].lifecycle == RESERVED)
            && (r.1.Ok? ==> r.0.plans == s.plans[q := s.plans[q].(dispatchId := Some(d), attemptId := Some(t))])
            && (r.1.Err? && r.1.code == E_STALE_PLAN ==>
                 r.0.plans == s.plans[q := s.plans[q].(lifecycle := SUPERSEDED)])
            && (r.1.Err? && r.1.code != E_STALE_PLAN ==> r.0 == s)
  {
    hide Fresh, DispatchFor, SessionsOf;
  }

  lemma PrepareSpares(s: State, q: Id, d: Id, t: Id, payload: bytes, p: Id)
    requires p in s.plans && !(q == p && s.plans[p].lifecycle == RESERVED)
    ensures var n := PrepareDispatch(s, q, d, t, payload).0; p in n.plans && n.plans[p] == s.plans[p]
  {
    hide PrepareDispatch;
    PreparePlans(s, q, d, t, payload);
  }

  lemma ConfirmSpares(s: State, q: Id, d: Id, p: Id)
    requires p in s.plans
    ensures var n := ConfirmDispatched(s, q, d).0;
            p in n.plans && (n.plans[p] == s.plans[p] ||
              (s.plans[p].lifecycle == RESERVED && n.plans[p] == s.plans[p].(lifecycle := DISPATCHED)))
  {
  }

  lemma ResultSpares(s: State, m: ResultMsg, id: Id, p: Id)
    requires p in s.plans && !(m.plan == p && CompletionGuard(s, m).Ok?)
    ensures var n := ApplyResult(s, m, id).0; p in n.plans && n.plans[p] == s.plans[p]
  {
    hide CompletionGuard, VerdictOf, ResultFor, Released;
  }

  lemma CancelSpares(s: State, q: Id, p: Id)
    requires p in s.plans && q != p
    ensures var n := CancelPlan(s, q).0; p in n.plans && n.plans[p] == s.plans[p]
  {
    hide Released;
  }

  lemma PlanSpares(s: State, op: Id, id: Id, p: Id)
    requires p in s.plans && id != p
    ensures var n := MakePlan(s, op, id).0; p in n.plans && n.plans[p] == s.plans[p]
  {
    hide MakePlan, EligibleTarget;
    var t := Created(s, op, id);
  }

  predicate Stays(o: Plan, n: Plan) {
    n == o || (o.lifecycle == RESERVED && n == o.(lifecycle := DISPATCHED))
  }

  lemma SparedWork(w: World, a: Action, d: DispatchMsg)
    requires !Disturbs(w, a, d)
    ensures a.CancelAsked? ==> a.plan != d.plan
    ensures a.Completed? ==> !(a.result.plan == d.plan && CompletionGuard(w.st, a.result).Ok?)
  {
    hide CompletionGuard;
  }

  lemma WorkStays(w: World, a: Action, d: DispatchMsg)
    requires Inv(w) && Enabled(w, a) && Bound(w.st, d) && !Disturbs(w, a, d) && !Reprepares(w, a, d) && Works(a)
    ensures d.plan in Apply(w, a).st.plans && Stays(w.st.plans[d.plan], Apply(w, a).st.plans[d.plan])
  {
    NewPlanIsNew(w, a);
    hide Inv, Enabled, Apply, Agrees, CompletionGuard, NewIds, Known, MakePlan, Reserve, PrepareDispatch,
      ConfirmDispatched, ApplyResult, CancelPlan, PlanWf, Carries, Disturbs;
    SparedWork(w, a, d);
    var s, p := w.st, d.plan;
    Applied(w, a);
    if a.Planned? {
      PlanSpares(s, a.op, a.id, p);
    } else if a.ReserveAsked? {
      ReserveSpares(s, a.plan, p);
    } else if a.PrepareAsked? {
      PrepareSpares(s, a.plan, a.dispatch, a.attempt, a.payload, p);
    } else if a.ConfirmAsked? {
      ConfirmSpares(s, a.plan, a.dispatch, p);
    } else if a.Completed? {
      ResultSpares(s, a.result, a.id, p);
    } else {
      CancelSpares(s, a.plan, p);
    }
  }

  lemma PlanStays(w: World, a: Action, d: DispatchMsg)
    requires Inv(w) && Enabled(w, a) && Bound(w.st, d) && !Disturbs(w, a, d) && !Reprepares(w, a, d) && !a.Loaded?
    ensures d.plan in Apply(w, a).st.plans && Stays(w.st.plans[d.plan], Apply(w, a).st.plans[d.plan])
  {
    hide Inv, Enabled, Apply, Agrees, CompletionGuard, RetireTarget, FenceWorker;
    if Works(a) {
      WorkStays(w, a, d);
    } else if Quiet(a) {
      QuietStays(w, a);
    } else {
      AppliedSweep(w, a);
      if a.TargetRetired? {
        RetireSpares(w.st, a.target, d.plan);
      } else {
        FenceSpares(w.st, a.boot, d.plan);
      }
    }
  }

  lemma QuietStays(w: World, a: Action)
    requires Quiet(a) && !a.Loaded?
    ensures Apply(w, a).st.plans == w.st.plans
  {
    hide Apply, StateAfter;
    Stepped(w, a);
  }

  // ---- The live authority stays as the message says ----

  predicate SameOwners(s: State, n: State) {
    n.runtime.Keys == s.runtime.Keys && forall t | t in s.runtime :: n.runtime[t].ownerBoot == s.runtime[t].ownerBoot
  }

  lemma FenceOwners(s: State, boot: Id)
    ensures SameOwners(s, FenceWorker(s, boot))
  {
    hide Index, FencedPlan;
  }

  lemma RetireOwners(s: State, t: Id)
    ensures SameOwners(s, RetireTarget(s, t).0)
  {
    hide Index;
  }

  lemma BeatOwners(s: State, m: HeartbeatMsg)
    ensures SameOwners(s, Heartbeat(s, m).0)
  {
  }

  lemma DrainOwners(s: State, t: Id)
    ensures SameOwners(s, BeginDrain(s, t).0)
  {
  }

  lemma OwnersStay(w: World, a: Action)
    requires !a.Registered? && !a.EpochMoved? && !a.Loaded?
    ensures SameOwners(w.st, Apply(w, a).st)
  {
    hide Apply, StateAfter, Heartbeat, BeginDrain, FenceWorker, Disconnect, RetireTarget;
    Stepped(w, a);
    AppliedSweep(w, a);
    AppliedRuntime(w, a);
    if a.Beat? {
      BeatOwners(w.st, a.beat);
    } else if a.DrainAsked? {
      DrainOwners(w.st, a.target);
    } else if a.TargetRetired? {
      RetireOwners(w.st, a.target);
    } else if Sweeps(a) {
      FenceOwners(w.st, a.boot);
    }
  }

  lemma RegisterAgrees(s: State, m: RegisterTargetMsg, d: DispatchMsg)
    requires Agrees(s, d)
    requires m.target == d.target && RegisterTarget(s, m).1.Ok? ==>
               m.generation == d.targetGen && m.ownerBoot == d.workerBoot
    ensures Agrees(RegisterTarget(s, m).0, d)
  {
  }

  lemma AgreesStep(w: World, a: Action, d: DispatchMsg)
    requires Inv(w) && Agrees(w.st, d) && !Disturbs(w, a, d) && !a.Loaded?
    ensures Agrees(Apply(w, a).st, d)
  {
    RuntimeDefined(w);
    hide Inv, Apply, RegisterTarget, CompletionGuard, Extends;
    if a.Registered? {
      AppliedDefinition(w, a);
      hide Agrees;
      RegisterAgrees(w.st, a.registration, d);
    } else {
      StepGrows(w, a);
      TargetsStay(w, a);
      OwnersStay(w, a);
    }
  }

  lemma BoundStep(w: World, a: Action, d: DispatchMsg)
    requires Inv(w) && Enabled(w, a) && Bound(w.st, d) && !Disturbs(w, a, d) && !Reprepares(w, a, d)
    ensures Bound(Apply(w, a).st, d) && Stays(w.st.plans[d.plan], Apply(w, a).st.plans[d.plan])
  {
    hide Inv, Apply, Enabled, Agrees;
    if a.Loaded? {
      LoadedWorld(w);
    } else {
      PlanStays(w, a, d);
      AgreesStep(w, a, d);
    }
  }

  /** From the dispatch on, nothing up to the end of the run disturbs it. */
  ghost predicate Undisturbed(c: Id, run: seq<Action>, i: nat, d: DispatchMsg) {
    forall j | i <= j < |run| :: !Disturbs(After(c, run[..j]), run[j], d)
  }

  // ---- A second preparation ----

  /** The dispatch can no longer be confirmed: its plan has moved on or carries another dispatch. */
  predicate Gone(w: World, d: DispatchMsg) {
    d.plan in w.st.plans ==>
      w.st.plans[d.plan].lifecycle !in {RESERVED, DISPATCHED} || w.st.plans[d.plan].dispatchId != Some(d.dispatch)
  }

  ghost predicate Followed(w: World, d: DispatchMsg) {
    d.dispatch in w.used.dispatches && (Bound(w.st, d) || Gone(w, d))
  }

  lemma GoneMoves(o: Plan, n: Plan, a: Action, d: DispatchMsg)
    requires PlanWf(d.plan, o) && Evolves(o, n) && Caused(d.plan, o, n, a)
    requires a.PrepareAsked? ==> a.dispatch != d.dispatch
    requires o.lifecycle !in {RESERVED, DISPATCHED} || o.dispatchId != Some(d.dispatch)
    ensures n.lifecycle !in {RESERVED, DISPATCHED} || n.dispatchId != Some(d.dispatch)
  {
  }

  /** An identity is bound only once, so what is gone does not come back. */
  lemma GoneStep(w: World, a: Action, d: DispatchMsg)
    requires Inv(w) && Enabled(w, a) && !a.Loaded? && d.dispatch in w.used.dispatches && Gone(w, d)
    ensures Gone(Apply(w, a), d)
  {
    hide Inv, Apply, PlanWf, Evolves, Caused, Moves, Enabled, Known, PlansWf;
    KnownOf(w);
    KnownPlans(w);
    StepMoves(w, a);
    FreshDispatch(w, a, d);
    var n := Apply(w, a).st.plans;
    if d.plan in n {
      OnePlanMoves(w.st.plans, n, a, d.plan);
      if d.plan in w.st.plans {
        GoneMoves(w.st.plans[d.plan], n[d.plan], a, d);
      }
    }
  }

  lemma FreshDispatch(w: World, a: Action, d: DispatchMsg)
    requires Enabled(w, a) && d.dispatch in w.used.dispatches
    ensures a.PrepareAsked? ==> a.dispatch != d.dispatch
  {
  }

  lemma OnePlanMoves(old_: map<Id, Plan>, new_: map<Id, Plan>, a: Action, p: Id)
    requires PlansWf(old_) && Moves(old_, new_, a) && p in new_
    ensures p in old_ ==> PlanWf(p, old_[p]) && Evolves(old_[p], new_[p]) && Caused(p, old_[p], new_[p], a)
    ensures p !in old_ ==> new_[p].lifecycle == PLANNED
  {
    hide PlanWf, Evolves, Caused;
  }

  lemma ReprepareStep(w: World, a: Action, d: DispatchMsg)
    requires Enabled(w, a) && d.dispatch in w.used.dispatches && Bound(w.st, d) && Reprepares(w, a, d)
    ensures Bound(Apply(w, a).st, d) || Gone(Apply(w, a), d)
  {
    hide Apply, PrepareDispatch, Agrees, Carries;
    Applied(w, a);
    PreparePlans(w.st, a.plan, a.dispatch, a.attempt, a.payload);
  }

  lemma FollowedStep(w: World, a: Action, d: DispatchMsg)
    requires Inv(w) && Enabled(w, a) && Followed(w, d) && !Disturbs(w, a, d)
    ensures Followed(Apply(w, a), d)
  {
    UsedAfter(w, a);
    LoadedWorld(w);
    hide Inv, Apply, Enabled, Bound, Gone, Reprepares, NewIds;
    if !Bound(w.st, d) {
      if !a.Loaded? {
        GoneStep(w, a, d);
      }
    } else if Reprepares(w, a, d) {
      ReprepareStep(w, a, d);
    } else {
      BoundStep(w, a, d);
    }
  }

  // ---- Over runs ----

  lemma {:induction false} FollowedLasts(c: Id, run: seq<Action>, i: nat, d: DispatchMsg)
    requires Legal(c, run) && i <= |run| && Followed(After(c, run[..i]), d) && Undisturbed(c, run, i, d)
    ensures Followed(After(c, run), d)
    decreases |run|
  {
    hide Inv, Apply, Enabled, Disturbs, Followed;
    if i == |run| {
      assert run[..i] == run;
    } else {
      var front := run[..|run| - 1];
      assert front[..i] == run[..i] && run[..|front|] == front;
      FrontUndisturbed(c, run, i, d);
      FollowedLasts(c, front, i, d);
      RunInv(c, front);
      FollowedStep(After(c, front), run[|front|], d);
    }
  }

  lemma FrontUndisturbed(c: Id, run: seq<Action>, i: nat, d: DispatchMsg)
    requires i < |run| && Undisturbed(c, run, i, d)
    ensures Undisturbed(c, run[..|run| - 1], i, d) && !Disturbs(After(c, run[..|run| - 1]), run[|run| - 1], d)
  {
    hide Apply, Disturbs;
    var front := run[..|run| - 1];
    forall j | i <= j < |front| ensures !Disturbs(After(c, front[..j]), front[j], d) {
      assert front[..j] == run[..j];
    }
  }

  /** Bound, and past the point where a preparation can touch it. */
  predicate Underway(s: State, d: DispatchMsg) {
    Bound(s, d) && s.plans[d.plan].lifecycle == DISPATCHED
  }

  lemma UnderwayStep(w: World, a: Action, d: DispatchMsg)
    requires Inv(w) && Enabled(w, a) && Underway(w.st, d) && !Disturbs(w, a, d)
    ensures Underway(Apply(w, a).st, d)
  {
    hide Inv, Apply, Enabled, Disturbs, Agrees, Carries;
    BoundStep(w, a, d);
  }

  lemma {:induction false} UnderwayLasts(c: Id, run: seq<Action>, i: nat, d: DispatchMsg)
    requires Legal(c, run) && i <= |run| && Underway(After(c, run[..i]).st, d) && Undisturbed(c, run, i, d)
    ensures Underway(After(c, run).st, d)
    decreases |run|
  {
    hide Inv, Apply, Enabled, Disturbs, Underway;
    if i == |run| {
      assert run[..i] == run;
    } else {
      var front := run[..|run| - 1];
      assert front[..i] == run[..i] && run[..|front|] == front;
      FrontUndisturbed(c, run, i, d);
      UnderwayLasts(c, front, i, d);
      RunInv(c, front);
      UnderwayStep(After(c, front), run[|front|], d);
    }
  }

  /** A confirmation that is accepted finds the dispatch it names still bound. */
  lemma ConfirmFinds(w: World, d: DispatchMsg)
    requires Followed(w, d) && ConfirmDispatched(w.st, d.plan, d.dispatch).1.Ok?
    ensures Bound(w.st, d) && Underway(ConfirmDispatched(w.st, d.plan, d.dispatch).0, d)
  {
  }

  /** The message of the preparation at step i. */
  function MessageOf(c: Id, run: seq<Action>, i: nat): Outcome<DispatchOutput>
    requires i < |run| && run[i].PrepareAsked?
  {
    PrepareDispatch(After(c, run[..i]).st, run[i].plan, run[i].dispatch, run[i].attempt, run[i].payload).1
  }

  lemma FollowedAfterPrepare(c: Id, run: seq<Action>, i: nat)
    requires Legal(c, run) && i < |run| && run[i].PrepareAsked? && MessageOf(c, run, i).Ok?
    ensures var d := MessageOf(c, run, i).value.message;
            Followed(After(c, run[..i + 1]), d) && d.plan == run[i].plan && d.dispatch == run[i].dispatch
  {
    hide Inv, Apply, Enabled, Bound, PrepareDispatch;
    LegalPrefix(c, run, i);
    RunInv(c, run[..i]);
    PreparedIsBound(After(c, run[..i]), run[i].plan, run[i].dispatch, run[i].attempt, run[i].payload);
    Applied(After(c, run[..i]), run[i]);
    UsedAfter(After(c, run[..i]), run[i]);
  }

  lemma FollowedUntil(c: Id, run: seq<Action>, i: nat, k: nat, d: DispatchMsg)
    requires Legal(c, run) && i <= k <= |run| && Followed(After(c, run[..i]), d) && Undisturbed(c, run, i, d)
    ensures Followed(After(c, run[..k]), d)
  {
    hide Inv, Apply, Enabled, Disturbs, Followed;
    LegalPrefix(c, run, k);
    assert run[..k][..i] == run[..i];
    forall j | i <= j < k ensures !Disturbs(After(c, run[..k][..j]), run[..k][j], d) {
      assert run[..k][..j] == run[..j];
    }
    FollowedLasts(c, run[..k], i, d);
  }

  lemma ConfirmedLasts(c: Id, run: seq<Action>, i: nat, k: nat, d: DispatchMsg)
    requires Legal(c, run) && i <= k < |run| && run[k] == ConfirmAsked(d.plan, d.dispatch)
    requires ConfirmDispatched(After(c, run[..k]).st, d.plan, d.dispatch).1.Ok?
    requires Followed(After(c, run[..i]), d) && Undisturbed(c, run, i, d)
    ensures Underway(After(c, run).st, d)
  {
    hide Inv, Apply, Enabled, Disturbs, Followed, Underway, ConfirmDispatched, Bound;
    FollowedUntil(c, run, i, k, d);
    LegalPrefix(c, run, k);
    Applied(After(c, run[..k]), run[k]);
    ConfirmFinds(After(c, run[..k]), d);
    UnderwayLasts(c, run, k + 1, d);
  }

  /**
   In every run: if step i prepares a dispatch, a later step k confirms it, and nothing after the preparation
   disturbs it, then the worker's echo is committed with the worker's digest. Other preparations of the same plan
   may come in between; if one had bound another dispatch, the confirmation would have been refused.
   */
  lemma HonestEchoCommits(c: Id, run: seq<Action>, i: nat, k: nat, output: bytes, note: bytes, id: Id)
    requires Legal(c, run) && i < k < |run| && run[i].PrepareAsked? && MessageOf(c, run, i).Ok?
    requires run[k] == ConfirmAsked(run[i].plan, run[i].dispatch)
    requires ConfirmDispatched(After(c, run[..k]).st, run[i].plan, run[i].dispatch).1.Ok?
    requires Undisturbed(c, run, i + 1, MessageOf(c, run, i).value.message)
    ensures var o := ApplyResult(After(c, run).st, Echo(MessageOf(c, run, i).value.message, output, note), id);
            && o.1.Ok? && o.1.value.committed && o.1.value.outputDigest == HexDigest(output)
            && run[i].plan in o.0.plans && o.0.plans[run[i].plan].lifecycle == COMMITTED
  {
    hide Inv, Apply, Enabled, Disturbs, Bound, MessageOf, ApplyResult, Echo, Followed, ConfirmDispatched;
    var d := MessageOf(c, run, i).value.message;
    FollowedAfterPrepare(c, run, i);
    ConfirmedLasts(c, run, i + 1, k, d);
    BoundCommits(After(c, run).st, d, output, note, id);
  }
}
