/**
 What the active-plan index holds and no more: a key is there only because a plan of the operation is live, because a
 rebuild found its outcome unknown, or because its plan went stale since the last rebuild.
 */
module IndexKeys {
  import opened Types
  import opened Engine
  import opened Runs
  import opened PlanLifecycle
  import opened Support
  import opened Safety
  import opened Ledger
  import opened IndexScan
  import opened Delivery
  import opened Fates

  /** The steps that compute the index anew from the plans. */
  predicate Rebuilds(w: World, a: Action) {
    || a.WorkerFenced? || a.WorkerDropped? || a.EpochMoved? || a.Loaded?
    || (a.TargetRetired? && a.target in w.st.runtime)
  }

  /** A preparation that finds its plan stale. */
  predicate GoesStale(w: World, a: Action) {
    a.PrepareAsked? && PrepareDispatch(w.st, a.plan, a.dispatch, a.attempt, a.payload).1 == Err(E_STALE_PLAN)
  }

  /** The plans superseded as stale since the index was last rebuilt. */
  function StaleSince(c: Id, run: seq<Action>): set<Id> {
    if run == [] then {}
    else
      var w, a := After(c, run[..|run| - 1]), run[|run| - 1];
      if Rebuilds(w, a) then {}
      else if GoesStale(w, a) then StaleSince(c, run[..|run| - 1]) + {a.plan}
      else StaleSince(c, run[..|run| - 1])
  }

  /** The index was rebuilt, and no plan of the operation was answered or cancelled since. */
  predicate RebuiltSince(c: Id, run: seq<Action>, op: Id) {
    run != [] &&
    var w, a := After(c, run[..|run| - 1]), run[|run| - 1];
    Rebuilds(w, a) || (RebuiltSince(c, run[..|run| - 1], op) && !Settles(w, a, op))
  }

  predicate Explains(plans: map<Id, Plan>, p: Id, op: Id, stale: set<Id>, rebuilt: bool) {
    && p in plans && plans[p].operation == op
    && (Live(plans[p].lifecycle) || (plans[p].lifecycle == OUTCOME_UNKNOWN && rebuilt)
        || (plans[p].lifecycle == SUPERSEDED && p in stale))
  }

  ghost predicate Explained(plans: map<Id, Plan>, op: Id, stale: set<Id>, rebuilt: bool) {
    exists p :: Explains(plans, p, op, stale, rebuilt)
  }

  // ---- One plan in one step ----

  /** A plan whose operation is not settled keeps its lifecycle, moves on while live, or goes stale. */
  predicate Carries(o: Plan, n: Plan, stale: bool) {
    && n.operation == o.operation
    && (n.lifecycle == o.lifecycle || (Live(o.lifecycle) && Live(n.lifecycle))
        || (stale && Live(o.lifecycle) && n.lifecycle == SUPERSEDED))
  }

  lemma ReserveCarries(s: State, q: Id, p: Id)
    requires PlansWf(s.plans) && p in s.plans
    ensures p in Reserve(s, q).0.plans && Carries(s.plans[p], Reserve(s, q).0.plans[p], false)
  {
    hide Reserve, PlanWf;
    if q in s.plans {
      WfId(s.plans, q);
    }
    ReservePlans(s, q);
  }

  lemma PrepareCarries(s: State, q: Id, d: Id, t: Id, payload: bytes, p: Id)
    requires p in s.plans
    ensures var r := PrepareDispatch(s, q, d, t, payload);
            p in r.0.plans && Carries(s.plans[p], r.0.plans[p], r.1 == Err(E_STALE_PLAN) && q == p)
  {
    hide PrepareDispatch;
    PreparePlans(s, q, d, t, payload);
  }

  lemma SettlingCarries(w: World, a: Action, p: Id)
    requires (a.Completed? || a.CancelAsked?) && p in w.st.plans && !Settles(w, a, w.st.plans[p].operation)
    ensures p in Apply(w, a).st.plans && Apply(w, a).st.plans[p] == w.st.plans[p]
  {
    hide Apply, ApplyResult, CancelPlan, CompletionGuard;
    Applied(w, a);
    if a.Completed? {
      ResultSpares(w.st, a.result, a.id, p);
    } else if a.plan == p {
      RefusedCancel(w.st, p);
    } else {
      CancelSpares(w.st, a.plan, p);
    }
  }

  lemma WorkCarries(w: World, a: Action, p: Id)
    requires Inv(w) && Enabled(w, a) && Works(a) && p in w.st.plans && !Settles(w, a, w.st.plans[p].operation)
    ensures p in Apply(w, a).st.plans
    ensures Carries(w.st.plans[p], Apply(w, a).st.plans[p], GoesStale(w, a) && a.PrepareAsked? && a.plan == p)
  {
    NewPlanIsNew(w, a);
    KnownOf(w);
    hide Inv, Enabled, Apply, NewIds, Known, MakePlan, Reserve, PrepareDispatch, ConfirmDispatched, PlanWf, Settles;
    Applied(w, a);
    if a.Planned? {
      PlanSpares(w.st, a.op, a.id, p);
    } else if a.ReserveAsked? {
      ReserveCarries(w.st, a.plan, p);
    } else if a.PrepareAsked? {
      PrepareCarries(w.st, a.plan, a.dispatch, a.attempt, a.payload, p);
    } else if a.ConfirmAsked? {
      ConfirmSpares(w.st, a.plan, a.dispatch, p);
    } else {
      SettlingCarries(w, a, p);
    }
  }

  lemma StepCarries(w: World, a: Action, p: Id)
    requires Inv(w) && Enabled(w, a) && !Rebuilds(w, a) && p in w.st.plans
    requires !Settles(w, a, w.st.plans[p].operation)
    ensures p in Apply(w, a).st.plans
    ensures Carries(w.st.plans[p], Apply(w, a).st.plans[p], GoesStale(w, a) && a.PrepareAsked? && a.plan == p)
  {
    hide Inv, Enabled, Apply, RetireTarget, Settles, GoesStale;
    if Works(a) {
      WorkCarries(w, a, p);
    } else if Quiet(a) {
      QuietStays(w, a);
    } else {
      AppliedSweep(w, a);
      RetireNothing(w.st, a.target);
    }
  }

  // ---- One key in one step ----

  lemma CompletionDrops(s: State, m: ResultMsg, id: Id, op: Id)
    ensures op in ApplyResult(s, m, id).0.active <==>
            op in s.active && !(CompletionGuard(s, m).Ok? && m.plan in s.plans && s.plans[m.plan].operation == op)
  {
    hide VerdictOf, ResultFor, Released, CompletionMatches;
  }

  lemma CancelDrops(s: State, p: Id, op: Id)
    ensures op in CancelPlan(s, p).0.active <==>
            op in s.active && !(CancelPlan(s, p).1.Ok? && p in s.plans && s.plans[p].operation == op)
  {
    hide Released, Active;
    if p in s.plans && Active(s.plans[p].lifecycle) {
      var rest := s.active - {s.plans[p].operation};
      assert CancelPlan(s, p).0.active == rest;
    } else {
      assert CancelPlan(s, p).0 == s;
    }
  }

  predicate PlansFor(w: World, a: Action, op: Id) {
    a.Planned? && Creates(w.st, a.op, a.id) && a.op in w.st.operations && w.st.operations[a.op].id == op
  }

  /** Between rebuilds a key enters with a plan of the operation and leaves when one is answered or cancelled. */
  lemma KeyStep(w: World, a: Action, op: Id)
    requires !Rebuilds(w, a)
    ensures op in Apply(w, a).st.active <==> PlansFor(w, a, op) || (op in w.st.active && !Settles(w, a, op))
  {
    hide Apply, MakePlan, ApplyResult, CancelPlan, CompletionGuard, EligibleTarget, PlanFor;
    Applied(w, a);
    if a.Planned? {
      var t := Created(w.st, a.op, a.id);
    } else if a.Completed? {
      CompletionDrops(w.st, a.result, a.id, op);
    } else if a.CancelAsked? {
      CancelDrops(w.st, a.plan, op);
    } else {
      IndexLeft(w, a);
    }
  }

  lemma CreatedPlan(s: State, o: Id, id: Id)
    requires Creates(s, o, id)
    ensures var n := MakePlan(s, o, id).0;
            o in s.operations && id in n.plans && n.plans[id].lifecycle == PLANNED &&
            n.plans[id].operation == s.operations[o].id
  {
    hide MakePlan, EligibleTarget, SnapshotFor;
    var t := Created(s, o, id);
  }

  // ---- Rebuilds ----

  lemma IndexIsActive(plans: map<Id, Plan>, op: Id) returns (p: Id)
    requires op in Index(plans)
    ensures p in plans && Active(plans[p].lifecycle) && plans[p].operation == op
  {
    p :| p in ActivePlansOf(plans, op);
  }

  lemma LoadReindexes(w: World)
    ensures var n := Apply(w, Loaded).st; n.active == Index(n.plans)
  {
    LoadedWorld(w);
    hide Apply, EpochClosed;
    if w.disk.None? {
      EmptyIndex();
    } else {
      hide Index;
    }
  }

  lemma EmptyIndex()
    ensures Index(map[]) == map[]
  {
  }

  lemma RebuildReindexes(w: World, a: Action)
    requires Rebuilds(w, a)
    ensures Apply(w, a).st.active == Index(Apply(w, a).st.plans)
  {
    hide Apply, Index;
    if a.Loaded? {
      LoadReindexes(w);
    } else {
      SweepReindexes(w, a);
    }
  }

  lemma RebuiltKey(n: State, op: Id, stale: set<Id>)
    requires PlansWf(n.plans) && n.active == Index(n.plans) && op in n.active
    ensures Explained(n.plans, op, stale, true)
  {
    hide Index;
    var p := IndexIsActive(n.plans, op);
    WfAt(n.plans, p);
    assert Explains(n.plans, p, op, stale, true);
  }

  // ---- Over runs ----

  lemma OneKey(w: World, a: Action, op: Id, stale: set<Id>, rebuilt: bool)
    requires Inv(w) && Enabled(w, a) && !Rebuilds(w, a) && op in Apply(w, a).st.active
    requires op in w.st.active ==> Explained(w.st.plans, op, stale, rebuilt)
    ensures Explained(Apply(w, a).st.plans, op, if GoesStale(w, a) then stale + {a.plan} else stale,
                      rebuilt && !Settles(w, a, op))
  {
    hide Inv, Enabled, Apply, MakePlan, Settles, Rebuilds, GoesStale, Live, Creates;
    KeyStep(w, a, op);
    Applied(w, a);
    var stale' := if GoesStale(w, a) then stale + {StalePlan(w, a)} else stale;
    if PlansFor(w, a, op) {
      CreatedPlan(w.st, a.op, a.id);
      PlannedIsLive();
      assert Explains(Apply(w, a).st.plans, a.id, op, stale', rebuilt && !Settles(w, a, op));
    } else {
      var p :| Explains(w.st.plans, p, op, stale, rebuilt);
      StepCarries(w, a, p);
      StillExplains(w, a, p, op, stale, rebuilt);
    }
  }

  function StalePlan(w: World, a: Action): Id
    requires GoesStale(w, a)
  {
    a.plan
  }

  lemma PlannedIsLive()
    ensures Live(PLANNED)
  {
  }

  lemma StillExplains(w: World, a: Action, p: Id, op: Id, stale: set<Id>, rebuilt: bool)
    requires Explains(w.st.plans, p, op, stale, rebuilt) && p in Apply(w, a).st.plans && !Settles(w, a, op)
    requires Carries(w.st.plans[p], Apply(w, a).st.plans[p], GoesStale(w, a) && a.PrepareAsked? && a.plan == p)
    ensures Explains(Apply(w, a).st.plans, p, op, if GoesStale(w, a) then stale + {a.plan} else stale, rebuilt)
  {
    hide Apply, PrepareDispatch, Settles;
  }

  /**
   In every run, a key of the index has its reason: a live plan of the operation; a plan with an unknown outcome,
   found by a rebuild since which no plan of the operation was answered or cancelled; or a plan superseded as stale
   since the last rebuild.
   */
  lemma {:induction false} KeysAreExplained(c: Id, run: seq<Action>, op: Id)
    requires Legal(c, run) && op in After(c, run).st.active
    ensures Explained(After(c, run).st.plans, op, StaleSince(c, run), RebuiltSince(c, run, op))
    decreases |run|
  {
    hide Apply, Inv, Enabled, Explained, Rebuilds, GoesStale, Settles;
    if run != [] {
      var front, a := run[..|run| - 1], run[|run| - 1];
      var w := After(c, front);
      RunInv(c, front);
      if Rebuilds(w, a) {
        RunInv(c, run);
        RebuildReindexes(w, a);
        KnownOf(After(c, run));
        RebuiltKey(After(c, run).st, op, StaleSince(c, run));
      } else {
        if op in w.st.active {
          KeysAreExplained(c, front, op);
        }
        OneKey(w, a, op, StaleSince(c, front), RebuiltSince(c, front, op));
      }
    }
  }

  /** The key stays away until a plan of the operation is made or the index rebuilt. */
  lemma {:induction false} KeyStaysAway(c: Id, run: seq<Action>, i: nat, op: Id)
    requires i <= |run| && op !in After(c, run[..i]).st.active
    requires forall j | i <= j < |run| ::
               !PlansFor(After(c, run[..j]), run[j], op) && !Rebuilds(After(c, run[..j]), run[j])
    ensures op !in After(c, run).st.active
    decreases |run|
  {
    hide Apply, PlansFor, Rebuilds;
    if i == |run| {
      assert run[..i] == run;
    } else {
      var front := run[..|run| - 1];
      assert front[..i] == run[..i] && run[..|front|] == front;
      forall j | i <= j < |front|
        ensures !PlansFor(After(c, front[..j]), front[j], op) && !Rebuilds(After(c, front[..j]), front[j])
      {
        assert front[..j] == run[..j];
      }
      KeyStaysAway(c, front, i, op);
      KeyStep(After(c, front), run[|front|], op);
    }
  }

  lemma NoKeyNoRefusal(s: State, op: Id, id: Id)
    requires OperationsKeyed(s) && op !in s.active
    ensures MakePlan(s, op, id).1 != Err(E_PLAN_ACTIVE)
  {
    hide RankedFor, PlanFor;
  }

  /**
   In every run: once a plan of the operation has been answered or cancelled, planning it is not refused as a
   duplicate until a plan is made for it or the index is rebuilt.
   */
  lemma SettledIsPlannable(c: Id, run: seq<Action>, i: nat, op: Id, id: Id)
    requires Legal(c, run) && i < |run| && Settles(After(c, run[..i]), run[i], op)
    requires forall j | i < j < |run| ::
               !PlansFor(After(c, run[..j]), run[j], op) && !Rebuilds(After(c, run[..j]), run[j])
    ensures MakePlan(After(c, run).st, op, id).1 != Err(E_PLAN_ACTIVE)
  {
    SettlingIsPlain(After(c, run[..i]), run[i], op);
    hide After, Apply, Inv, MakePlan, PlansFor, Rebuilds, Settles, Supported;
    LegalPrefix(c, run, i);
    KeyStep(After(c, run[..i]), run[i], op);
    KeyStaysAway(c, run, i + 1, op);
    RunInv(c, run);
    SupportedOf(After(c, run));
    SupportedParts(After(c, run).st);
    NoKeyNoRefusal(After(c, run).st, op, id);
  }

  lemma SettlingIsPlain(w: World, a: Action, op: Id)
    requires Settles(w, a, op)
    ensures !Rebuilds(w, a) && !PlansFor(w, a, op)
  {
    hide CompletionGuard, CancelPlan;
  }
}
