/**
 The constant-time duplicate check against a scan of the plans: exactly while no cancel drops the key of another
 plan, an operation has at most one live plan and its key is in the index.
 */
module IndexScan {
  import opened Types
  import opened Engine
  import opened Runs
  import opened PlanLifecycle
  import opened Support
  import opened Safety
  import opened Ledger
  import opened Slots

  predicate LiveFor(s: State, p: Id, op: Id) {
    p in s.plans && Live(s.plans[p].lifecycle) && s.plans[p].operation == op
  }

  /** What a scan over all plans would find. */
  ghost predicate ScanFinds(s: State, op: Id) {
    exists p :: LiveFor(s, p, op)
  }

  ghost predicate LiveIndexed(s: State) {
    forall p, op | LiveFor(s, p, op) :: op in s.active
  }

  ghost predicate LiveUnique(s: State) {
    forall p, q, op | LiveFor(s, p, op) && LiveFor(s, q, op) :: p == q
  }

  ghost predicate IndexInv(s: State) {
    LiveIndexed(s) && LiveUnique(s)
  }

  /** Live plans come from live plans. */
  ghost predicate LiveShrinks(s: State, t: State) {
    forall p, op | LiveFor(t, p, op) :: LiveFor(s, p, op)
  }

  lemma MovesShrink(s: State, t: State, a: Action)
    requires Moves(s.plans, t.plans, a) && !a.Planned?
    ensures LiveShrinks(s, t)
  {
    hide Evolves, PlanWf, PlansCaused;
    forall p, op | LiveFor(t, p, op) ensures LiveFor(s, p, op) {
      assert p in s.plans;
      Carried(s.plans[p], t.plans[p]);
    }
  }

  lemma ShrinkKeeps(s: State, t: State)
    requires IndexInv(s) && LiveShrinks(s, t) && s.active.Keys <= t.active.Keys
    ensures IndexInv(t)
  {
    hide LiveFor;
  }

  lemma ReindexedKeeps(s: State, t: State)
    requires IndexInv(s) && LiveShrinks(s, t) && t.active == Index(t.plans)
    ensures IndexInv(t)
  {
    forall p, op | LiveFor(t, p, op) ensures op in t.active {
      assert p in ActivePlansOf(t.plans, op);
    }
    hide LiveFor;
  }

  /** Closing a live plan and dropping its key: no other live plan had that key. */
  lemma ClosingKeeps(s: State, t: State, p: Id)
    requires IndexInv(s) && p in s.plans && Live(s.plans[p].lifecycle)
    requires p in t.plans && t.plans == s.plans[p := t.plans[p]] && !Live(t.plans[p].lifecycle)
    requires t.active == s.active - {s.plans[p].operation}
    ensures IndexInv(t)
  {
    assert LiveFor(s, p, s.plans[p].operation);
    forall q, op | LiveFor(t, q, op) ensures q != p && LiveFor(s, q, op) {
    }
    hide LiveFor;
  }

  lemma PlanningKeeps(s: State, op: Id, id: Id)
    requires IndexInv(s) && id !in s.plans
    ensures IndexInv(MakePlan(s, op, id).0)
  {
    hide MakePlan, EligibleTarget;
    var t := Created(s, op, id);
    if Creates(s, op, id) {
      NewLive(s, MakePlan(s, op, id).0, id);
    }
  }

  lemma NewLive(s: State, t: State, id: Id)
    requires IndexInv(s) && id !in s.plans && id in t.plans && t.plans == s.plans[id := t.plans[id]]
    requires t.plans[id].operation !in s.active && t.active == s.active[t.plans[id].operation := id]
    ensures IndexInv(t)
  {
    forall q, op | LiveFor(t, q, op) && q != id ensures LiveFor(s, q, op) && op != t.plans[id].operation {
      assert LiveFor(s, q, op);
    }
  }

  lemma CompletionKeeps(s: State, m: ResultMsg, id: Id)
    requires IndexInv(s) && PlansWf(s.plans)
    ensures IndexInv(ApplyResult(s, m, id).0)
  {
    hide IndexInv, VerdictOf, ResultFor, Released, PlanWf;
    if CompletionGuard(s, m).Ok? {
      WfAt(s.plans, m.plan);
      ClosingKeeps(s, ApplyResult(s, m, id).0, m.plan);
    }
  }

  lemma CancelLiveKeeps(s: State, p: Id)
    requires IndexInv(s) && p in s.plans && Live(s.plans[p].lifecycle)
    ensures IndexInv(CancelPlan(s, p).0)
  {
    hide IndexInv, Released;
    ClosingKeeps(s, CancelPlan(s, p).0, p);
  }

  lemma DroppedKey(s: State, t: State, op: Id)
    requires IndexInv(s) && t.active == s.active - {op}
    requires forall q, o :: LiveFor(t, q, o) <==> LiveFor(s, q, o)
    ensures IndexInv(t) <==> !ScanFinds(s, op)
  {
    hide LiveFor;
    if q :| LiveFor(s, q, op) {
      assert LiveFor(t, q, op) && op !in t.active;
    }
  }

  /** Exactly when a cancel keeps the index: the plan was live, or no live plan shares its operation. */
  lemma CancelKeepsIndex(s: State, p: Id)
    requires IndexInv(s) && CancelPlan(s, p).1.Ok?
    ensures p in s.plans
    ensures IndexInv(CancelPlan(s, p).0) <==> Live(s.plans[p].lifecycle) || !ScanFinds(s, s.plans[p].operation)
  {
    hide Released, IndexInv, ScanFinds;
    var t, op := CancelPlan(s, p).0, s.plans[p].operation;
    if Live(s.plans[p].lifecycle) {
      CancelLiveKeeps(s, p);
    } else {
      forall q, o ensures LiveFor(t, q, o) <==> LiveFor(s, q, o) {
      }
      DroppedKey(s, t, op);
    }
  }

  // ---- Over runs ----

  lemma SweepKeeps(w: World, a: Action)
    requires Known(w) && Enabled(w, a) && IndexInv(w.st)
    requires a.WorkerFenced? || a.WorkerDropped? || (a.TargetRetired? && a.target in w.st.runtime) || a.EpochMoved?
    ensures IndexInv(Apply(w, a).st)
  {
    SweepReindexes(w, a);
    hide Apply, IndexInv, LiveShrinks, Known, Enabled, Moves, Index;
    StepMoves(w, a);
    MovesShrink(w.st, Apply(w, a).st, a);
    ReindexedKeeps(w.st, Apply(w, a).st);
  }

  lemma SweepReindexes(w: World, a: Action)
    requires a.WorkerFenced? || a.WorkerDropped? || (a.TargetRetired? && a.target in w.st.runtime) || a.EpochMoved?
    ensures Apply(w, a).st.active == Index(Apply(w, a).st.plans)
  {
    hide Apply, Index, FencedPlan, EpochClosed, Revoked;
    AppliedSweep(w, a);
  }

  /** Everything that leaves the index alone. */
  lemma IndexLeft(w: World, a: Action)
    requires !(a.Planned? || a.Completed? || a.CancelAsked? || a.WorkerFenced? || a.WorkerDropped? || a.EpochMoved?)
    requires !(a.TargetRetired? && a.target in w.st.runtime) && !a.Loaded?
    ensures Apply(w, a).st.active == w.st.active
  {
    hide Apply, StateAfter, Reserve, PrepareDispatch, ConfirmDispatched, Index;
    Stepped(w, a);
    Applied(w, a);
    AppliedSweep(w, a);
  }

  ghost predicate KeepsIndex(w: World, a: Action) {
    Cancels(w, a) ==>
      a.plan in w.st.plans && (Live(w.st.plans[a.plan].lifecycle) || !ScanFinds(w.st, w.st.plans[a.plan].operation))
  }

  lemma IndexStep(w: World, a: Action)
    requires Inv(w) && Enabled(w, a) && IndexInv(w.st) && !a.Loaded?
    ensures IndexInv(Apply(w, a).st) <==> KeepsIndex(w, a)
  {
    NewPlanIsNew(w, a);
    KnownOf(w);
    hide Apply, Inv, Enabled, IndexInv, PlanWf, Live, Moves, LiveShrinks, CancelPlan, ApplyResult, MakePlan, ScanFinds;
    Applied(w, a);
    if a.Planned? {
      PlanningKeeps(w.st, a.op, a.id);
    } else if a.Completed? {
      CompletionKeeps(w.st, a.result, a.id);
    } else if a.CancelAsked? {
      if Cancels(w, a) {
        CancelKeepsIndex(w.st, a.plan);
      } else {
        RefusedCancel(w.st, a.plan);
      }
    } else if a.WorkerFenced? || a.WorkerDropped? || (a.TargetRetired? && a.target in w.st.runtime) || a.EpochMoved? {
      SweepKeeps(w, a);
    } else {
      IndexLeft(w, a);
      StepMoves(w, a);
      MovesShrink(w.st, Apply(w, a).st, a);
      ShrinkKeeps(w.st, Apply(w, a).st);
    }
  }

  lemma LoadedIndex(w: World)
    requires Inv(w) && IndexInv(w.st)
    ensures IndexInv(Apply(w, Loaded).st)
  {
    LoadedWorld(w);
    hide Apply, LiveIndexed, LiveUnique;
    NothingLive(w);
  }

  lemma NothingLive(w: World)
    requires Inv(w)
    ensures IndexInv(Revived(w))
  {
    hide Inv, Revived;
    forall p, op ensures !LiveFor(Revived(w), p, op) {
      if p in Revived(w).plans {
        RevivedPlans(w, p);
      }
    }
  }

  lemma IndexStepOrLoad(w: World, a: Action)
    requires Inv(w) && Enabled(w, a) && IndexInv(w.st)
    ensures IndexInv(Apply(w, a).st) <==> KeepsIndex(w, a)
  {
    LoadCancelsNothing(w, a);
    hide Apply, Inv, Enabled, IndexInv, Cancels;
    if a.Loaded? {
      LoadedIndex(w);
    } else {
      IndexStep(w, a);
    }
  }

  lemma InitialIndex(c: Id)
    ensures IndexInv(After(c, []).st)
  {
  }

  /**
   On every run an operation has at most one live plan, and its key is in the index, after every step, if and only
   if every cancel hits a live plan or an operation that has no live plan.
   */
  lemma RunIndex(c: Id, run: seq<Action>)
    requires Legal(c, run)
    ensures (forall i :: 0 <= i <= |run| ==> IndexInv(After(c, run[..i]).st)) <==>
            (forall i :: 0 <= i < |run| ==> KeepsIndex(After(c, run[..i]), run[i]))
  {
    hide Apply, Inv, Enabled, IndexInv, KeepsIndex;
    InitialIndex(c);
    forall i | 0 <= i < |run| && IndexInv(After(c, run[..i]).st)
      ensures IndexInv(After(c, run[..i + 1]).st) <==> KeepsIndex(After(c, run[..i]), run[i])
    {
      LegalPrefix(c, run, i);
      RunInv(c, run[..i]);
      IndexStepOrLoad(After(c, run[..i]), run[i]);
    }
    StepByStep(c, run, (w: World) => IndexInv(w.st), (w, a) => KeepsIndex(w, a));
  }

  lemma IndexedIsRefused(s: State, op: Id, id: Id)
    requires Supported(s) && IndexInv(s) && ScanFinds(s, op)
    ensures MakePlan(s, op, id) == (s, Err(E_PLAN_ACTIVE))
  {
    hide RankedFor, PlanFor;
    var p :| LiveFor(s, p, op);
    assert PlanSupported(s, s.plans[p]);
  }

  /** The duplicate check refuses whenever a scan for a live plan of the operation would. */
  lemma IndexRefusesDuplicates(c: Id, run: seq<Action>, op: Id, id: Id)
    requires Legal(c, run) && forall i | 0 <= i < |run| :: KeepsIndex(After(c, run[..i]), run[i])
    requires ScanFinds(After(c, run).st, op)
    ensures MakePlan(After(c, run).st, op, id) == (After(c, run).st, Err(E_PLAN_ACTIVE))
  {
    hide After, KeepsIndex, IndexInv, ScanFinds, MakePlan, Inv;
    RunIndex(c, run);
    RunInv(c, run);
    assert run[..|run|] == run;
    SupportedOf(After(c, run));
    IndexedIsRefused(After(c, run).st, op, id);
  }
}
