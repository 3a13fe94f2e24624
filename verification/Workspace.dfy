/** The workspace counter of a target against the workspace its holders reserved. */
module Workspace {
  import opened Types
  import opened Ordered
  import opened Engine
  import opened Runs
  import opened PlanLifecycle
  import opened Support
  import opened Safety
  import opened Ledger
  import opened Slots

  const HALF: int := 0x8000_0000_0000_0000

  // ---- Sums over plans ----

  function Owed(plans: map<Id, Plan>, ps: set<Id>): nat
    requires ps <= plans.Keys
  {
    if ps == {} then 0
    else
      var m := Least(ps);
      plans[m].reservedWorkspace + Owed(plans, ps - {m})
  }

  lemma {:induction false} OwedWithout(plans: map<Id, Plan>, ps: set<Id>, x: Id)
    requires ps <= plans.Keys && x in ps
    ensures Owed(plans, ps) == plans[x].reservedWorkspace + Owed(plans, ps - {x})
    decreases |ps|
  {
    var m := Least(ps);
    if x != m {
      var rest := ps - {m};
      OwedWithout(plans, rest, x);
      LeastStays(ps, x);
      assert rest - {x} == (ps - {x}) - {m};
    }
  }

  lemma LeastStays(ps: set<Id>, x: Id)
    requires x in ps && x != Least(ps)
    ensures ps - {x} != {} && Least(ps - {x}) == Least(ps)
  {
    assert Least(ps) in ps - {x};
  }

  lemma {:induction false} OwedSame(old_: map<Id, Plan>, new_: map<Id, Plan>, ps: set<Id>)
    requires ps <= old_.Keys && ps <= new_.Keys
    requires forall p | p in ps :: new_[p].reservedWorkspace == old_[p].reservedWorkspace
    ensures Owed(new_, ps) == Owed(old_, ps)
  {
    if ps != {} {
      OwedSame(old_, new_, ps - {Least(ps)});
    }
  }

  // ---- What the ledger should hold ----

  function WorkspaceOf(w: World, t: Id): u64 {
    ReservationOf(w.st, t).workspace
  }

  function OwedOn(w: World, t: Id): nat {
    Owed(w.st.plans, HeldOn(w, t))
  }

  function Budget(s: State, t: Id): nat {
    if t in s.targets then s.targets[t].workspaceBytes else 0
  }

  /** Reserved amounts are only written by the reservation itself. */
  ghost predicate SameAmounts(old_: map<Id, Plan>, new_: map<Id, Plan>) {
    forall p | p in old_ && old_[p].lifecycle != PLANNED ::
      p in new_ && new_[p].reservedWorkspace == old_[p].reservedWorkspace
  }

  lemma StepAmounts(w: World, a: Action)
    requires Known(w) && Enabled(w, a) && !a.Loaded?
    ensures SameAmounts(w.st.plans, Apply(w, a).st.plans)
  {
    hide Apply, Evolves, PlanWf, Enabled, PlansEnter, PlansCaused, Known;
    StepMoves(w, a);
    forall p | p in w.st.plans && w.st.plans[p].lifecycle != PLANNED
      ensures Apply(w, a).st.plans[p].reservedWorkspace == w.st.plans[p].reservedWorkspace
    {
      AmountStays(w.st.plans[p], Apply(w, a).st.plans[p]);
    }
  }

  lemma AmountStays(o: Plan, n: Plan)
    requires Evolves(o, n) && o.lifecycle != PLANNED
    ensures n.reservedWorkspace == o.reservedWorkspace
  {
  }

  // ---- The sum, step by step ----

  lemma OwedBooked(w: World, n: World, p: Id, t: Id)
    requires HeldInv(w) && p in w.st.plans && p !in w.held && n.held == w.held + {p}
    requires p in n.st.plans && n.st.plans == w.st.plans[p := n.st.plans[p]]
    requires n.st.plans[p].target == w.st.plans[p].target
    ensures OwedOn(n, t) == OwedOn(w, t) + if w.st.plans[p].target == t then n.st.plans[p].reservedWorkspace else 0
  {
    hide Owed;
    SetTargets(w, n, p);
    HoldersBooked(w, n, p, t);
    OwedSame(w.st.plans, n.st.plans, HeldOn(w, t));
    if w.st.plans[p].target == t {
      OwedWithout(n.st.plans, HeldOn(n, t), p);
      assert HeldOn(n, t) - {p} == HeldOn(w, t);
    }
  }

  lemma OwedReleased(w: World, n: World, p: Id, t: Id)
    requires HeldInv(w) && p in w.st.plans && n.held == w.held - {p}
    requires p in n.st.plans && n.st.plans == w.st.plans[p := n.st.plans[p]]
    requires n.st.plans[p] == w.st.plans[p].(lifecycle := n.st.plans[p].lifecycle)
    ensures OwedOn(w, t) == OwedOn(n, t) +
              if w.st.plans[p].target == t && p in w.held then w.st.plans[p].reservedWorkspace else 0
  {
    hide Owed;
    SetTargets(w, n, p);
    HoldersReleased(w, n, p, t);
    OwedSame(w.st.plans, n.st.plans, HeldOn(n, t));
    if w.st.plans[p].target == t && p in w.held {
      OwedWithout(w.st.plans, HeldOn(w, t), p);
    } else {
      assert HeldOn(n, t) == HeldOn(w, t);
    }
  }

  lemma BookedOwed(w: World, a: Action, t: Id)
    requires Inv(w) && HeldInv(w) && Enabled(w, a) && Books(w, a)
    ensures a.plan in w.st.plans
    ensures OwedOn(Apply(w, a), t) == OwedOn(w, t) +
              if w.st.plans[a.plan].target == t then OperationWorkspace(w.st, w.st.plans[a.plan].operation) else 0
  {
    hide Apply, Inv, Enabled, Reserve, OperationWorkspace, OwedOn, HeldInv;
    BookedWorld(w, a);
    OwedBooked(w, Apply(w, a), a.plan, t);
  }

  lemma ReleasedOwed(w: World, a: Action, t: Id)
    requires Inv(w) && HeldInv(w) && Enabled(w, a) && Lets(w, a)
    ensures (a.Completed? || a.CancelAsked?) && Letter(a) in w.st.plans
    ensures var p := Letter(a);
            OwedOn(w, t) == OwedOn(Apply(w, a), t) +
              if w.st.plans[p].target == t && p in w.held then w.st.plans[p].reservedWorkspace else 0
  {
    LettingActions(w, a);
    hide Apply, Inv, Enabled, HeldInv, Commits, Cancels, Released, OwedOn;
    if Commits(w, a) {
      CommittedWorld(w, a);
    } else {
      CancelledWorld(w, a);
    }
    OwedReleased(w, Apply(w, a), Letter(a), t);
  }

  lemma ReleasedWorkspace(w: World, a: Action, t: Id)
    requires Inv(w) && HeldInv(w) && Enabled(w, a) && Lets(w, a)
    ensures (a.Completed? || a.CancelAsked?) && Letter(a) in w.st.plans && (Commits(w, a) ==> Letter(a) in w.held)
    ensures var p := Letter(a);
            ReservationOf(Apply(w, a).st, t) ==
              if t == w.st.plans[p].target then Lowered(ReservationOf(w.st, t), w.st.plans[p].reservedWorkspace)
              else ReservationOf(w.st, t)
  {
    LettingActions(w, a);
    hide Apply, Inv, Enabled, HeldInv, Commits, Cancels, Released, ReservationOf;
    if Commits(w, a) {
      CommittedWorld(w, a);
    } else {
      CancelledWorld(w, a);
    }
    ReleasedLedger(w.st, w.st.plans[Letter(a)], Apply(w, a).st);
  }

  lemma OtherOwed(w: World, a: Action, t: Id)
    requires Inv(w) && HeldInv(w) && Enabled(w, a) && !a.Loaded? && !Books(w, a) && !Lets(w, a)
    ensures OwedOn(Apply(w, a), t) == OwedOn(w, t) && ReservationOf(Apply(w, a).st, t) == ReservationOf(w.st, t)
  {
    KnownOf(w);
    hide Apply, Inv, Enabled, Known, Books, Commits, Cancels, Owed, ReservationOf;
    OtherWorld(w, a);
    HoldersSame(w, Apply(w, a), t);
    StepAmounts(w, a);
    OwedSame(w.st.plans, Apply(w, a).st.plans, HeldOn(w, t));
  }

  // ---- Exactly when a step keeps the counter exact ----

  ghost predicate Exact(w: World) {
    forall t :: WorkspaceOf(w, t) == OwedOn(w, t)
  }

  lemma ExactOn(w: World, t: Id)
    requires Exact(w)
    ensures WorkspaceOf(w, t) == OwedOn(w, t)
  {
  }

  lemma BookedPlan(s: State, p: Id)
    requires Reserve(s, p).1.Ok? && s.runtime.Keys <= s.targets.Keys
    ensures p in s.plans && s.plans[p].lifecycle == PLANNED && s.plans[p].target in s.targets
  {
    Booked(s, p);
  }

  /** An admitted reservation adds modulo 2^64, and what it leaves is within the budget. */
  lemma BookingAdds(w: World, a: Action, t: Id)
    requires Inv(w) && Books(w, a)
    ensures a.plan in w.st.plans && w.st.plans[a.plan].lifecycle == PLANNED
    ensures var plan := w.st.plans[a.plan];
            var sum := Wrap(WorkspaceOf(w, plan.target) + OperationWorkspace(w.st, plan.operation));
            && sum <= Budget(w.st, plan.target)
            && WorkspaceOf(Apply(w, a), t) == if t == plan.target then sum else WorkspaceOf(w, t)
  {
    hide Inv, Reserve, Apply, OperationWorkspace, ReservationOf;
    RuntimeDefined(w);
    Applied(w, a);
    BookedPlan(w.st, a.plan);
    Booked(w.st, a.plan);
  }

  predicate NoWrap(w: World, a: Action) {
    Books(w, a) ==>
      && a.plan in w.st.plans
      && var plan := w.st.plans[a.plan];
         WorkspaceOf(w, plan.target) + OperationWorkspace(w.st, plan.operation) < TWO_64
  }

  /** The cancelled plan holds, or reserved none, or claims more than is left, so that the guard skips it. */
  predicate FairCancel(w: World, a: Action) {
    Cancels(w, a) ==>
      && a.plan in w.st.plans
      && var plan := w.st.plans[a.plan];
         a.plan in w.held || plan.reservedWorkspace == 0 || WorkspaceOf(w, plan.target) < plan.reservedWorkspace
  }

  lemma BookingKeepsWorkspace(w: World, a: Action)
    requires Inv(w) && HeldInv(w) && Enabled(w, a) && Exact(w) && Books(w, a)
    ensures Exact(Apply(w, a)) <==> NoWrap(w, a)
  {
    hide Inv, HeldInv, Apply, OwedOn, Enabled, Reserve, WorkspaceOf, OperationWorkspace, Budget;
    BookingAdds(w, a, 0);
    var target := w.st.plans[a.plan].target;
    forall t ensures t != target ==> WorkspaceOf(Apply(w, a), t) == OwedOn(Apply(w, a), t) {
      BookingAdds(w, a, t);
      BookedOwed(w, a, t);
    }
    BookingAdds(w, a, target);
    BookedOwed(w, a, target);
  }

  /** A release of a holder always finds enough workspace to give back. */
  lemma ReleaseFits(w: World, a: Action)
    requires Inv(w) && HeldInv(w) && Enabled(w, a) && Exact(w) && Lets(w, a)
    ensures (a.Completed? || a.CancelAsked?) && Letter(a) in w.st.plans
    ensures Letter(a) in w.held ==>
              w.st.plans[Letter(a)].reservedWorkspace <= WorkspaceOf(w, w.st.plans[Letter(a)].target)
  {
    LettingActions(w, a);
    hide Inv, HeldInv, Apply, OwedOn, Enabled, WorkspaceOf, Lets, Exact;
    ExactOn(w, w.st.plans[Letter(a)].target);
    ReleasedOwed(w, a, w.st.plans[Letter(a)].target);
  }

  /** The other targets stay exact, and this one does exactly if the release fits what it owes. */
  lemma ReleaseOn(w: World, a: Action, t: Id)
    requires Inv(w) && HeldInv(w) && Enabled(w, a) && Exact(w) && Lets(w, a)
    ensures (a.Completed? || a.CancelAsked?) && Letter(a) in w.st.plans
    ensures var plan := w.st.plans[Letter(a)];
            WorkspaceOf(Apply(w, a), t) == OwedOn(Apply(w, a), t) <==>
            || t != plan.target || Letter(a) in w.held || plan.reservedWorkspace == 0
            || WorkspaceOf(w, plan.target) < plan.reservedWorkspace
  {
    hide Inv, HeldInv, Apply, OwedOn, Enabled, Lets, ReservationOf, Exact;
    ExactOn(w, t);
    ReleaseFits(w, a);
    ReleasedOwed(w, a, t);
    ReleasedWorkspace(w, a, t);
  }

  lemma ReleaseKeepsWorkspace(w: World, a: Action)
    requires Inv(w) && HeldInv(w) && Enabled(w, a) && Exact(w) && Lets(w, a)
    ensures (a.Completed? || a.CancelAsked?) && Letter(a) in w.st.plans
    ensures var plan := w.st.plans[Letter(a)];
            Exact(Apply(w, a)) <==>
            || Letter(a) in w.held || plan.reservedWorkspace == 0
            || WorkspaceOf(w, plan.target) < plan.reservedWorkspace
  {
    hide Inv, HeldInv, Apply, OwedOn, Enabled, Lets, WorkspaceOf;
    ReleaseFits(w, a);
    forall t
      ensures WorkspaceOf(Apply(w, a), t) == OwedOn(Apply(w, a), t) <==>
              || t != w.st.plans[Letter(a)].target || Letter(a) in w.held
              || w.st.plans[Letter(a)].reservedWorkspace == 0
              || WorkspaceOf(w, w.st.plans[Letter(a)].target) < w.st.plans[Letter(a)].reservedWorkspace
    {
      ReleaseOn(w, a, t);
    }
    ReleaseOn(w, a, w.st.plans[Letter(a)].target);
  }

  /** Exactly when a cancel keeps the workspace exact. */
  lemma CancelKeepsWorkspace(w: World, a: Action)
    requires Inv(w) && HeldInv(w) && Enabled(w, a) && Exact(w) && Cancels(w, a)
    ensures Exact(Apply(w, a)) <==> FairCancel(w, a)
  {
    LettingActions(w, a);
    hide Inv, HeldInv, Apply, Enabled, Exact, Commits, Cancels, WorkspaceOf;
    ReleaseKeepsWorkspace(w, a);
  }

  lemma CommitKeepsWorkspace(w: World, a: Action)
    requires Inv(w) && HeldInv(w) && Enabled(w, a) && Exact(w) && Commits(w, a)
    ensures Exact(Apply(w, a))
  {
    hide Inv, HeldInv, Apply, Enabled, Exact, Commits, Cancels, WorkspaceOf;
    ReleaseKeepsWorkspace(w, a);
    ReleasedWorkspace(w, a, 0);
  }

  lemma LoadedOwed(w: World, t: Id)
    requires Inv(w)
    ensures var n := World(Revived(w), w.disk, w.used, {}); WorkspaceOf(n, t) == OwedOn(n, t) == 0
  {
    hide Inv, Recover, HeldOn, ReservationOf;
    LoadedLedger(w, t);
  }

  lemma LoadedExact(w: World)
    requires Inv(w) && Exact(w)
    ensures Exact(Apply(w, Loaded))
  {
    hide Inv, Apply, Recover, WorkspaceOf, OwedOn;
    LoadedWorld(w);
    forall t ensures WorkspaceOf(Apply(w, Loaded), t) == OwedOn(Apply(w, Loaded), t) {
      LoadedOwed(w, t);
    }
  }

  lemma OtherExact(w: World, a: Action)
    requires Inv(w) && HeldInv(w) && Enabled(w, a) && Exact(w) && !a.Loaded? && !Books(w, a) && !Lets(w, a)
    ensures Exact(Apply(w, a))
  {
    hide Inv, HeldInv, Apply, OwedOn, Enabled, Books, Lets, ReservationOf;
    forall t ensures WorkspaceOf(Apply(w, a), t) == OwedOn(Apply(w, a), t) {
      OtherOwed(w, a, t);
    }
  }

  lemma KindsApart(w: World, a: Action)
    ensures !(Books(w, a) && Lets(w, a)) && !(Commits(w, a) && Cancels(w, a))
    ensures a.Loaded? ==> !Books(w, a) && !Lets(w, a)
  {
  }

  lemma ExactStep(w: World, a: Action)
    requires Inv(w) && HeldInv(w) && Enabled(w, a) && Exact(w)
    ensures Exact(Apply(w, a)) <==> NoWrap(w, a) && FairCancel(w, a)
  {
    KindsApart(w, a);
    hide Inv, HeldInv, Apply, Enabled, Exact, Books, Commits, Cancels, WorkspaceOf, OperationWorkspace;
    if a.Loaded? {
      LoadedExact(w);
    } else if Books(w, a) {
      BookingKeepsWorkspace(w, a);
    } else if Commits(w, a) {
      CommitKeepsWorkspace(w, a);
    } else if Cancels(w, a) {
      CancelKeepsWorkspace(w, a);
    } else {
      OtherExact(w, a);
    }
  }

  lemma InitialExact(c: Id)
    ensures Exact(After(c, []))
  {
    assert forall t :: HeldOn(After(c, []), t) == {};
  }

  /**
   On every run the workspace counters are, after every step, exactly what the holders reserved if and only if no
   admitted reservation wraps past 2^64 and no cancel takes off workspace that its plan does not hold.
   */
  lemma WorkspaceExactIff(c: Id, run: seq<Action>)
    requires Legal(c, run)
    ensures (forall i :: 0 <= i <= |run| ==> Exact(After(c, run[..i]))) <==>
            (forall i :: 0 <= i < |run| ==>
               NoWrap(After(c, run[..i]), run[i]) && FairCancel(After(c, run[..i]), run[i]))
  {
    hide Apply, Inv, HeldInv, Enabled, Exact, NoWrap, FairCancel;
    InitialExact(c);
    forall i | 0 <= i < |run| && Exact(After(c, run[..i]))
      ensures Exact(After(c, run[..i + 1])) <==>
              NoWrap(After(c, run[..i]), run[i]) && FairCancel(After(c, run[..i]), run[i])
    {
      LegalPrefix(c, run, i);
      SlotsNeverExceedHolders(c, run[..i]);
      RunInv(c, run[..i]);
      ExactStep(After(c, run[..i]), run[i]);
    }
    StepByStep(c, run, w => Exact(w), (w, a) => NoWrap(w, a) && FairCancel(w, a));
  }

  // ---- Budgets below 2^63 ----

  ghost predicate BudgetsSmall(s: State) {
    forall t | t in s.targets :: s.targets[t].workspaceBytes < HALF
  }

  /** A planned operation was admitted by the planner only if its workspace fits the target's budget. */
  ghost predicate PlannedSmall(s: State) {
    forall p | p in s.plans && s.plans[p].lifecycle == PLANNED ::
      OperationWorkspace(s, s.plans[p].operation) < HALF
  }

  ghost predicate Small(w: World) {
    && BudgetsSmall(w.st) && (w.disk.Some? ==> BudgetsSmall(w.disk.value)) && PlannedSmall(w.st)
    && forall t :: WorkspaceOf(w, t) < HALF
  }

  predicate RegistersSmall(a: Action) {
    a.Registered? ==> a.registration.workspace < HALF
  }

  lemma BudgetsStep(w: World, a: Action)
    requires w.st.runtime.Keys <= w.st.targets.Keys && BudgetsSmall(w.st) && !a.Loaded? && RegistersSmall(a)
    ensures BudgetsSmall(Apply(w, a).st)
  {
    hide Apply;
    if a.Registered? {
      AppliedDefinition(w, a);
    } else {
      TargetsStay(w, a);
    }
  }

  lemma PlanningFits(s: State, op: Id, id: Id)
    requires Creates(s, op, id) && OperationsKeyed(s)
    ensures var n := MakePlan(s, op, id).0;
            id in n.plans && OperationWorkspace(n, n.plans[id].operation) <= Budget(s, n.plans[id].target)
  {
    hide MakePlan;
    var t := Created(s, op, id);
  }

  lemma FromPlanned(o: Plan, n: Plan)
    requires Evolves(o, n) && n.lifecycle == PLANNED
    ensures o.lifecycle == PLANNED && n.operation == o.operation
  {
  }

  lemma PlannedKnown(w: World, p: Id)
    requires Inv(w) && p in w.st.plans && w.st.plans[p].lifecycle == PLANNED
    ensures w.st.plans[p].operation in w.st.operations
  {
    assert PlanSupported(w.st, w.st.plans[p]);
  }

  lemma SameWorkspace(s: State, n: State, op: Id)
    requires Extends(s.operations, n.operations) && op in s.operations
    ensures OperationWorkspace(n, op) == OperationWorkspace(s, op)
  {
  }

  lemma PlannedStep(w: World, a: Action)
    requires Inv(w) && Enabled(w, a) && !a.Loaded? && !a.EpochMoved? && PlannedSmall(w.st) && BudgetsSmall(w.st)
    ensures PlannedSmall(Apply(w, a).st)
  {
    KnownOf(w);
    SupportedParts(w.st);
    hide Inv, Apply, Enabled, PlanWf, Evolves, OperationWorkspace, Known, OperationsKeyed, PlansCaused;
    StepMoves(w, a);
    StepGrows(w, a);
    var s, n := w.st, Apply(w, a).st;
    forall p | p in n.plans && n.plans[p].lifecycle == PLANNED
      ensures OperationWorkspace(n, n.plans[p].operation) < HALF
    {
      if p in s.plans {
        FromPlanned(s.plans[p], n.plans[p]);
        assert OperationWorkspace(s, s.plans[p].operation) < HALF;
        PlannedKnown(w, p);
        SameWorkspace(s, n, s.plans[p].operation);
      } else {
        Applied(w, a);
        hide MakePlan;
        var t := Created(s, a.op, a.id);
        PlanningFits(s, a.op, a.id);
      }
    }
  }

  lemma SmallFacts(w: World, p: Id)
    requires Small(w) && p in w.st.plans && w.st.plans[p].lifecycle == PLANNED
    ensures WorkspaceOf(w, w.st.plans[p].target) < HALF && Budget(w.st, w.st.plans[p].target) < HALF
    ensures OperationWorkspace(w.st, w.st.plans[p].operation) < HALF
  {
    hide OperationWorkspace, WorkspaceOf;
  }

  /** With small budgets an admitted reservation never wraps. */
  lemma SmallBooksFit(w: World, a: Action)
    requires Inv(w) && Small(w)
    ensures NoWrap(w, a)
  {
    hide Inv, Reserve, Small, WorkspaceOf, OperationWorkspace, Budget, Apply;
    if Books(w, a) {
      BookingAdds(w, a, 0);
      SmallFacts(w, a.plan);
    }
  }

  lemma SmallCounter(w: World, a: Action, t: Id)
    requires Inv(w) && HeldInv(w) && Enabled(w, a) && !a.Loaded? && Small(w)
    ensures WorkspaceOf(Apply(w, a), t) < HALF
  {
    hide Inv, HeldInv, Apply, Enabled, Reserve, Commits, Cancels, OperationWorkspace, ReservationOf, OwedOn, Budget;
    assert WorkspaceOf(w, t) < HALF;
    if Books(w, a) {
      BookingAdds(w, a, t);
      SmallFacts(w, a.plan);
    } else if Lets(w, a) {
      LettingActions(w, a);
      ReleasedWorkspace(w, a, t);
    } else {
      OtherOwed(w, a, t);
    }
  }

  lemma DiskBudgets(w: World, a: Action)
    requires BudgetsSmall(w.st) && (w.disk.Some? ==> BudgetsSmall(w.disk.value)) && !a.Loaded?
    ensures Apply(w, a).disk.Some? ==> BudgetsSmall(Apply(w, a).disk.value)
  {
    hide StateAfter, HeldAfter, Recover;
  }

  lemma EpochPlanned(s: State)
    requires PlansWf(s.plans)
    ensures PlannedSmall(AdvanceEpoch(s))
  {
    EpochClosesAll(s);
    hide AdvanceEpoch, OperationWorkspace;
  }

  lemma SmallStep(w: World, a: Action)
    requires Inv(w) && HeldInv(w) && Enabled(w, a) && !a.Loaded? && Small(w) && RegistersSmall(a)
    ensures Small(Apply(w, a))
  {
    hide Inv, HeldInv, Apply, WorkspaceOf, Enabled, PlannedSmall, BudgetsSmall, AdvanceEpoch, PlansWf, RegistersSmall;
    RuntimeDefined(w);
    KnownOf(w);
    BudgetsStep(w, a);
    DiskBudgets(w, a);
    if a.EpochMoved? {
      AppliedSweep(w, a);
      EpochPlanned(w.st);
    } else {
      PlannedStep(w, a);
    }
    forall t ensures WorkspaceOf(Apply(w, a), t) < HALF {
      SmallCounter(w, a, t);
    }
  }

  lemma RecoveredSmall(d: State)
    requires PlansWf(d.plans) && BudgetsSmall(d)
    ensures BudgetsSmall(Recover(d)) && PlannedSmall(Recover(d))
  {
    hide AdvanceEpoch, OperationWorkspace, PlansWf;
    EpochClosesAll(d);
  }

  lemma FreshSmall(c: Id)
    ensures BudgetsSmall(Initial(c)) && PlannedSmall(Initial(c))
  {
  }

  lemma LoadedSmall(w: World)
    requires Inv(w) && Small(w)
    ensures Small(Apply(w, Loaded))
  {
    hide Inv, Apply, Recover, WorkspaceOf, OwedOn, BudgetsSmall, PlannedSmall;
    LoadedWorld(w);
    if w.disk.Some? {
      DiskPlansWf(w);
      RecoveredSmall(w.disk.value);
    } else {
      FreshSmall(w.st.coordinatorId);
    }
    forall t ensures WorkspaceOf(Apply(w, Loaded), t) == 0 {
      LoadedOwed(w, t);
    }
  }

  lemma {:induction false} RunSmall(c: Id, run: seq<Action>)
    requires Legal(c, run) && forall i | 0 <= i < |run| :: RegistersSmall(run[i])
    ensures Small(After(c, run))
  {
    if run != [] {
      hide Apply, Inv, HeldInv, Enabled, Small, RegistersSmall;
      var front, a := run[..|run| - 1], run[|run| - 1];
      RunSmall(c, front);
      SlotsNeverExceedHolders(c, front);
      RunInv(c, front);
      if a.Loaded? {
        LoadedSmall(After(c, front));
      } else {
        SmallStep(After(c, front), a);
      }
    }
  }

  /**
   With budgets below 2^63, raised and lowered at will, the counters are exactly what the holders reserved after
   every step if and only if no cancel takes off workspace that its plan does not hold.
   */
  lemma WorkspaceIsOwed(c: Id, run: seq<Action>)
    requires Legal(c, run) && forall i | 0 <= i < |run| :: RegistersSmall(run[i])
    ensures (forall i :: 0 <= i <= |run| ==> Exact(After(c, run[..i]))) <==>
            (forall i :: 0 <= i < |run| ==> FairCancel(After(c, run[..i]), run[i]))
    ensures forall t :: WorkspaceOf(After(c, run), t) < HALF
  {
    hide Apply, Inv, Enabled, Exact, NoWrap, FairCancel, RegistersSmall, WorkspaceOf;
    forall i | 0 <= i < |run| ensures NoWrap(After(c, run[..i]), run[i]) {
      LegalPrefix(c, run, i);
      RunSmall(c, run[..i]);
      RunInv(c, run[..i]);
      SmallBooksFit(After(c, run[..i]), run[i]);
    }
    WorkspaceExactIff(c, run);
    RunSmall(c, run);
  }

  // ---- The budget ----

  ghost predicate Within(w: World) {
    forall t :: WorkspaceOf(w, t) <= Budget(w.st, t)
  }

  /** An accepted registration leaves room for what is reserved on the target. */
  predicate LeavesRoom(w: World, a: Action) {
    a.Registered? && RegisterTarget(w.st, a.registration).1.Ok? ==>
      WorkspaceOf(w, a.registration.target) <= a.registration.workspace
  }

  lemma RegisterBudget(s: State, m: RegisterTargetMsg, t: Id)
    ensures var r := RegisterTarget(s, m);
            && Budget(r.0, t) == (if r.1.Ok? && t == m.target then m.workspace else Budget(s, t))
            && r.0.reservations == s.reservations
  {
  }

  lemma RegistrationWithin(w: World, a: Action)
    requires a.Registered? && Within(w)
    ensures Within(Apply(w, a)) <==> LeavesRoom(w, a)
  {
    hide Apply, RegisterTarget, Budget;
    AppliedDefinition(w, a);
    forall t
      ensures WorkspaceOf(Apply(w, a), t) == WorkspaceOf(w, t)
      ensures Budget(Apply(w, a).st, t) ==
                if RegisterTarget(w.st, a.registration).1.Ok? && t == a.registration.target
                then a.registration.workspace else Budget(w.st, t)
    {
      RegisterBudget(w.st, a.registration, t);
    }
    assert WorkspaceOf(Apply(w, a), a.registration.target) == WorkspaceOf(w, a.registration.target);
  }

  lemma CounterWithin(w: World, a: Action, t: Id)
    requires Inv(w) && HeldInv(w) && Enabled(w, a) && !a.Loaded? && WorkspaceOf(w, t) <= Budget(w.st, t)
    ensures WorkspaceOf(Apply(w, a), t) <= Budget(w.st, t)
  {
    hide Inv, HeldInv, Apply, Enabled, Books, Commits, Cancels, OperationWorkspace, ReservationOf, OwedOn, Budget;
    if Books(w, a) {
      BookingAdds(w, a, t);
    } else if Lets(w, a) {
      LettingActions(w, a);
      ReleasedWorkspace(w, a, t);
    } else {
      OtherOwed(w, a, t);
    }
  }

  lemma LoadedWithin(w: World)
    requires Inv(w) && Within(w)
    ensures Within(Apply(w, Loaded))
  {
    hide Inv, Apply, Recover, WorkspaceOf, OwedOn, Budget;
    LoadedWorld(w);
    forall t ensures WorkspaceOf(Apply(w, Loaded), t) == 0 {
      LoadedOwed(w, t);
    }
  }

  lemma WithinStep(w: World, a: Action)
    requires Inv(w) && HeldInv(w) && Enabled(w, a) && Within(w)
    ensures Within(Apply(w, a)) <==> LeavesRoom(w, a)
  {
    hide Inv, HeldInv, Apply, Enabled, WorkspaceOf, RegisterTarget;
    RuntimeDefined(w);
    if a.Registered? {
      RegistrationWithin(w, a);
    } else if a.Loaded? {
      LoadedWithin(w);
    } else {
      TargetsStay(w, a);
      forall t ensures WorkspaceOf(Apply(w, a), t) <= Budget(w.st, t) {
        CounterWithin(w, a, t);
      }
    }
  }

  /**
   On every run, cancels and wrap-around included, no target's counter ever exceeds its budget if and only if no
   accepted registration sets a budget below what is then reserved.
   */
  lemma WithinBudgetIff(c: Id, run: seq<Action>)
    requires Legal(c, run)
    ensures (forall i :: 0 <= i <= |run| ==> Within(After(c, run[..i]))) <==>
            (forall i :: 0 <= i < |run| ==> LeavesRoom(After(c, run[..i]), run[i]))
  {
    hide Apply, Inv, HeldInv, Enabled, Within, LeavesRoom;
    assert Within(After(c, [])) by { InitialWithin(c); }
    forall i | 0 <= i < |run| && Within(After(c, run[..i]))
      ensures Within(After(c, run[..i + 1])) <==> LeavesRoom(After(c, run[..i]), run[i])
    {
      LegalPrefix(c, run, i);
      SlotsNeverExceedHolders(c, run[..i]);
      RunInv(c, run[..i]);
      WithinStep(After(c, run[..i]), run[i]);
    }
    StepByStep(c, run, w => Within(w), (w, a) => LeavesRoom(w, a));
  }

  lemma InitialWithin(c: Id)
    ensures Within(After(c, []))
  {
  }
}
