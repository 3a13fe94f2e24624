/**
 The reservation ledger against the plans that hold a reservation. `World.held` follows the run: a plan enters
 it when it is reserved and leaves it when it commits, is cancelled, or the process restarts.
 */
module Ledger {
  import opened Types
  import opened Engine
  import opened Runs
  import opened PlanLifecycle
  import opened Support
  import opened Results
  import opened Safety

  function HeldOn(w: World, t: Id): set<Id> {
    set p | p in w.held && p in w.st.plans && w.st.plans[p].target == t
  }

  /** Every reserved or dispatched plan holds; a holder has been reserved and is neither committed nor cancelled. */
  ghost predicate HeldInv(w: World) {
    && (forall p | p in w.held ::
         p in w.st.plans && w.st.plans[p].lifecycle !in {PLANNED, COMMITTED, CANCELLED})
    && (forall p | p in w.st.plans && w.st.plans[p].lifecycle in {RESERVED, DISPATCHED} :: p in w.held)
  }

  // ---- How one operation moves the ledger ----

  predicate Books(w: World, a: Action) {
    a.ReserveAsked? && Reserve(w.st, a.plan).1.Ok?
  }

  predicate Commits(w: World, a: Action) {
    a.Completed? && CompletionGuard(w.st, a.result).Ok? && VerdictOf(a.result).Intact?
  }

  predicate Cancels(w: World, a: Action) {
    a.CancelAsked? && CancelPlan(w.st, a.plan).1.Ok?
  }

  ghost predicate SameLedger(s: State, n: State) {
    forall t :: ReservationOf(n, t) == ReservationOf(s, t)
  }

  lemma RefusedReserve(s: State, p: Id)
    requires Reserve(s, p).1.Err?
    ensures SameLedger(s, Reserve(s, p).0) && Reserve(s, p).0.plans == s.plans
  {
    hide AdmissionCheck, WithDefinition;
  }

  lemma RefusedCommit(s: State, m: ResultMsg, id: Id)
    requires !(CompletionGuard(s, m).Ok? && VerdictOf(m).Intact?)
    ensures ApplyResult(s, m, id).0.reservations == s.reservations
  {
    hide CompletionGuard, VerdictOf, ResultFor, LifecycleAfter;
  }

  lemma RefusedCancel(s: State, p: Id)
    requires CancelPlan(s, p).1.Err?
    ensures CancelPlan(s, p).0 == s
  {
  }

  lemma OtherReservations(w: World, a: Action)
    requires !a.Loaded? && !a.ReserveAsked? && !Commits(w, a) && !Cancels(w, a)
    ensures Apply(w, a).st.reservations == w.st.reservations
  {
    hide Apply, StateAfter, MakePlan, PrepareDispatch, ConfirmDispatched, ApplyResult, CancelPlan, CompletionGuard,
      VerdictOf;
    Stepped(w, a);
    Applied(w, a);
    if a.Completed? {
      RefusedCommit(w.st, a.result, a.id);
    } else if a.CancelAsked? {
      RefusedCancel(w.st, a.plan);
    }
  }

  lemma OtherLedger(w: World, a: Action)
    requires !a.Loaded? && !Books(w, a) && !Commits(w, a) && !Cancels(w, a)
    ensures SameLedger(w.st, Apply(w, a).st) && Apply(w, a).held == w.held
  {
    hide StateAfter, Reserve, CompletionGuard, CancelPlan, VerdictOf, Project, Recover;
    if a.ReserveAsked? {
      RefusedReserve(w.st, a.plan);
      Applied(w, a);
    } else {
      OtherReservations(w, a);
    }
  }

  /** An admitted reservation: the slot count was below capacity and the workspace below budget. */
  lemma Booked(s: State, p: Id)
    requires Reserve(s, p).1.Ok? && s.runtime.Keys <= s.targets.Keys
    ensures p in s.plans && s.plans[p].lifecycle == PLANNED && s.plans[p].target in s.targets
    ensures var plan := s.plans[p];
            var rs, n := ReservationOf(s, plan.target), Reserve(s, p).0;
            var ws := OperationWorkspace(s, plan.operation);
            && rs.slots < s.targets[plan.target].concurrencyCapacity
            && rs.workspace <= s.targets[plan.target].workspaceBytes
            && Wrap(rs.workspace + ws) <= s.targets[plan.target].workspaceBytes
            && n.targets == s.targets
            && forall t :: ReservationOf(n, t) ==
                 if t == plan.target then Reservation(rs.slots + 1, Wrap(rs.workspace + ws)) else ReservationOf(s, t)
  {
  }

  function Lowered(rs: Reservation, ws: u64): Reservation {
    Reservation(if rs.slots > 0 then rs.slots - 1 else 0,
                if rs.workspace >= ws then rs.workspace - ws else rs.workspace)
  }

  lemma ReleasedLedger(s: State, plan: Plan, n: State)
    requires n.reservations == Released(s, plan)
    ensures forall t :: ReservationOf(n, t) ==
              if t == plan.target then Lowered(ReservationOf(s, t), plan.reservedWorkspace) else ReservationOf(s, t)
  {
  }

  // ---- Who holds ----

  /** No plan is reserved, committed or cancelled by this step. */
  ghost predicate Silent(old_: map<Id, Plan>, new_: map<Id, Plan>) {
    forall p | p in old_ && p in new_ && new_[p].lifecycle in {RESERVED, COMMITTED, CANCELLED} ::
      old_[p].lifecycle == new_[p].lifecycle
  }

  lemma RefusedSilent(s: State, m: ResultMsg, id: Id)
    requires PlansWf(s.plans) && !(CompletionGuard(s, m).Ok? && VerdictOf(m).Intact?)
    ensures Silent(s.plans, ApplyResult(s, m, id).0.plans)
  {
    hide VerdictOf, ResultFor, Released;
  }

  lemma OtherSilent(w: World, a: Action)
    requires Known(w) && Enabled(w, a) && !a.Loaded? && !Books(w, a) && !Commits(w, a) && !Cancels(w, a)
    ensures Silent(w.st.plans, Apply(w, a).st.plans)
  {
    hide Apply, PlanWf, Evolves, Enabled, ApplyResult, CompletionGuard, VerdictOf, Reserve, CancelPlan;
    Applied(w, a);
    if a.Completed? {
      RefusedSilent(w.st, a.result, a.id);
    } else if a.ReserveAsked? {
      RefusedReserve(w.st, a.plan);
    } else if a.CancelAsked? {
      RefusedCancel(w.st, a.plan);
    } else {
      StepMoves(w, a);
    }
  }

  /** What a step does to the holders. */
  lemma HeldMoves(w: World, a: Action)
    requires !a.Loaded?
    ensures Books(w, a) ==> Apply(w, a).held == w.held + {a.plan}
    ensures Commits(w, a) ==> Apply(w, a).held == w.held - {a.result.plan}
    ensures Cancels(w, a) ==> Apply(w, a).held == w.held - {a.plan}
  {
    hide StateAfter, Reserve, CompletionGuard, VerdictOf, CancelPlan, Project, Recover;
  }

  ghost predicate SameTargets(old_: map<Id, Plan>, new_: map<Id, Plan>) {
    forall p | p in old_ :: p in new_ && new_[p].target == old_[p].target
  }

  lemma StepTargets(w: World, a: Action)
    requires Known(w) && Enabled(w, a) && !a.Loaded?
    ensures SameTargets(w.st.plans, Apply(w, a).st.plans)
  {
    hide Apply, Evolves, PlanWf, Enabled, PlansEnter, PlansCaused, Known;
    StepMoves(w, a);
    forall p | p in w.st.plans ensures Apply(w, a).st.plans[p].target == w.st.plans[p].target {
      Carried(w.st.plans[p], Apply(w, a).st.plans[p]);
    }
  }

  // ---- The step, case by case, on worlds ----

  /** One more holder, one more slot. */
  lemma BookedWorld(w: World, a: Action)
    requires Inv(w) && HeldInv(w) && Enabled(w, a) && Books(w, a)
    ensures var n := Apply(w, a);
            && HeldInv(n)
            && n.held == w.held + {a.plan} && a.plan !in w.held && a.plan in w.st.plans
            && n.st.plans == w.st.plans[a.plan := w.st.plans[a.plan].(lifecycle := RESERVED, reservedSlots := 1,
                 reservedWorkspace := OperationWorkspace(w.st, w.st.plans[a.plan].operation))]
  {
    KnownOf(w);
    hide Inv, Enabled, Apply, Reserve, PlanWf, HeldInv, OperationWorkspace;
    HeldMoves(w, a);
    Applied(w, a);
    if a.plan in w.st.plans { WfId(w.st.plans, a.plan); }
    ReservePlans(w.st, a.plan);
    HeldBooked(w, Apply(w, a), a.plan);
  }

  lemma HeldBooked(w: World, n: World, p: Id)
    requires HeldInv(w) && p in w.st.plans && w.st.plans[p].lifecycle == PLANNED
    requires p in n.st.plans && n.st.plans == w.st.plans[p := n.st.plans[p]] && n.st.plans[p].lifecycle == RESERVED
    requires n.held == w.held + {p}
    ensures HeldInv(n) && p !in w.held
  {
  }

  lemma HeldReleased(w: World, n: World, p: Id)
    requires HeldInv(w) && p in w.st.plans && p in n.st.plans && n.st.plans == w.st.plans[p := n.st.plans[p]]
    requires n.st.plans[p].lifecycle in {COMMITTED, CANCELLED} && n.held == w.held - {p}
    ensures HeldInv(n)
  {
  }

  lemma CommitReleases(s: State, m: ResultMsg, id: Id)
    requires CompletionGuard(s, m).Ok? && VerdictOf(m).Intact?
    ensures m.plan in s.plans && ApplyResult(s, m, id).0.reservations == Released(s, s.plans[m.plan])
  {
    hide VerdictOf, ResultFor, Released;
  }

  /** One holder fewer. */
  lemma CommittedWorld(w: World, a: Action)
    requires Inv(w) && HeldInv(w) && Enabled(w, a) && Commits(w, a)
    ensures var n, p := Apply(w, a), a.result.plan;
            && HeldInv(n) && p in w.held && p in w.st.plans && n.held == w.held - {p}
            && n.st.plans == w.st.plans[p := w.st.plans[p].(lifecycle := COMMITTED)]
            && n.st.reservations == Released(w.st, w.st.plans[p])
  {
    KnownOf(w);
    hide Inv, Enabled, Apply, ApplyResult, CompletionGuard, VerdictOf, ResultFor, ResultOk, Released, PlansWf;
    HeldMoves(w, a);
    Applied(w, a);
    Accepted(w.st, a.result, a.id);
    CommitReleases(w.st, a.result, a.id);
    HeldReleased(w, Apply(w, a), a.result.plan);
  }

  lemma CancelledWorld(w: World, a: Action)
    requires HeldInv(w) && Cancels(w, a)
    ensures var n, p := Apply(w, a), a.plan;
            && HeldInv(n) && p in w.st.plans && n.held == w.held - {p}
            && n.st.plans == w.st.plans[p := w.st.plans[p].(lifecycle := CANCELLED)]
            && n.st.reservations == Released(w.st, w.st.plans[p])
  {
    hide Apply, Released, HeldInv;
    HeldMoves(w, a);
    Applied(w, a);
    HeldReleased(w, Apply(w, a), a.plan);
  }

  lemma OtherWorld(w: World, a: Action)
    requires Inv(w) && HeldInv(w) && Enabled(w, a) && !a.Loaded?
    requires !Books(w, a) && !Commits(w, a) && !Cancels(w, a)
    ensures HeldInv(Apply(w, a)) && Apply(w, a).held == w.held && SameLedger(w.st, Apply(w, a).st)
    ensures SameTargets(w.st.plans, Apply(w, a).st.plans)
  {
    KnownOf(w);
    hide Inv, Known, Enabled, Apply, Evolves, PlanWf, Books, Commits, Cancels, SameLedger, PlansCaused;
    OtherLedger(w, a);
    OtherSilent(w, a);
    StepTargets(w, a);
    StepMoves(w, a);
    StillHeld(w, a);
  }

  lemma StillHeld(w: World, a: Action)
    requires HeldInv(w) && Apply(w, a).held == w.held
    requires Moves(w.st.plans, Apply(w, a).st.plans, a) && Silent(w.st.plans, Apply(w, a).st.plans)
    ensures HeldInv(Apply(w, a))
  {
    hide Apply, PlanWf, PlansCaused;
  }
}
