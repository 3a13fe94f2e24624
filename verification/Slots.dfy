/** The slot counter of a target against the plans that hold a slot on it. */
module Slots {
  import opened Types
  import opened Engine
  import opened Runs
  import opened Safety
  import opened Ledger

  function SlotsOf(w: World, t: Id): u64 {
    ReservationOf(w.st, t).slots
  }

  // ---- The holders of a target, step by step ----

  lemma HoldersBooked(w: World, n: World, p: Id, t: Id)
    requires p in w.st.plans && p !in w.held && n.held == w.held + {p} && SameTargets(w.st.plans, n.st.plans)
    requires forall q | q in w.held :: q in w.st.plans
    ensures HeldOn(n, t) == HeldOn(w, t) + (if w.st.plans[p].target == t then {p} else {})
    ensures |HeldOn(n, t)| == |HeldOn(w, t)| + (if w.st.plans[p].target == t then 1 else 0)
  {
    assert HeldOn(n, t) == HeldOn(w, t) + (if w.st.plans[p].target == t then {p} else {});
  }

  lemma HoldersReleased(w: World, n: World, p: Id, t: Id)
    requires p in w.st.plans && n.held == w.held - {p} && SameTargets(w.st.plans, n.st.plans)
    requires forall q | q in w.held :: q in w.st.plans
    ensures HeldOn(n, t) == HeldOn(w, t) - {p}
    ensures |HeldOn(n, t)| == |HeldOn(w, t)| - (if p in w.held && w.st.plans[p].target == t then 1 else 0)
  {
    assert HeldOn(n, t) == HeldOn(w, t) - {p};
  }

  lemma HoldersSame(w: World, n: World, t: Id)
    requires n.held == w.held && SameTargets(w.st.plans, n.st.plans)
    requires forall q | q in w.held :: q in w.st.plans
    ensures HeldOn(n, t) == HeldOn(w, t)
  {
  }

  lemma SetTargets(w: World, n: World, p: Id)
    requires p in w.st.plans && p in n.st.plans && n.st.plans == w.st.plans[p := n.st.plans[p]]
    requires n.st.plans[p].target == w.st.plans[p].target
    ensures SameTargets(w.st.plans, n.st.plans)
  {
  }

  // ---- The counter, step by step ----

  lemma BookedSlots(w: World, a: Action, t: Id)
    requires Inv(w) && HeldInv(w) && Enabled(w, a) && Books(w, a)
    ensures a.plan in w.st.plans
    ensures var here := if w.st.plans[a.plan].target == t then 1 else 0;
            SlotsOf(Apply(w, a), t) == SlotsOf(w, t) + here && |HeldOn(Apply(w, a), t)| == |HeldOn(w, t)| + here
  {
    BookedWorld(w, a);
    SupportedParts(w.st);
    hide Apply, Inv, Reserve, HeldOn, Enabled;
    Applied(w, a);
    Booked(w.st, a.plan);
    SetTargets(w, Apply(w, a), a.plan);
    HoldersBooked(w, Apply(w, a), a.plan, t);
  }

  predicate Lets(w: World, a: Action) {
    Commits(w, a) || Cancels(w, a)
  }

  function Letter(a: Action): Id
    requires a.Completed? || a.CancelAsked?
  {
    if a.Completed? then a.result.plan else a.plan
  }

  /** Committing or cancelling takes a slot off the plan's target, whether or not the plan held one. */
  lemma ReleasedSlots(w: World, a: Action, t: Id)
    requires Inv(w) && HeldInv(w) && Enabled(w, a) && Lets(w, a)
    ensures Letter(a) in w.st.plans && (Commits(w, a) ==> Letter(a) in w.held)
    ensures var p := Letter(a);
            var here := w.st.plans[p].target == t;
            && SlotsOf(Apply(w, a), t) == (if here && SlotsOf(w, t) > 0 then SlotsOf(w, t) - 1 else SlotsOf(w, t))
            && |HeldOn(Apply(w, a), t)| == |HeldOn(w, t)| - (if here && p in w.held then 1 else 0)
  {
    if Commits(w, a) {
      CommittedWorld(w, a);
    } else {
      CancelledWorld(w, a);
    }
    hide Apply, Inv, HeldOn, Enabled, Commits, Cancels, Released;
    var p := Letter(a);
    SetTargets(w, Apply(w, a), p);
    HoldersReleased(w, Apply(w, a), p, t);
    ReleasedLedger(w.st, w.st.plans[p], Apply(w, a).st);
  }

  lemma OtherSlots(w: World, a: Action, t: Id)
    requires Inv(w) && HeldInv(w) && Enabled(w, a) && !a.Loaded? && !Books(w, a) && !Lets(w, a)
    ensures SlotsOf(Apply(w, a), t) == SlotsOf(w, t) && HeldOn(Apply(w, a), t) == HeldOn(w, t)
  {
    hide Apply, Inv, Enabled, Books, Commits, Cancels, HeldOn, ReservationOf;
    OtherWorld(w, a);
    HoldersSame(w, Apply(w, a), t);
  }

  // ---- Every run ----

  ghost predicate SlotsCovered(w: World) {
    forall t :: SlotsOf(w, t) <= |HeldOn(w, t)|
  }

  ghost predicate SlotsExact(w: World) {
    forall t :: SlotsOf(w, t) == |HeldOn(w, t)|
  }

  lemma SlotStep(w: World, a: Action, t: Id)
    requires Inv(w) && HeldInv(w) && Enabled(w, a) && !a.Loaded? && SlotsOf(w, t) <= |HeldOn(w, t)|
    ensures SlotsOf(Apply(w, a), t) <= |HeldOn(Apply(w, a), t)|
    ensures SlotsOf(w, t) == |HeldOn(w, t)| && (Cancels(w, a) ==> a.plan in w.held) ==>
              SlotsOf(Apply(w, a), t) == |HeldOn(Apply(w, a), t)|
  {
    hide Apply, Inv, HeldInv, Enabled, Books, Commits, Cancels, HeldOn, SlotsOf;
    if Books(w, a) {
      BookedSlots(w, a, t);
    } else if Lets(w, a) {
      LettingActions(w, a);
      if w.st.plans[Letter(a)].target == t && Letter(a) in w.held {
        HolderCounts(w, Letter(a), t);
      }
      ReleasedSlots(w, a, t);
    } else {
      OtherSlots(w, a, t);
    }
  }

  lemma LettingActions(w: World, a: Action)
    requires Lets(w, a)
    ensures (Commits(w, a) ==> a.Completed?) && (Cancels(w, a) ==> a.CancelAsked?) && Letter(a) in w.st.plans
  {
    hide VerdictOf;
  }

  lemma HolderCounts(w: World, p: Id, t: Id)
    requires p in w.held && p in w.st.plans && w.st.plans[p].target == t
    ensures |HeldOn(w, t)| >= 1
  {
    assert p in HeldOn(w, t);
  }

  lemma HeldStep(w: World, a: Action)
    requires Inv(w) && HeldInv(w) && Enabled(w, a) && !a.Loaded?
    ensures HeldInv(Apply(w, a))
  {
    hide Apply, Inv, HeldInv, Enabled, Books, Commits, Cancels;
    if Books(w, a) {
      BookedWorld(w, a);
    } else if Commits(w, a) {
      CommittedWorld(w, a);
    } else if Cancels(w, a) {
      CancelledWorld(w, a);
    } else {
      OtherWorld(w, a);
    }
  }

  lemma LoadedLedger(w: World, t: Id)
    requires Inv(w)
    ensures var n := World(Revived(w), w.disk, w.used, {});
            HeldInv(n) && ReservationOf(n.st, t) == Reservation(0, 0) && HeldOn(n, t) == {}
  {
    hide Inv, Revived;
    var n := World(Revived(w), w.disk, w.used, {});
    forall p | p in n.st.plans ensures n.st.plans[p].lifecycle !in {RESERVED, DISPATCHED} {
      RevivedPlans(w, p);
    }
    RevivedLedger(w);
  }

  lemma RevivedLedger(w: World)
    ensures Revived(w).reservations == map[]
  {
    hide AdvanceEpoch;
  }

  lemma LoadedSlots(w: World, t: Id)
    requires Inv(w) && HeldInv(w) && SlotsOf(w, t) <= |HeldOn(w, t)|
    ensures HeldInv(Apply(w, Loaded)) && SlotsOf(Apply(w, Loaded), t) <= |HeldOn(Apply(w, Loaded), t)|
    ensures SlotsOf(w, t) == |HeldOn(w, t)| ==> SlotsOf(Apply(w, Loaded), t) == |HeldOn(Apply(w, Loaded), t)|
  {
    LoadedWorld(w);
    hide Apply, Inv, HeldInv, HeldOn, ReservationOf, Recover;
    LoadedLedger(w, t);
  }

  /** On every run a target's slot counter is at most the number of its holders. */
  lemma {:induction false} SlotsNeverExceedHolders(c: Id, run: seq<Action>)
    requires Legal(c, run)
    ensures HeldInv(After(c, run)) && SlotsCovered(After(c, run))
  {
    if run == [] {
      assert forall t :: HeldOn(After(c, run), t) == {};
    } else {
      hide Apply, Inv, HeldInv, Enabled, HeldOn, SlotsOf;
      var front, a := run[..|run| - 1], run[|run| - 1];
      SlotsNeverExceedHolders(c, front);
      RunInv(c, front);
      var w := After(c, front);
      forall t ensures SlotsOf(Apply(w, a), t) <= |HeldOn(Apply(w, a), t)| {
        if a.Loaded? { LoadedSlots(w, t); } else { SlotStep(w, a, t); }
      }
      if a.Loaded? { LoadedSlots(w, 0); } else { HeldStep(w, a); }
    }
  }

  /** Exactly when a cancel keeps the ledger exact: the plan holds, or no plan holds on its target. */
  lemma CancelKeepsLedger(w: World, a: Action)
    requires Inv(w) && HeldInv(w) && Enabled(w, a) && SlotsExact(w) && Cancels(w, a)
    ensures a.plan in w.st.plans
    ensures SlotsExact(Apply(w, a)) <==> a.plan in w.held || HeldOn(w, w.st.plans[a.plan].target) == {}
  {
    LettingActions(w, a);
    hide Apply, Inv, HeldInv, Enabled, Commits, Cancels, HeldOn, SlotsOf;
    var target := w.st.plans[a.plan].target;
    forall t ensures t != target ==> SlotsOf(Apply(w, a), t) == |HeldOn(Apply(w, a), t)| {
      ReleasedSlots(w, a, t);
    }
    ReleasedSlots(w, a, target);
    if a.plan in w.held {
      HolderCounts(w, a.plan, target);
    }
  }

  predicate KeepsSlots(w: World, a: Action) {
    Cancels(w, a) ==>
      a.plan in w.st.plans && (a.plan in w.held || HeldOn(w, w.st.plans[a.plan].target) == {})
  }

  lemma SlotsExactStep(w: World, a: Action)
    requires Inv(w) && HeldInv(w) && Enabled(w, a) && SlotsExact(w)
    ensures SlotsExact(Apply(w, a)) <==> KeepsSlots(w, a)
  {
    LoadCancelsNothing(w, a);
    hide Apply, Inv, HeldInv, Enabled, Cancels, HeldOn, SlotsOf;
    if Cancels(w, a) {
      CancelKeepsLedger(w, a);
    } else {
      forall t ensures SlotsOf(Apply(w, a), t) == |HeldOn(Apply(w, a), t)| {
        if a.Loaded? { LoadedSlots(w, t); } else { SlotStep(w, a, t); }
      }
    }
  }

  lemma LoadCancelsNothing(w: World, a: Action)
    ensures Cancels(w, a) ==> a.CancelAsked?
  {
  }

  lemma InitialSlots(c: Id)
    ensures SlotsExact(After(c, []))
  {
    assert forall t :: HeldOn(After(c, []), t) == {};
  }

  /**
   On every run the counters are, after every step, exactly the numbers of holders if and only if every cancel
   hits a holder or a target on which nothing is held.
   */
  lemma SlotsAreHolders(c: Id, run: seq<Action>)
    requires Legal(c, run)
    ensures (forall i :: 0 <= i <= |run| ==> SlotsExact(After(c, run[..i]))) <==>
            (forall i :: 0 <= i < |run| ==> KeepsSlots(After(c, run[..i]), run[i]))
  {
    hide Apply, Inv, HeldInv, Enabled, SlotsExact, KeepsSlots;
    InitialSlots(c);
    forall i | 0 <= i < |run| && SlotsExact(After(c, run[..i]))
      ensures SlotsExact(After(c, run[..i + 1])) <==> KeepsSlots(After(c, run[..i]), run[i])
    {
      LegalPrefix(c, run, i);
      SlotsNeverExceedHolders(c, run[..i]);
      RunInv(c, run[..i]);
      SlotsExactStep(After(c, run[..i]), run[i]);
    }
    StepByStep(c, run, w => SlotsExact(w), (w, a) => KeepsSlots(w, a));
  }

  // ---- Capacity ----

  function Capacity(s: State, t: Id): nat {
    if t in s.targets then s.targets[t].concurrencyCapacity else 0
  }

  ghost predicate SlotsWithin(w: World) {
    forall t :: SlotsOf(w, t) <= Capacity(w.st, t)
  }

  /** An accepted registration leaves at least as many slots as are taken on the target. */
  predicate LeavesSlots(w: World, a: Action) {
    a.Registered? && RegisterTarget(w.st, a.registration).1.Ok? ==>
      SlotsOf(w, a.registration.target) <= a.registration.concurrency
  }

  lemma ReserveTargets(s: State, p: Id)
    requires s.runtime.Keys <= s.targets.Keys
    ensures Reserve(s, p).0.targets == s.targets
  {
    hide AdmissionCheck;
  }

  lemma TargetsStay(w: World, a: Action)
    requires !a.Loaded? && !a.Registered? && w.st.runtime.Keys <= w.st.targets.Keys
    ensures Apply(w, a).st.targets == w.st.targets
  {
    hide Apply, StateAfter, Reserve;
    Stepped(w, a);
    Applied(w, a);
    if a.ReserveAsked? {
      ReserveTargets(w.st, a.plan);
    }
  }

  lemma RegisterCapacity(s: State, m: RegisterTargetMsg, t: Id)
    ensures var r := RegisterTarget(s, m);
            Capacity(r.0, t) == if r.1.Ok? && t == m.target then m.concurrency else Capacity(s, t)
  {
  }

  lemma RegistrationSlots(w: World, a: Action)
    requires Inv(w) && HeldInv(w) && Enabled(w, a) && a.Registered? && SlotsWithin(w)
    ensures SlotsWithin(Apply(w, a)) <==> LeavesSlots(w, a)
  {
    RegisterBooksNothing(w, a);
    hide Apply, Inv, HeldInv, Enabled, Books, Commits, Cancels, HeldOn, SlotsOf, RegisterTarget, Capacity;
    AppliedDefinition(w, a);
    var m := a.registration;
    forall t
      ensures SlotsOf(Apply(w, a), t) == SlotsOf(w, t)
      ensures Capacity(Apply(w, a).st, t) ==
                if RegisterTarget(w.st, m).1.Ok? && t == m.target then m.concurrency else Capacity(w.st, t)
    {
      RegisterCapacity(w.st, m, t);
      OtherSlots(w, a, t);
    }
    assert SlotsOf(Apply(w, a), m.target) == SlotsOf(w, m.target);
  }

  lemma CounterWithin(w: World, a: Action, t: Id)
    requires Inv(w) && HeldInv(w) && Enabled(w, a) && !a.Loaded? && SlotsOf(w, t) <= Capacity(w.st, t)
    ensures SlotsOf(Apply(w, a), t) <= Capacity(w.st, t)
  {
    BookedBelow(w, a);
    hide Apply, Inv, HeldInv, Enabled, Books, Commits, Cancels, HeldOn, SlotsOf, Capacity;
    if Books(w, a) {
      BookedSlots(w, a, t);
    } else if Lets(w, a) {
      ReleasedSlots(w, a, t);
    } else {
      OtherSlots(w, a, t);
    }
  }

  lemma SlotsWithinStep(w: World, a: Action)
    requires Inv(w) && HeldInv(w) && Enabled(w, a) && SlotsWithin(w)
    ensures SlotsWithin(Apply(w, a)) <==> LeavesSlots(w, a)
  {
    RuntimeDefined(w);
    hide Apply, Inv, HeldInv, Enabled, SlotsOf, RegisterTarget;
    if a.Registered? {
      RegistrationSlots(w, a);
    } else if a.Loaded? {
      forall t ensures SlotsOf(Apply(w, Loaded), t) <= Capacity(Apply(w, Loaded).st, t) {
        LoadedWithin(w, t);
      }
    } else {
      TargetsStay(w, a);
      forall t ensures SlotsOf(Apply(w, a), t) <= Capacity(w.st, t) {
        CounterWithin(w, a, t);
      }
    }
  }

  lemma RegisterBooksNothing(w: World, a: Action)
    requires a.Registered?
    ensures !Books(w, a) && !Commits(w, a) && !Cancels(w, a)
  {
  }

  lemma BookedBelow(w: World, a: Action)
    requires Inv(w)
    ensures Books(w, a) ==>
              a.plan in w.st.plans && SlotsOf(w, w.st.plans[a.plan].target) < Capacity(w.st, w.st.plans[a.plan].target)
  {
    SupportedParts(w.st);
    hide Inv, Reserve;
    if Books(w, a) {
      Booked(w.st, a.plan);
    }
  }

  /**
   On every run, whatever is cancelled, no target's slot counter ever exceeds its capacity if and only if no
   accepted registration sets a capacity below the slots then taken.
   */
  lemma SlotsWithinCapacity(c: Id, run: seq<Action>)
    requires Legal(c, run)
    ensures (forall i :: 0 <= i <= |run| ==> SlotsWithin(After(c, run[..i]))) <==>
            (forall i :: 0 <= i < |run| ==> LeavesSlots(After(c, run[..i]), run[i]))
  {
    hide Apply, Inv, HeldInv, Enabled, SlotsWithin, LeavesSlots;
    InitialWithin(c);
    forall i | 0 <= i < |run| && SlotsWithin(After(c, run[..i]))
      ensures SlotsWithin(After(c, run[..i + 1])) <==> LeavesSlots(After(c, run[..i]), run[i])
    {
      LegalPrefix(c, run, i);
      SlotsNeverExceedHolders(c, run[..i]);
      RunInv(c, run[..i]);
      SlotsWithinStep(After(c, run[..i]), run[i]);
    }
    StepByStep(c, run, w => SlotsWithin(w), (w, a) => LeavesSlots(w, a));
  }

  lemma InitialWithin(c: Id)
    ensures SlotsWithin(After(c, []))
  {
  }

  lemma LoadedWithin(w: World, t: Id)
    requires Inv(w) && SlotsOf(w, t) <= Capacity(w.st, t)
    ensures SlotsOf(Apply(w, Loaded), t) <= Capacity(Apply(w, Loaded).st, t)
  {
    LoadedWorld(w);
    hide Apply, Inv, Recover;
    LoadedLedger(w, t);
  }
}
