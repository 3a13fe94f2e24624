/** The reserved and dispatched plans of a target against its capacity. */
module Openings {
  import opened Types
  import opened Engine
  import opened Runs
  import opened PlanLifecycle
  import opened Safety
  import opened Ledger
  import opened Slots

  function OpenOn(s: State, t: Id): set<Id> {
    set p | p in s.plans && s.plans[p].target == t && s.plans[p].lifecycle in {RESERVED, DISPATCHED}
  }

  ghost predicate OpenWithin(w: World) {
    forall t :: |OpenOn(w.st, t)| <= Capacity(w.st, t)
  }

  /** An admitted reservation finds an opening that is really there. */
  predicate FindsOpening(w: World, a: Action) {
    Books(w, a) ==>
      && a.plan in w.st.plans
      && var t := w.st.plans[a.plan].target;
         |OpenOn(w.st, t)| < Capacity(w.st, t)
  }

  /** An accepted registration leaves a place for every open plan. */
  predicate LeavesOpenings(w: World, a: Action) {
    a.Registered? && RegisterTarget(w.st, a.registration).1.Ok? ==>
      |OpenOn(w.st, a.registration.target)| <= a.registration.concurrency
  }

  lemma SubsetSize(a: set<Id>, b: set<Id>)
    requires a <= b
    ensures |a| <= |b|
  {
    assert b == a + (b - a);
  }

  // ---- Step by step ----

  lemma OpenBooked(s: State, n: State, p: Id, t: Id)
    requires p in s.plans && s.plans[p].lifecycle == PLANNED && p in n.plans && n.plans == s.plans[p := n.plans[p]]
    requires n.plans[p].lifecycle == RESERVED && n.plans[p].target == s.plans[p].target
    ensures OpenOn(n, t) == OpenOn(s, t) + (if s.plans[p].target == t then {p} else {}) && p !in OpenOn(s, t)
  {
    var old_, new_ := s.plans, n.plans;
    forall q ensures q in OpenOn(n, t) <==> q in OpenOn(s, t) || (q == p && old_[p].target == t) {
      if q != p {
        assert q in new_ <==> q in old_;
      }
    }
  }

  lemma BookedOpen(w: World, a: Action, t: Id)
    requires Inv(w) && HeldInv(w) && Enabled(w, a) && Books(w, a)
    ensures a.plan in w.st.plans
    ensures |OpenOn(Apply(w, a).st, t)| == |OpenOn(w.st, t)| + if w.st.plans[a.plan].target == t then 1 else 0
  {
    RuntimeDefined(w);
    hide Apply, Inv, HeldInv, Enabled, Reserve, OpenOn, OperationWorkspace, ReservationOf;
    BookedWorld(w, a);
    Booked(w.st, a.plan);
    OpenBooked(w.st, Apply(w, a).st, a.plan, t);
  }

  lemma BookingOpens(w: World, a: Action)
    requires Inv(w) && HeldInv(w) && Enabled(w, a) && Books(w, a) && OpenWithin(w)
    ensures OpenWithin(Apply(w, a)) <==> FindsOpening(w, a)
  {
    RuntimeDefined(w);
    hide Apply, Inv, HeldInv, Enabled, Reserve, OpenOn, Capacity;
    BookedOpen(w, a, 0);
    TargetsStay(w, a);
    var n, target := Apply(w, a).st, w.st.plans[a.plan].target;
    forall t
      ensures |OpenOn(n, t)| == |OpenOn(w.st, t)| + (if target == t then 1 else 0)
      ensures Capacity(n, t) == Capacity(w.st, t)
    {
      BookedOpen(w, a, t);
      SameCapacity(w.st, n, t);
    }
    OneMoreOpen(w.st, n, target);
  }

  lemma OneMoreOpen(s: State, n: State, target: Id)
    requires forall t :: |OpenOn(s, t)| <= Capacity(s, t) && Capacity(n, t) == Capacity(s, t)
    requires forall t :: |OpenOn(n, t)| == |OpenOn(s, t)| + if target == t then 1 else 0
    ensures (forall t :: |OpenOn(n, t)| <= Capacity(n, t)) <==> |OpenOn(s, target)| < Capacity(s, target)
  {
    hide OpenOn, Capacity;
    assert |OpenOn(n, target)| == |OpenOn(s, target)| + 1;
  }

  lemma SameCapacity(s: State, n: State, t: Id)
    requires n.targets == s.targets
    ensures Capacity(n, t) == Capacity(s, t)
  {
  }

  lemma RegistrationOpens(w: World, a: Action)
    requires a.Registered? && OpenWithin(w)
    ensures OpenWithin(Apply(w, a)) <==> LeavesOpenings(w, a)
  {
    hide Apply, StateAfter, RegisterTarget, Capacity;
    Stepped(w, a);
    AppliedDefinition(w, a);
    var m, n := a.registration, Apply(w, a).st;
    forall t
      ensures OpenOn(n, t) == OpenOn(w.st, t)
      ensures Capacity(n, t) ==
                if RegisterTarget(w.st, m).1.Ok? && t == m.target then m.concurrency else Capacity(w.st, t)
    {
      RegisterCapacity(w.st, m, t);
    }
    assert OpenOn(n, m.target) == OpenOn(w.st, m.target);
  }

  lemma StartOpens(w: World)
    requires Inv(w)
    ensures OpenWithin(Apply(w, Loaded))
  {
    hide Apply, Inv, Revived;
    LoadedWorld(w);
    forall t ensures OpenOn(Revived(w), t) == {} {
      forall p | p in OpenOn(Revived(w), t) ensures false {
        RevivedPlans(w, p);
      }
    }
  }

  /** An open plan was open before, unless it has just been reserved. */
  lemma WasOpen(p: Id, o: Plan, n: Plan, a: Action)
    requires Evolves(o, n) && Caused(p, o, n, a) && n.lifecycle in {RESERVED, DISPATCHED}
    ensures n.target == o.target
    ensures o.lifecycle in {RESERVED, DISPATCHED} || (a.ReserveAsked? && a.plan == p)
  {
  }

  lemma OtherOpens(w: World, a: Action, t: Id)
    requires Inv(w) && Enabled(w, a) && !a.Loaded? && !Books(w, a)
    ensures OpenOn(Apply(w, a).st, t) <= OpenOn(w.st, t)
  {
    KnownOf(w);
    hide Apply, Inv, Known, Enabled, Reserve, Evolves, Caused, PlanWf;
    StepMoves(w, a);
    Applied(w, a);
    if a.ReserveAsked? {
      RefusedReserve(w.st, a.plan);
    } else {
      forall p | p in OpenOn(Apply(w, a).st, t) ensures p in OpenOn(w.st, t) {
        assert p in w.st.plans;
        WasOpen(p, w.st.plans[p], Apply(w, a).st.plans[p], a);
      }
    }
  }

  lemma OtherWithin(w: World, a: Action)
    requires Inv(w) && Enabled(w, a) && !a.Loaded? && !a.Registered? && !Books(w, a) && OpenWithin(w)
    ensures OpenWithin(Apply(w, a))
  {
    hide Apply, Inv, Enabled, Books, OpenOn, Capacity;
    RuntimeDefined(w);
    TargetsStay(w, a);
    forall t ensures |OpenOn(Apply(w, a).st, t)| <= Capacity(Apply(w, a).st, t) {
      OtherOpens(w, a, t);
      SubsetSize(OpenOn(Apply(w, a).st, t), OpenOn(w.st, t));
      SameCapacity(w.st, Apply(w, a).st, t);
    }
  }

  /** A step of another kind meets both conditions. */
  lemma Unconcerned(w: World, a: Action)
    ensures !Books(w, a) ==> FindsOpening(w, a)
    ensures !a.Registered? ==> LeavesOpenings(w, a)
    ensures a.Loaded? || a.Registered? ==> !Books(w, a)
  {
    hide Reserve, RegisterTarget, OpenOn, Capacity;
  }

  lemma OpenStep(w: World, a: Action)
    requires Inv(w) && HeldInv(w) && Enabled(w, a) && OpenWithin(w)
    ensures OpenWithin(Apply(w, a)) <==> FindsOpening(w, a) && LeavesOpenings(w, a)
  {
    hide Apply, Inv, HeldInv, Enabled, Books, OpenWithin, FindsOpening, LeavesOpenings;
    Unconcerned(w, a);
    if a.Loaded? {
      StartOpens(w);
    } else if Books(w, a) {
      BookingOpens(w, a);
    } else if a.Registered? {
      RegistrationOpens(w, a);
    } else {
      OtherWithin(w, a);
    }
  }

  // ---- Over runs ----

  lemma InitialOpen(c: Id)
    ensures OpenWithin(After(c, []))
  {
    assert forall t :: OpenOn(Initial(c), t) == {};
  }

  /**
   On every run, whatever is cancelled, the reserved and dispatched plans of a target never exceed its capacity if
   and only if every admitted reservation finds fewer of them than the capacity, and no accepted registration sets
   a capacity below them.
   */
  lemma OpenWithinIff(c: Id, run: seq<Action>)
    requires Legal(c, run)
    ensures (forall i :: 0 <= i <= |run| ==> OpenWithin(After(c, run[..i]))) <==>
            (forall i :: 0 <= i < |run| ==>
               FindsOpening(After(c, run[..i]), run[i]) && LeavesOpenings(After(c, run[..i]), run[i]))
  {
    hide Apply, Inv, HeldInv, Enabled, OpenWithin, FindsOpening, LeavesOpenings;
    InitialOpen(c);
    forall i | 0 <= i < |run| && OpenWithin(After(c, run[..i]))
      ensures OpenWithin(After(c, run[..i + 1])) <==>
              FindsOpening(After(c, run[..i]), run[i]) && LeavesOpenings(After(c, run[..i]), run[i])
    {
      LegalPrefix(c, run, i);
      SlotsNeverExceedHolders(c, run[..i]);
      RunInv(c, run[..i]);
      OpenStep(After(c, run[..i]), run[i]);
    }
    StepByStep(c, run, w => OpenWithin(w), (w, a) => FindsOpening(w, a) && LeavesOpenings(w, a));
  }

  // ---- While the counters are exact ----

  /** Every cancel keeps the counters exact. */
  ghost predicate CancelsKeepSlots(c: Id, run: seq<Action>) {
    forall i :: 0 <= i < |run| ==> KeepsSlots(After(c, run[..i]), run[i])
  }

  /** Every accepted registration leaves room for the slots taken. */
  ghost predicate CapacityKept(c: Id, run: seq<Action>) {
    forall i :: 0 <= i < |run| ==> LeavesSlots(After(c, run[..i]), run[i])
  }

  lemma OpenAreHeld(w: World, t: Id)
    requires HeldInv(w) && SlotsExact(w)
    ensures |OpenOn(w.st, t)| <= SlotsOf(w, t)
  {
    SubsetSize(OpenOn(w.st, t), HeldOn(w, t));
  }

  /** With exact counters the admission check sees every open plan. */
  lemma ExactFindsOpening(w: World, a: Action)
    requires Inv(w) && HeldInv(w) && SlotsExact(w)
    ensures FindsOpening(w, a) && (LeavesSlots(w, a) ==> LeavesOpenings(w, a))
  {
    BookedBelow(w, a);
    hide Inv, HeldInv, SlotsExact, Reserve, OpenOn, Capacity, SlotsOf, RegisterTarget;
    if Books(w, a) {
      OpenAreHeld(w, w.st.plans[a.plan].target);
    }
    if a.Registered? {
      OpenAreHeld(w, a.registration.target);
    }
  }

  /** So on runs whose cancels keep the counters exact, registrations that leave room for the counters are enough. */
  lemma OpenPlansWithinCapacity(c: Id, run: seq<Action>, t: Id)
    requires Legal(c, run) && CancelsKeepSlots(c, run) && CapacityKept(c, run)
    ensures |OpenOn(After(c, run).st, t)| <= Capacity(After(c, run).st, t)
  {
    hide After, Inv, HeldInv, SlotsExact, KeepsSlots, LeavesSlots, FindsOpening, LeavesOpenings, OpenOn, Capacity;
    assert run[..|run|] == run;
    SlotsAreHolders(c, run);
    forall i | 0 <= i < |run|
      ensures FindsOpening(After(c, run[..i]), run[i]) && LeavesOpenings(After(c, run[..i]), run[i])
    {
      LegalPrefix(c, run, i);
      RunInv(c, run[..i]);
      SlotsNeverExceedHolders(c, run[..i]);
      ExactFindsOpening(After(c, run[..i]), run[i]);
    }
    OpenWithinIff(c, run);
    assert OpenWithin(After(c, run));
  }
}
