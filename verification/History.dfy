/**
 What must have happened before a dispatch: in every run the evidence behind a successful dispatch was given
 after the last epoch change or restart, and after a restart the target was registered again first.
 */
module History {
  import opened Types
  import opened Ordered
  import opened Engine
  import opened Runs
  import opened Safety

  /** Good happened at step i of the run, and nothing bad since. */
  ghost predicate Last(c: Id, run: seq<Action>, i: nat, good: (World, Action) -> bool, bad: (World, Action) -> bool) {
    && i < |run| && good(After(c, run[..i]), run[i])
    && forall j | i < j < |run| :: !bad(After(c, run[..j]), run[j])
  }

  /** A save keeps nothing dynamic. */
  predicate DiskStatic(w: World) {
    w.disk.Some? ==> w.disk.value.runtime == map[] && w.disk.value.caps == map[] && w.disk.value.evidence == map[]
  }

  lemma {:induction false} RunStatic(c: Id, run: seq<Action>)
    ensures DiskStatic(After(c, run))
  {
    hide StateAfter, HeldAfter, Recover;
    if run != [] {
      RunStatic(c, run[..|run| - 1]);
    }
  }

  /** A flag that only good steps raise and bad steps never leave up was raised, and not endangered since. */
  lemma {:induction false} Since(c: Id, run: seq<Action>, flag: World -> bool,
                                 good: (World, Action) -> bool, bad: (World, Action) -> bool)
    returns (i: nat)
    requires forall w, a | DiskStatic(w) && flag(Apply(w, a)) :: good(w, a) || (flag(w) && !bad(w, a))
    requires !flag(After(c, [])) && flag(After(c, run))
    ensures Last(c, run, i, good, bad)
    decreases |run|
  {
    hide Apply, DiskStatic;
    var front, a := run[..|run| - 1], run[|run| - 1];
    assert After(c, run) == Apply(After(c, front), a);
    RunStatic(c, front);
    if good(After(c, front), a) {
      i := |front|;
    } else {
      i := Since(c, front, flag, good, bad);
      assert front[..i] == run[..i];
      forall j | i < j < |run| ensures !bad(After(c, run[..j]), run[j]) {
        if j < |front| {
          assert front[..j] == run[..j];
        }
      }
    }
  }

  /** The same over the steps of legal runs. */
  lemma {:induction false} SinceLegally(c: Id, run: seq<Action>, flag: World -> bool,
                                        good: (World, Action) -> bool, bad: (World, Action) -> bool)
    returns (i: nat)
    requires forall w, a | Inv(w) && DiskStatic(w) && Enabled(w, a) && flag(Apply(w, a)) ::
               good(w, a) || (flag(w) && !bad(w, a))
    requires Legal(c, run) && !flag(After(c, [])) && flag(After(c, run))
    ensures Last(c, run, i, good, bad)
    decreases |run|
  {
    hide Apply, Inv, Enabled, DiskStatic;
    var front, a := run[..|run| - 1], run[|run| - 1];
    assert After(c, run) == Apply(After(c, front), a);
    RunInv(c, front);
    RunStatic(c, front);
    if good(After(c, front), a) {
      i := |front|;
    } else {
      i := SinceLegally(c, front, flag, good, bad);
      assert front[..i] == run[..i];
      forall j | i < j < |run| ensures !bad(After(c, run[..j]), run[j]) {
        if j < |front| {
          assert front[..j] == run[..j];
        }
      }
    }
  }

  /** A flag that only bad steps can lower stays up. */
  lemma {:induction false} Lasts(c: Id, run: seq<Action>, i: nat, flag: World -> bool, bad: (World, Action) -> bool)
    requires forall w, a | flag(w) && !bad(w, a) :: flag(Apply(w, a))
    requires i <= |run| && flag(After(c, run[..i]))
    requires forall j | i <= j < |run| :: !bad(After(c, run[..j]), run[j])
    ensures flag(After(c, run))
    decreases |run|
  {
    hide Apply;
    if i == |run| {
      assert run[..i] == run;
    } else {
      var front := run[..|run| - 1];
      assert front[..i] == run[..i] && run[..|front|] == front;
      forall j | i <= j < |front| ensures !bad(After(c, front[..j]), front[j]) {
        assert front[..j] == run[..j];
      }
      Lasts(c, front, i, flag, bad);
    }
  }

  /** The same over the steps of legal runs. */
  lemma {:induction false} LastsLegally(c: Id, run: seq<Action>, i: nat, flag: World -> bool,
                                        bad: (World, Action) -> bool)
    requires forall w, a | Inv(w) && DiskStatic(w) && Enabled(w, a) && flag(w) && !bad(w, a) :: flag(Apply(w, a))
    requires Legal(c, run) && i <= |run| && flag(After(c, run[..i]))
    requires forall j | i <= j < |run| :: !bad(After(c, run[..j]), run[j])
    ensures flag(After(c, run))
    decreases |run|
  {
    hide Apply, Inv, DiskStatic, Enabled;
    if i == |run| {
      assert run[..i] == run;
    } else {
      var front := run[..|run| - 1];
      assert front[..i] == run[..i] && run[..|front|] == front;
      forall j | i <= j < |front| ensures !bad(After(c, front[..j]), front[j]) {
        assert front[..j] == run[..j];
      }
      LastsLegally(c, front, i, flag, bad);
      RunInv(c, front);
      RunStatic(c, front);
    }
  }

  /** There is one last step of a kind. */
  lemma LastIsOne(c: Id, run: seq<Action>, i: nat, k: nat, good: (World, Action) -> bool,
                  good': (World, Action) -> bool, bad: (World, Action) -> bool)
    requires Last(c, run, i, good, bad) && Last(c, run, k, good', bad)
    requires forall w, a | good(w, a) || good'(w, a) :: bad(w, a)
    ensures i == k
  {
    hide After;
  }

  // ---- The events ----

  predicate Reloads(w: World, a: Action) {
    a.Loaded?
  }

  predicate Cuts(w: World, a: Action) {
    a.EpochMoved? || Reloads(w, a)
  }

  predicate RegistersTarget(w: World, a: Action, t: Id) {
    a.Registered? && a.registration.target == t && RegisterTarget(w.st, a.registration).1.Ok?
  }

  predicate Beats(w: World, a: Action, t: Id) {
    a.Beat? && a.beat.target == t && Heartbeat(w.st, a.beat).1.Ok?
  }

  predicate PublishesFor(w: World, a: Action, t: Id) {
    a.Published? && a.capability.target == t && PublishCapability(w.st, a.capability).1.Ok?
  }

  predicate ObservesFor(w: World, a: Action, g: Id) {
    a.Observed? && a.evidence.region == g && PublishEvidence(w.st, a.evidence).1.Ok?
  }

  /** Whatever withdraws a target's dynamic evidence. */
  predicate Disowns(w: World, a: Action, t: Id) {
    || Cuts(w, a) || RegistersTarget(w, a, t) || (a.TargetRetired? && a.target == t)
    || ((a.WorkerFenced? || a.WorkerDropped?) && t in w.st.runtime && w.st.runtime[t].ownerBoot == a.boot)
  }

  // ---- The flags ----

  predicate Present(w: World, t: Id) {
    t in w.st.runtime
  }

  predicate RuntimeCurrent(w: World, t: Id) {
    t in w.st.runtime && w.st.runtime[t].dynamicCurrent
  }

  predicate CapsCurrent(w: World, t: Id) {
    t in w.st.caps && w.st.caps[t].dynamicCurrent
  }

  predicate EvidenceCurrent(w: World, g: Id) {
    g in w.st.evidence && w.st.evidence[g].dynamicCurrent
  }

  lemma FenceWithdraws(s: State, boot: Id)
    ensures var n := FenceWorker(s, boot);
            && (forall t | t in n.runtime && n.runtime[t].dynamicCurrent ::
                 t in s.runtime && s.runtime[t].dynamicCurrent && s.runtime[t].ownerBoot != boot)
            && (forall t | t in n.caps && n.caps[t].dynamicCurrent :: t in s.caps && s.caps[t].dynamicCurrent)
            && (forall g | g in n.evidence && n.evidence[g].dynamicCurrent ::
                 g in s.evidence && s.evidence[g].dynamicCurrent)
  {
    hide Index, FencedPlan, Mapped;
  }

  lemma RetiredRuntime(s: State, t: Id)
    ensures RetireTarget(s, t).0.runtime ==
            if t in s.runtime
            then s.runtime[t := s.runtime[t].(lifecycle := TL_RETIRED, reachable := false, dynamicCurrent := false)]
            else s.runtime
  {
    hide Index;
  }

  lemma RetireWithdraws(s: State, target: Id, t: Id)
    requires var n := RetireTarget(s, target).0; t in n.runtime && n.runtime[t].dynamicCurrent
    ensures t in s.runtime && s.runtime[t].dynamicCurrent && t != target
  {
    RetiredRuntime(s, target);
    hide RetireTarget;
  }

  lemma RegisteredRuntime(s: State, m: RegisterTargetMsg)
    ensures var r := RegisterTarget(s, m);
            r.0.runtime == if r.1.Ok? then s.runtime[m.target := NewRuntime(m.ownerBoot)] else s.runtime
  {
    hide TargetOf, NewRuntime;
  }

  lemma RegisterWithdraws(s: State, m: RegisterTargetMsg, t: Id)
    requires var n := RegisterTarget(s, m).0; t in n.runtime && n.runtime[t].dynamicCurrent
    ensures t in s.runtime && s.runtime[t].dynamicCurrent && !(m.target == t && RegisterTarget(s, m).1.Ok?)
  {
    RegisteredRuntime(s, m);
    hide RegisterTarget;
  }

  lemma DrainKeeps(s: State, target: Id, t: Id)
    requires var n := BeginDrain(s, target).0; t in n.runtime && n.runtime[t].dynamicCurrent
    ensures t in s.runtime && s.runtime[t].dynamicCurrent
  {
  }

  lemma BeatKeeps(s: State, m: HeartbeatMsg, t: Id)
    requires var n := Heartbeat(s, m).0; t in n.runtime && n.runtime[t].dynamicCurrent
    ensures (m.target == t && Heartbeat(s, m).1.Ok?) || (t in s.runtime && s.runtime[t].dynamicCurrent)
  {
  }

  lemma PublishKeeps(s: State, m: CapabilityMsg, t: Id)
    requires var n := PublishCapability(s, m).0; t in n.caps && n.caps[t].dynamicCurrent
    ensures (m.target == t && PublishCapability(s, m).1.Ok?) || (t in s.caps && s.caps[t].dynamicCurrent)
  {
    hide EntryMap;
  }

  lemma EpochWithdraws(s: State)
    ensures var n := AdvanceEpoch(s);
            && (forall t | t in n.runtime :: !n.runtime[t].dynamicCurrent)
            && (forall t | t in n.caps :: !n.caps[t].dynamicCurrent)
            && (forall g | g in n.evidence :: !n.evidence[g].dynamicCurrent)
  {
    hide Index, EpochClosed;
  }

  /** After a restart nothing dynamic is on record. */
  lemma ReloadForgets(w: World)
    requires DiskStatic(w)
    ensures var n := Apply(w, Loaded).st; n.runtime == map[] && n.caps == map[] && n.evidence == map[]
  {
    LoadedWorld(w);
    hide Apply, Index, EpochClosed;
  }

  lemma PresentStep(w: World, a: Action, t: Id)
    requires DiskStatic(w) && Present(Apply(w, a), t)
    ensures RegistersTarget(w, a, t) || (Present(w, t) && !Reloads(w, a))
  {
    hide Apply, StateAfter, RegisterTarget, Recover;
    if a.Loaded? {
      LoadedWorld(w);
      ReloadForgets(w);
    } else {
      Stepped(w, a);
      AppliedDefinition(w, a);
      if a.Registered? { RegisteredRuntime(w.st, a.registration); }
    }
  }

  lemma SweepStep(w: World, a: Action, t: Id)
    requires RuntimeCurrent(Apply(w, a), t) && Sweeps(a)
    ensures RuntimeCurrent(w, t) && !Disowns(w, a, t)
  {
    hide Apply, FenceWorker, Disconnect, RetireTarget, AdvanceEpoch;
    AppliedSweep(w, a);
    if a.WorkerFenced? || a.WorkerDropped? {
      FenceWithdraws(w.st, a.boot);
    } else if a.TargetRetired? {
      RetireWithdraws(w.st, a.target, t);
    } else {
      EpochWithdraws(w.st);
    }
  }

  lemma EditStep(w: World, a: Action, t: Id)
    requires RuntimeCurrent(Apply(w, a), t) && !Sweeps(a) && !a.Loaded?
    ensures Beats(w, a, t) || (RuntimeCurrent(w, t) && !Disowns(w, a, t))
  {
    hide Apply, StateAfter, RegisterTarget, BeginDrain, Heartbeat;
    Stepped(w, a);
    AppliedDefinition(w, a);
    AppliedRuntime(w, a);
    if a.Registered? {
      RegisterWithdraws(w.st, a.registration, t);
    } else if a.DrainAsked? {
      DrainKeeps(w.st, a.target, t);
    } else if a.Beat? {
      BeatKeeps(w.st, a.beat, t);
    }
  }

  lemma RuntimeStep(w: World, a: Action, t: Id)
    requires DiskStatic(w) && RuntimeCurrent(Apply(w, a), t)
    ensures Beats(w, a, t) || (RuntimeCurrent(w, t) && !Disowns(w, a, t))
  {
    hide Apply, Recover, Beats, RegistersTarget;
    if a.Loaded? {
      LoadedWorld(w);
      ReloadForgets(w);
      NotRegistered(w, t);
    } else if Sweeps(a) {
      SweepStep(w, a, t);
    } else {
      EditStep(w, a, t);
    }
  }

  lemma NotRegistered(w: World, t: Id)
    ensures !RegistersTarget(w, Loaded, t)
  {
  }

  lemma SweptFlags(w: World, a: Action)
    requires Sweeps(a)
    ensures forall t | CapsCurrent(Apply(w, a), t) :: CapsCurrent(w, t) && !a.EpochMoved?
    ensures forall g | EvidenceCurrent(Apply(w, a), g) :: EvidenceCurrent(w, g) && !a.EpochMoved?
  {
    hide Apply, FenceWorker, Disconnect, RetireTarget, AdvanceEpoch;
    AppliedSweep(w, a);
    if a.WorkerFenced? || a.WorkerDropped? {
      FenceWithdraws(w.st, a.boot);
    } else if a.EpochMoved? {
      EpochWithdraws(w.st);
    }
  }

  lemma CapsStep(w: World, a: Action, t: Id)
    requires DiskStatic(w) && CapsCurrent(Apply(w, a), t)
    ensures PublishesFor(w, a, t) || (CapsCurrent(w, t) && !Cuts(w, a))
  {
    hide Apply, StateAfter, Recover, PublishCapability;
    if a.Loaded? {
      LoadedWorld(w);
      ReloadForgets(w);
    } else if Sweeps(a) {
      SweptFlags(w, a);
    } else {
      Stepped(w, a);
      AppliedRuntime(w, a);
      if a.Published? { PublishKeeps(w.st, a.capability, t); }
    }
  }

  lemma EvidenceStep(w: World, a: Action, g: Id)
    requires DiskStatic(w) && EvidenceCurrent(Apply(w, a), g)
    ensures ObservesFor(w, a, g) || (EvidenceCurrent(w, g) && !Cuts(w, a))
  {
    hide Apply, StateAfter, Recover;
    if a.Loaded? {
      LoadedWorld(w);
      ReloadForgets(w);
    } else if Sweeps(a) {
      SweptFlags(w, a);
    } else {
      Stepped(w, a);
      AppliedRuntime(w, a);
    }
  }

  // ---- Over runs ----

  /** A target on record was registered, with no restart since. */
  lemma RegisteredSince(c: Id, run: seq<Action>, t: Id) returns (i: nat)
    requires Present(After(c, run), t)
    ensures Last(c, run, i, (w, a) => RegistersTarget(w, a, t), Reloads)
  {
    hide Apply, DiskStatic;
    forall w, a | DiskStatic(w) && Present(Apply(w, a), t)
      ensures RegistersTarget(w, a, t) || (Present(w, t) && !Reloads(w, a))
    {
      PresentStep(w, a, t);
    }
    i := Since(c, run, w => Present(w, t), (w, a) => RegistersTarget(w, a, t), Reloads);
  }

  /** A current target has beaten, and nothing since has withdrawn it. */
  lemma BeatenSince(c: Id, run: seq<Action>, t: Id) returns (i: nat)
    requires RuntimeCurrent(After(c, run), t)
    ensures Last(c, run, i, (w, a) => Beats(w, a, t), (w, a) => Disowns(w, a, t))
  {
    hide Apply, DiskStatic, Disowns;
    forall w, a | DiskStatic(w) && RuntimeCurrent(Apply(w, a), t)
      ensures Beats(w, a, t) || (RuntimeCurrent(w, t) && !Disowns(w, a, t))
    {
      RuntimeStep(w, a, t);
    }
    i := Since(c, run, w => RuntimeCurrent(w, t), (w, a) => Beats(w, a, t), (w, a) => Disowns(w, a, t));
  }

  lemma PublishedSince(c: Id, run: seq<Action>, t: Id) returns (i: nat)
    requires CapsCurrent(After(c, run), t)
    ensures Last(c, run, i, (w, a) => PublishesFor(w, a, t), Cuts)
  {
    hide Apply, DiskStatic;
    forall w, a | DiskStatic(w) && CapsCurrent(Apply(w, a), t)
      ensures PublishesFor(w, a, t) || (CapsCurrent(w, t) && !Cuts(w, a))
    {
      CapsStep(w, a, t);
    }
    i := Since(c, run, w => CapsCurrent(w, t), (w, a) => PublishesFor(w, a, t), Cuts);
  }

  lemma ObservedSince(c: Id, run: seq<Action>, g: Id) returns (i: nat)
    requires EvidenceCurrent(After(c, run), g)
    ensures Last(c, run, i, (w, a) => ObservesFor(w, a, g), Cuts)
  {
    hide Apply, DiskStatic;
    forall w, a | DiskStatic(w) && EvidenceCurrent(Apply(w, a), g)
      ensures ObservesFor(w, a, g) || (EvidenceCurrent(w, g) && !Cuts(w, a))
    {
      EvidenceStep(w, a, g);
    }
    i := Since(c, run, w => EvidenceCurrent(w, g), (w, a) => ObservesFor(w, a, g), Cuts);
  }

  /**
   Before a successful dispatch of a plan: a heartbeat for its target that nothing has withdrawn since, a
   registration of the target before that heartbeat with no restart after it, and a capability publication and
   data evidence, each after the last epoch change or restart.
   */
  lemma DispatchHasHistory(c: Id, run: seq<Action>, p: Id, d: Id, attempt: Id, payload: bytes)
    returns (registered: nat, beaten: nat, published: nat, observed: nat)
    requires Legal(c, run) && PrepareDispatch(After(c, run).st, p, d, attempt, payload).1.Ok?
    ensures p in After(c, run).st.plans
    ensures var plan := After(c, run).st.plans[p];
            && Last(c, run, beaten, (w, a) => Beats(w, a, plan.target), (w, a) => Disowns(w, a, plan.target))
            && registered < beaten
            && Last(c, run, registered, (w, a) => RegistersTarget(w, a, plan.target), Reloads)
            && Last(c, run, published, (w, a) => PublishesFor(w, a, plan.target), Cuts)
            && Last(c, run, observed, (w, a) => ObservesFor(w, a, plan.region), Cuts)
  {
    DispatchIsCurrent(c, run, p, d, attempt, payload);
    hide After, PrepareDispatch, Last;
    var plan := After(c, run).st.plans[p];
    beaten := BeatenSince(c, run, plan.target);
    published := PublishedSince(c, run, plan.target);
    observed := ObservedSince(c, run, plan.region);
    registered := RegisteredBeforeBeat(c, run, plan.target, beaten);
  }

  lemma RegisteredBeforeBeat(c: Id, run: seq<Action>, t: Id, beaten: nat) returns (i: nat)
    requires Last(c, run, beaten, (w, a) => Beats(w, a, t), (w, a) => Disowns(w, a, t))
    ensures i < beaten && Last(c, run, i, (w, a) => RegistersTarget(w, a, t), Reloads)
  {
    hide After;
    i := RegisteredSince(c, run[..beaten], t);
    assert run[..beaten][..i] == run[..i];
    forall j | i < j < |run| ensures !Reloads(After(c, run[..j]), run[j]) {
      if j < beaten {
        assert run[..beaten][..j] == run[..j];
      }
    }
  }
}
