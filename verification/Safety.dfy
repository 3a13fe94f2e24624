/**
 Safety over whole runs: the invariant of every reachable world, restarts included, and what follows from it.
 */
module Safety {
  import opened Types
  import opened Ordered
  import opened Engine
  import opened Runs
  import opened PlanLifecycle
  import opened Support
  import opened Results

  ghost predicate RecordsInv(s: State, used: Ids) {
    && PlansWf(s.plans) && s.plans.Keys <= used.plans
    && ResultsOk(s) && s.results.Keys <= used.results
  }

  /** The saved state is never ahead of the live one. */
  ghost predicate Behind(d: State, s: State) {
    && d.plans.Keys <= s.plans.Keys && Extends(d.results, s.results)
    && (forall p | p in d.plans && d.plans[p].lifecycle == COMMITTED ::
         p in s.plans && s.plans[p].lifecycle == COMMITTED)
  }

  ghost predicate DiskInv(d: State, s: State, used: Ids) {
    RecordsInv(d, used) && OperationsKeyed(d) && d.runtime == map[] && Behind(d, s)
  }

  ghost predicate Inv(w: World) {
    RecordsInv(w.st, w.used) && Supported(w.st) && (w.disk.Some? ==> DiskInv(w.disk.value, w.st, w.used))
  }

  // ---- Each kind of step keeps the invariant ----

  lemma StepRecords(w: World, a: Action)
    requires Inv(w) && Enabled(w, a) && !a.Loaded?
    ensures RecordsInv(Apply(w, a).st, Apply(w, a).used)
  {
    hide PlansWf, ResultsOk, Moves, StateAfter, HeldAfter, Project, Recover, Supported, DiskInv;
    StepKnown(w, a);
    StepMoves(w, a);
    StepResults(w, a);
  }

  lemma StepResults(w: World, a: Action)
    requires Known(w) && ResultsOk(w.st) && w.st.results.Keys <= w.used.results && Enabled(w, a) && !a.Loaded?
    ensures ResultsOk(Apply(w, a).st) && Apply(w, a).st.results.Keys <= Apply(w, a).used.results
  {
    hide Apply, StateAfter, ResultsOk, Moves, PlansWf;
    UsedAfter(w, a);
    if a.Completed? {
      CompletedResults(w, a);
    } else {
      Stepped(w, a);
      StepMoves(w, a);
      ResultsCarried(w.st, Apply(w, a).st, a);
    }
  }

  lemma CompletedResults(w: World, a: Action)
    requires PlansWf(w.st.plans) && ResultsOk(w.st) && w.st.results.Keys <= w.used.results
    requires Enabled(w, a) && a.Completed?
    ensures ResultsOk(Apply(w, a).st) && Apply(w, a).st.results.Keys <= w.st.results.Keys + {a.id}
  {
    hide Apply, PlansWf, ResultsOk, ApplyResult;
    Applied(w, a);
    CompletionKeepsResults(w.st, a.result, a.id);
    CompletionAdds(w.st, a.result, a.id);
  }

  lemma CompletionAdds(s: State, m: ResultMsg, id: Id)
    requires id !in s.results
    ensures Extends(s.results, ApplyResult(s, m, id).0.results)
    ensures ApplyResult(s, m, id).0.results.Keys <= s.results.Keys + {id}
  {
    hide CompletionGuard, ResultFor, VerdictOf, Released, LifecycleAfter;
  }

  lemma ResultsAccumulate(w: World, a: Action)
    requires w.st.results.Keys <= w.used.results && Enabled(w, a) && !a.Loaded?
    ensures Extends(w.st.results, Apply(w, a).st.results)
  {
    hide Apply, StateAfter, ApplyResult;
    Stepped(w, a);
    Applied(w, a);
    if a.Completed? {
      CompletionAdds(w.st, a.result, a.id);
    }
  }

  lemma StepBehind(d: State, w: World, a: Action)
    requires Known(w) && w.st.results.Keys <= w.used.results && Behind(d, w.st) && Enabled(w, a) && !a.Loaded?
    ensures Behind(d, Apply(w, a).st)
  {
    hide Apply, PlansWf, PlanWf, Evolves, Enabled, PlansEnter;
    StepMoves(w, a);
    ResultsAccumulate(w, a);
    var s, t := w.st, Apply(w, a).st;
    forall p | p in d.plans && d.plans[p].lifecycle == COMMITTED
      ensures p in t.plans && t.plans[p].lifecycle == COMMITTED
    {
      EvolvesRank(s.plans[p], t.plans[p]);
    }
  }

  lemma EpochSupports(s: State)
    requires PlansWf(s.plans) && OperationsKeyed(s) && s.runtime.Keys <= s.targets.Keys
    ensures Supported(AdvanceEpoch(s))
  {
    EpochClosesAll(s);
    hide AdvanceEpoch, PlanSupported;
  }

  lemma StepSupported(w: World, a: Action)
    requires Inv(w) && Enabled(w, a) && !a.Loaded?
    ensures Supported(Apply(w, a).st)
  {
    KnownOf(w);
    SupportedOf(w);
    hide Inv, Known, Apply, LivePlansSupported, OperationsKeyed, AdvanceEpoch, PlansWf, Enabled;
    if a.EpochMoved? {
      AppliedSweep(w, a);
      KnownPlans(w);
      EpochSupports(w.st);
    } else {
      StepSupports(w, a);
      StepKeyed(w, a);
      StepDefined(w, a);
    }
  }

  lemma KnownPlans(w: World)
    requires Known(w)
    ensures PlansWf(w.st.plans)
  {
  }

  lemma SupportedParts(s: State)
    requires Supported(s)
    ensures OperationsKeyed(s) && s.runtime.Keys <= s.targets.Keys
  {
  }

  lemma SupportedOf(w: World)
    requires Inv(w)
    ensures Supported(w.st)
  {
  }

  lemma RuntimeDefined(w: World)
    requires Inv(w)
    ensures w.st.runtime.Keys <= w.st.targets.Keys
  {
  }

  lemma NewPlanIsNew(w: World, a: Action)
    requires Inv(w) && Enabled(w, a)
    ensures a.Planned? ==> a.id !in w.st.plans
  {
  }

  lemma DiskPlansWf(w: World)
    requires Inv(w) && w.disk.Some?
    ensures PlansWf(w.disk.value.plans)
  {
  }

  lemma KnownOf(w: World)
    requires Inv(w)
    ensures Known(w)
  {
  }

  /** A save keeps every plan and result: the rebuilt authority record is the one that was there. */
  lemma ProjectKeeps(s: State)
    requires PlansWf(s.plans)
    ensures Project(s).plans == s.plans && Project(s).results == s.results
    ensures OperationsKeyed(s) ==> OperationsKeyed(Project(s))
  {
    forall p | p in s.plans ensures DurablePlan(s.plans[p]) == s.plans[p] {
      assert PlanWf(p, s.plans[p]);
    }
  }

  lemma SaveKeeps(w: World)
    requires Inv(w)
    ensures DiskInv(Project(w.st), w.st, w.used)
  {
    ProjectKeeps(w.st);
    SupportedParts(w.st);
    SameRecords(w.st, Project(w.st), w.used);
  }

  lemma SameRecords(s: State, t: State, used: Ids)
    requires RecordsInv(s, used) && t.plans == s.plans && t.results == s.results
    ensures RecordsInv(t, used)
  {
    hide ResultOk, PlanWf;
  }

  lemma Recovered(d: State)
    requires PlansWf(d.plans) && OperationsKeyed(d) && d.runtime == map[]
    ensures Recover(d).plans == AdvanceEpoch(d).plans && Recover(d).results == d.results && Supported(Recover(d))
  {
    EpochClosesAll(d);
    hide AdvanceEpoch, PlanSupported, PlansWf;
  }

  lemma LoadKeeps(d: State, used: Ids)
    requires RecordsInv(d, used) && OperationsKeyed(d) && d.runtime == map[]
    ensures RecordsInv(Recover(d), used) && Supported(Recover(d)) && Behind(d, Recover(d))
  {
    hide Recover, PlanWf, Evolves, ResultsOk, AdvanceEpoch, Supported, PlansEnter, PlansCaused;
    EpochMoves(d, EpochMoved);
    Recovered(d);
    ResultsCarried(d, Recover(d), EpochMoved);
    forall p | p in d.plans && d.plans[p].lifecycle == COMMITTED ensures Recover(d).plans[p].lifecycle == COMMITTED {
      EvolvesRank(d.plans[p], Recover(d).plans[p]);
    }
    EpochKeys(d);
  }

  lemma EpochKeys(s: State)
    ensures AdvanceEpoch(s).plans.Keys == s.plans.Keys
  {
    hide Index, EpochClosed;
  }

  lemma StepInv(w: World, a: Action)
    requires Inv(w) && Enabled(w, a)
    ensures Inv(Apply(w, a))
  {
    hide RecordsInv, Supported, DiskInv, StateAfter, HeldAfter, Project, Recover;
    if a.Loaded? {
      LoadStep(w);
    } else {
      StepRecords(w, a);
      StepSupported(w, a);
      if a.Saved? {
        SaveKeeps(w);
        SavedWorld(w);
      } else if w.disk.Some? {
        DiskStep(w, a);
      }
    }
  }

  lemma SavedWorld(w: World)
    ensures Apply(w, Saved) == w.(disk := Some(Project(w.st)))
  {
  }

  lemma LoadStep(w: World)
    requires Inv(w)
    ensures Inv(World(Revived(w), w.disk, w.used, {}))
  {
    hide RecordsInv, Supported, Behind, OperationsKeyed, Recover, Initial;
    if w.disk.Some? {
      LoadKeeps(w.disk.value, w.used);
    } else {
      FreshInv(w.st.coordinatorId, w.used);
    }
  }

  lemma DiskStep(w: World, a: Action)
    requires Inv(w) && w.disk.Some? && Enabled(w, a) && !a.Loaded?
    ensures DiskInv(w.disk.value, Apply(w, a).st, Apply(w, a).used)
  {
    hide PlansWf, ResultsOk, Behind, OperationsKeyed, Apply, Supported;
    UsedAfter(w, a);
    StepBehind(w.disk.value, w, a);
  }

  // ---- Whole runs ----

  lemma {:induction false} RunInv(c: Id, run: seq<Action>)
    requires Legal(c, run)
    ensures Inv(After(c, run))
  {
    hide Inv, Apply, Enabled;
    if run == [] {
      InitialInv(c);
    } else {
      RunInv(c, run[..|run| - 1]);
      StepInv(After(c, run[..|run| - 1]), run[|run| - 1]);
    }
  }

  lemma InitialInv(c: Id)
    ensures Inv(World(Initial(c), None, NO_IDS, {}))
  {
    FreshInv(c, NO_IDS);
  }

  /** A new coordinator has nothing on record, whatever identities were handed out before. */
  lemma FreshInv(c: Id, used: Ids)
    ensures RecordsInv(Initial(c), used) && Supported(Initial(c))
  {
  }

  /**
   A plan has at most one result, and a committed one exactly when it is committed; a committed result is
   verified and unambiguous; every result reproduces what its plan pinned.
   */
  ghost predicate ResultsConsistent(s: State) {
    && (forall r, q | r in s.results && q in s.results && s.results[r].plan == s.results[q].plan :: r == q)
    && (forall p | p in s.plans :: s.plans[p].lifecycle == COMMITTED <==>
         exists r :: r in s.results && s.results[r].plan == p && s.results[r].committed)
    && (forall r | r in s.results && s.results[r].committed ::
         s.results[r].verification == VERIFIED && !s.results[r].ambiguous)
    && (forall r | r in s.results ::
         s.results[r].plan in s.plans && Reproduces(s.results[r], s.plans[s.results[r].plan]))
  }

  lemma ResultsMeaning(s: State)
    requires ResultsOk(s)
    ensures ResultsConsistent(s)
  {
    hide Reproduces;
    forall p | p in s.plans && s.plans[p].lifecycle == COMMITTED
      ensures exists r :: r in s.results && s.results[r].plan == p && s.results[r].committed
    {
      var r :| r in s.results && s.results[r].plan == p;
      assert ResultOk(s.results[r], s.plans[p]);
    }
  }

  lemma OneResultPerPlan(c: Id, run: seq<Action>)
    requires Legal(c, run)
    ensures ResultsConsistent(After(c, run).st)
  {
    hide After, ResultsOk, ResultsConsistent, Supported, DiskInv, PlansWf;
    RunInv(c, run);
    ResultsMeaning(After(c, run).st);
  }

  /** What a dispatch needs to be true of the live state. */
  predicate Current(s: State, plan: Plan) {
    var snap := plan.authority.snapshot;
    && s.epoch == snap.epoch
    && plan.target in s.runtime && s.runtime[plan.target].ownerBoot == snap.workerBoot
    && s.runtime[plan.target].dynamicCurrent
    && plan.target in s.targets && s.targets[plan.target].generation == snap.targetGeneration
    && plan.target in s.caps && s.caps[plan.target].generation == snap.capabilityGeneration
    && s.caps[plan.target].evidenceGeneration == snap.evidenceGeneration && s.caps[plan.target].dynamicCurrent
    && plan.region in s.evidence && s.evidence[plan.region].dynamicCurrent
    && s.evidence[plan.region].datasetGeneration == snap.datasetGeneration
    && plan.operation in s.operations
    && var op := s.operations[plan.operation];
    && op.generation == snap.operationGeneration
    && op.policy in s.policies && s.policies[op.policy].generation == snap.policyGeneration
    && (op.program.Some? ==> op.program.value in s.programs)
    && (op.program.Some? && snap.programGeneration.Some? ==>
          s.programs[op.program.value].generation == snap.programGeneration.value)
  }

  /** On a reachable state the staleness check with its optional lookups is `Current` plus two registrations. */
  lemma FreshIsCurrent(c: Id, run: seq<Action>, p: Id)
    requires Legal(c, run)
    requires p in After(c, run).st.plans && Live(After(c, run).st.plans[p].lifecycle)
    ensures var s := After(c, run).st;
            var plan := s.plans[p];
            var snap := plan.authority.snapshot;
            Fresh(s, plan) <==>
              && Current(s, plan)
              && (plan.dataset in s.datasets ==> s.datasets[plan.dataset].generation == snap.datasetGeneration)
              && (plan.region in s.regions ==> s.regions[plan.region].generation == snap.regionGeneration)
  {
    RunInv(c, run);
    var s := After(c, run).st;
    assert PlanSupported(s, s.plans[p]);
  }

  /** In every run, a dispatch is prepared only while all of the pinned authority is current. */
  lemma DispatchIsCurrent(c: Id, run: seq<Action>, p: Id, d: Id, a: Id, payload: bytes)
    requires Legal(c, run) && PrepareDispatch(After(c, run).st, p, d, a, payload).1.Ok?
    ensures p in After(c, run).st.plans && Current(After(c, run).st, After(c, run).st.plans[p])
  {
    FreshIsCurrent(c, run, p);
  }

  /**
   In every run, a commit happens in the epoch of its planning and carries what was pinned and bound; if it names
   the plan's target, that target still has the pinned generation and owner.
   */
  lemma CommitIsAuthorised(c: Id, run: seq<Action>, m: ResultMsg, id: Id)
    requires Legal(c, run)
    requires var r := ApplyResult(After(c, run).st, m, id); r.1.Ok? && r.1.value.committed
    ensures var s := After(c, run).st;
            var x := ApplyResult(s, m, id).1.value;
            && x.plan in s.plans && Reproduces(x, s.plans[x.plan])
            && s.plans[x.plan].lifecycle == DISPATCHED
            && x.epoch == s.epoch == s.plans[x.plan].authority.snapshot.epoch
            && ApplyResult(s, m, id).0.plans[x.plan].lifecycle == COMMITTED
            && x.target == m.target
            && (m.target == s.plans[x.plan].target ==>
                  && m.target in s.targets && s.targets[m.target].generation == x.targetGeneration
                  && m.target in s.runtime && s.runtime[m.target].ownerBoot == x.workerBoot)
  {
    hide After, VerdictOf, Released;
    RunInv(c, run);
    var s := After(c, run).st;
    Accepted(s, m, id);
    assert PlanSupported(s, s.plans[m.plan]);
  }

  // ---- What closes stays closed ----

  /** Planned at some time, and now absent or closed without having committed. */
  ghost predicate Dead(w: World, p: Id) {
    p in w.used.plans && (p in w.st.plans ==> !Live(w.st.plans[p].lifecycle) && w.st.plans[p].lifecycle != COMMITTED)
  }

  lemma StepDead(w: World, a: Action, p: Id)
    requires Inv(w) && Enabled(w, a) && Dead(w, p)
    ensures Dead(Apply(w, a), p)
  {
    hide StateAfter, HeldAfter, Project, Recover, RecordsInv, DiskInv, Supported, Evolves, PlansWf, PlansCaused;
    if a.Loaded? {
      LoadedDead(w, p);
    } else {
      KnownOf(w);
      StepMoves(w, a);
      var t := Apply(w, a).st;
      if p in t.plans && p in w.st.plans {
        EvolvesRank(w.st.plans[p], t.plans[p]);
      }
    }
  }

  lemma LoadedDead(w: World, p: Id)
    requires Inv(w) && p in w.used.plans
    requires p in w.st.plans ==> w.st.plans[p].lifecycle != COMMITTED
    ensures Dead(World(Revived(w), w.disk, w.used, {}), p)
  {
    hide Inv, Revived;
    if p in Revived(w).plans {
      RevivedPlans(w, p);
    }
  }

  /** A process starts with no live plan, and a committed one only if it was committed before. */
  lemma RevivedPlans(w: World, p: Id)
    requires Inv(w) && p in Revived(w).plans
    ensures p in w.st.plans && !Live(Revived(w).plans[p].lifecycle)
    ensures Revived(w).plans[p].lifecycle == COMMITTED ==> w.st.plans[p].lifecycle == COMMITTED
  {
    hide Index, ResultsOk, Supported, PlanWf;
    if w.disk.Some? {
      EpochClosesAll(w.disk.value);
    }
  }

  /** A completion for a dead plan is refused and changes nothing. */
  lemma DeadIgnoresResults(w: World, m: ResultMsg, id: Id)
    requires Inv(w) && Dead(w, m.plan)
    ensures ApplyResult(w.st, m, id).0 == w.st && ApplyResult(w.st, m, id).1.Err?
  {
    if m.plan in w.st.plans {
      assert PlanWf(m.plan, w.st.plans[m.plan]);
    }
  }

  lemma {:induction false} DeadStays(c: Id, run: seq<Action>, i: nat, p: Id)
    requires Legal(c, run) && i <= |run| && Dead(After(c, run[..i]), p)
    ensures Dead(After(c, run), p)
    decreases |run|
  {
    hide Dead, Apply, Enabled, Inv;
    if i == |run| {
      assert run[..i] == run;
    } else {
      var front := run[..|run| - 1];
      assert front[..i] == run[..i];
      DeadStays(c, front, i, p);
      RunInv(c, front);
      StepDead(After(c, front), run[|run| - 1], p);
    }
  }

  /** The actions that revoke the authority a plan was made under. */
  predicate Revokes(w: World, a: Action, plan: Plan) {
    match a
    case WorkerFenced(boot) => plan.authority.snapshot.workerBoot == boot
    case WorkerDropped(boot) => plan.authority.snapshot.workerBoot == boot
    case TargetRetired(t) => plan.target == t
    case EpochMoved => true
    case Loaded => true
    case _ => false
  }

  predicate ClosedIn(s: State, p: Id) {
    p in s.plans && !Live(s.plans[p].lifecycle) && s.plans[p].lifecycle != COMMITTED
  }

  lemma FenceCloses(s: State, boot: Id, p: Id)
    requires p in s.plans && s.plans[p].lifecycle != COMMITTED && s.plans[p].authority.snapshot.workerBoot == boot
    ensures ClosedIn(FenceWorker(s, boot), p)
  {
    hide Index, Revoked, Mapped;
  }

  lemma RetireCloses(s: State, t: Id, p: Id)
    requires Supported(s) && p in s.plans && s.plans[p].lifecycle != COMMITTED && s.plans[p].target == t
    ensures ClosedIn(RetireTarget(s, t).0, p)
  {
    hide Index, Supported, Mapped;
    if Live(s.plans[p].lifecycle) {
      SupportedTarget(s, p);
    }
  }

  lemma SupportedTarget(s: State, p: Id)
    requires Supported(s) && p in s.plans && Live(s.plans[p].lifecycle)
    ensures s.plans[p].target in s.runtime
  {
    assert PlanSupported(s, s.plans[p]);
  }

  lemma EpochCloses(s: State, p: Id)
    requires p in s.plans && s.plans[p].lifecycle != COMMITTED
    ensures ClosedIn(AdvanceEpoch(s), p)
  {
    hide Index, Revoked, Mapped;
  }

  lemma RevokedIsDead(w: World, a: Action, p: Id)
    requires Inv(w) && p in w.st.plans && w.st.plans[p].lifecycle != COMMITTED && Revokes(w, a, w.st.plans[p])
    ensures Dead(Apply(w, a), p)
  {
    hide Apply, FenceWorker, RetireTarget, AdvanceEpoch, Inv, Recover, Disconnect;
    KnownOf(w);
    UsedAfter(w, a);
    if a.Loaded? {
      LoadedWorld(w);
      LoadedDead(w, p);
    } else {
      AppliedSweep(w, a);
      match a
      case WorkerFenced(boot) => FenceCloses(w.st, boot, p);
      case WorkerDropped(boot) => FenceCloses(w.st, boot, p);
      case TargetRetired(t) => SupportedOf(w); RetireCloses(w.st, t, p);
      case EpochMoved => EpochCloses(w.st, p);
    }
  }

  /**
   Once the authority of an uncommitted plan is revoked by a fence, a disconnect, a retirement, an epoch change
   or a restart, the plan is never committed again, and no completion for it ever changes the state.
   */
  lemma RevocationIsFinal(c: Id, run: seq<Action>, i: nat, p: Id)
    requires Legal(c, run) && i < |run|
    requires var w := After(c, run[..i]);
             p in w.st.plans && w.st.plans[p].lifecycle != COMMITTED && Revokes(w, run[i], w.st.plans[p])
    ensures var s := After(c, run).st;
            && (p in s.plans ==> !Live(s.plans[p].lifecycle) && s.plans[p].lifecycle != COMMITTED)
            && forall m: ResultMsg, id | m.plan == p :: ApplyResult(s, m, id).0 == s
  {
    hide Apply, Enabled, Inv, Revokes, ApplyResult;
    LegalPrefix(c, run, i);
    RunInv(c, run[..i]);
    RevokedIsDead(After(c, run[..i]), run[i], p);
    DeadStays(c, run, i + 1, p);
    RunInv(c, run);
    forall m: ResultMsg, id | m.plan == p ensures ApplyResult(After(c, run).st, m, id).0 == After(c, run).st {
      DeadIgnoresResults(After(c, run), m, id);
    }
  }

  /** Between restarts or across them, a plan that is on record twice has not moved backwards. */
  lemma {:induction false} RankNeverFalls(c: Id, run: seq<Action>, i: nat, p: Id)
    requires Legal(c, run) && i <= |run| && p in After(c, run[..i]).st.plans && p in After(c, run).st.plans
    ensures Rank(After(c, run[..i]).st.plans[p].lifecycle) <= Rank(After(c, run).st.plans[p].lifecycle)
    decreases |run|
  {
    hide Apply, Enabled, Inv;
    if i == |run| {
      assert run[..i] == run;
    } else {
      var front, a := run[..|run| - 1], run[|run| - 1];
      assert front[..i] == run[..i];
      RunInv(c, front);
      StillUsed(c, front, i, p);
      StepRank(After(c, front), a, p);
      RankNeverFalls(c, front, i, p);
    }
  }

  /** With no restart in between, a committed plan stays committed. */
  lemma {:induction false} CommittedForGood(c: Id, run: seq<Action>, i: nat, p: Id)
    requires Legal(c, run) && i <= |run| && (forall j | i <= j < |run| :: !run[j].Loaded?)
    requires p in After(c, run[..i]).st.plans && After(c, run[..i]).st.plans[p].lifecycle == COMMITTED
    ensures p in After(c, run).st.plans && After(c, run).st.plans[p].lifecycle == COMMITTED
    decreases |run|
  {
    hide Apply, Enabled, Inv;
    if i == |run| {
      assert run[..i] == run;
    } else {
      var front, a := run[..|run| - 1], run[|run| - 1];
      assert front[..i] == run[..i];
      CommittedForGood(c, front, i, p);
      RunInv(c, front);
      KnownOf(After(c, front));
      StillThere(After(c, front), a, p);
      StepRank(After(c, front), a, p);
    }
  }

  lemma StillThere(w: World, a: Action, p: Id)
    requires Known(w) && Enabled(w, a) && !a.Loaded? && p in w.st.plans
    ensures p in w.used.plans && p in Apply(w, a).st.plans
  {
    hide Apply, PlansWf, Evolves, PlansEnter, PlansCaused, Enabled;
    StepMoves(w, a);
  }

  lemma {:induction false} StillUsed(c: Id, run: seq<Action>, i: nat, p: Id)
    requires Legal(c, run) && i <= |run| && p in After(c, run[..i]).st.plans
    ensures p in After(c, run).used.plans
    decreases |run|
  {
    hide Apply, Inv, Enabled;
    if i == |run| {
      assert run[..i] == run;
      RunInv(c, run);
      KnownOf(After(c, run));
    } else {
      assert run[..|run| - 1][..i] == run[..i];
      StillUsed(c, run[..|run| - 1], i, p);
      UsedAfter(After(c, run[..|run| - 1]), run[|run| - 1]);
    }
  }

  /** A plan on record after a step was on record before it, unless it is new. */
  lemma StepRank(w: World, a: Action, p: Id)
    requires Inv(w) && Enabled(w, a) && p in w.used.plans && p in Apply(w, a).st.plans
    ensures p in w.st.plans && Rank(w.st.plans[p].lifecycle) <= Rank(Apply(w, a).st.plans[p].lifecycle)
    ensures !a.Loaded? && w.st.plans[p].lifecycle == COMMITTED ==> Apply(w, a).st.plans[p].lifecycle == COMMITTED
  {
    hide StateAfter, HeldAfter, Project, Recover, RecordsInv, Behind, OperationsKeyed, Supported, Evolves, PlansCaused;
    if a.Loaded? {
      LoadedRank(w, p);
    } else {
      KnownOf(w);
      StepMoves(w, a);
      EvolvesRank(w.st.plans[p], Apply(w, a).st.plans[p]);
    }
  }

  lemma LoadedRank(w: World, p: Id)
    requires Inv(w) && p in Revived(w).plans
    ensures p in w.st.plans && Rank(Revived(w).plans[p].lifecycle) == 3
  {
    hide Inv, Revived;
    RevivedPlans(w, p);
  }
}
