/**
 Which target a completion may name. The guard looks the live generation and owner up under the target the message
 names, and never compares that target with the plan's.
 */
module Completions {
  import opened Types
  import opened Engine
  import opened Runs
  import opened PlanLifecycle
  import opened Support
  import opened Safety

  /** The plan is in flight, and the message repeats all that was pinned and bound; its target is not looked at. */
  predicate Repeats(s: State, m: ResultMsg) {
    && m.plan in s.plans && InFlight(s.plans[m.plan].lifecycle) && m.epoch == s.epoch
    && var plan, snap := s.plans[m.plan], s.plans[m.plan].authority.snapshot;
    && m.plan == plan.authority.plan && m.planGen == plan.authority.planGeneration
    && m.targetGen == snap.targetGeneration && m.workerBoot == snap.workerBoot && m.epoch == snap.epoch
    && m.datasetGen == snap.datasetGeneration && m.regionGen == snap.regionGeneration
    && m.operationGen == snap.operationGeneration
    && plan.dispatchId == Some(m.dispatch) && plan.attemptId == Some(m.attempt)
  }

  /** Where target `u` is on record, it has the generation and the owner that were pinned. */
  predicate Vouches(s: State, u: Id, snap: Snapshot) {
    && (u in s.targets ==> s.targets[u].generation == snap.targetGeneration)
    && (u in s.runtime ==> s.runtime[u].ownerBoot == snap.workerBoot)
  }

  /** A completion is accepted if and only if it repeats the plan and the target it names, if known, vouches for it. */
  lemma AcceptedIff(s: State, m: ResultMsg, u: Id)
    ensures CompletionGuard(s, m.(target := u)).Ok? <==>
            Repeats(s, m) && Vouches(s, u, s.plans[m.plan].authority.snapshot)
  {
  }

  /** So under an unknown target it is accepted, whatever has become of the plan's own. */
  lemma UnknownTargetIsAccepted(s: State, m: ResultMsg, u: Id)
    requires Repeats(s, m) && u !in s.targets && u !in s.runtime
    ensures CompletionGuard(s, m.(target := u)).Ok?
  {
    AcceptedIff(s, m, u);
  }

  /**
   In every run, a completion that repeats the plan and names its target is accepted if and only if that target,
   which is then on record, still has the pinned generation and the pinned owner.
   */
  lemma NamedTargetIff(c: Id, run: seq<Action>, m: ResultMsg)
    requires Legal(c, run) && Repeats(After(c, run).st, m) && m.target == After(c, run).st.plans[m.plan].target
    ensures var s := After(c, run).st;
            var snap := s.plans[m.plan].authority.snapshot;
            && m.target in s.targets && m.target in s.runtime
            && (CompletionGuard(s, m).Ok? <==>
                  s.targets[m.target].generation == snap.targetGeneration
                  && s.runtime[m.target].ownerBoot == snap.workerBoot)
  {
    hide After, CompletionGuard, Inv;
    var s := After(c, run).st;
    RunInv(c, run);
    SupportedOf(After(c, run));
    LiveTarget(After(c, run), m.plan);
    AcceptedIff(s, m, m.target);
    assert m.(target := m.target) == m;
  }

  lemma LiveTarget(w: World, p: Id)
    requires Inv(w) && p in w.st.plans && InFlight(w.st.plans[p].lifecycle)
    ensures w.st.plans[p].target in w.st.targets && w.st.plans[p].target in w.st.runtime
  {
    assert PlanWf(p, w.st.plans[p]);
    assert PlanSupported(w.st, w.st.plans[p]);
  }
}
