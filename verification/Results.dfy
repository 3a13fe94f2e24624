/**
 Result records against plans: at most one result per plan, a committed one exactly for a committed plan,
 and every result carries the authority that was pinned and the dispatch that was bound.
 */
module Results {
  import opened Types
  import opened Engine
  import opened Runs
  import opened PlanLifecycle

  /** The pinned fields a result reproduces; the target id is not compared on arrival and is not claimed. */
  predicate Reproduces(x: ExecResult, plan: Plan) {
    var snap := plan.authority.snapshot;
    && x.plan == plan.id && x.planGeneration == plan.generation
    && plan.dispatchId == Some(x.dispatch) && plan.attemptId == Some(x.attempt)
    && x.targetGeneration == snap.targetGeneration && x.workerBoot == snap.workerBoot && x.epoch == snap.epoch
    && x.datasetGeneration == snap.datasetGeneration && x.regionGeneration == snap.regionGeneration
    && x.operationGeneration == snap.operationGeneration
  }

  predicate ResultOk(x: ExecResult, plan: Plan) {
    && Reproduces(x, plan)
    && !Live(plan.lifecycle)
    && (x.committed <==> plan.lifecycle == COMMITTED)
    && (x.committed <==> x.verification == VERIFIED)
    && (x.committed ==> !x.ambiguous)
  }

  ghost predicate ResultsBacked(s: State) {
    forall r | r in s.results :: s.results[r].plan in s.plans && ResultOk(s.results[r], s.plans[s.results[r].plan])
  }

  ghost predicate OnePerPlan(s: State) {
    forall r, q | r in s.results && q in s.results && s.results[r].plan == s.results[q].plan :: r == q
  }

  ghost predicate CommitsRecorded(s: State) {
    forall p | p in s.plans && s.plans[p].lifecycle == COMMITTED :: exists r :: r in s.results && s.results[r].plan == p
  }

  ghost predicate ResultsOk(s: State) {
    ResultsBacked(s) && OnePerPlan(s) && CommitsRecorded(s)
  }

  lemma EvolvedResultOk(x: ExecResult, o: Plan, n: Plan)
    requires ResultOk(x, o) && Evolves(o, n)
    ensures ResultOk(x, n)
  {
  }

  /** Results stay in order when plans evolve, none commits, and the results are the same. */
  lemma ResultsCarried(s: State, t: State, a: Action)
    requires ResultsOk(s) && Moves(s.plans, t.plans, a) && !a.Completed? && t.results == s.results
    ensures ResultsOk(t)
  {
    hide ResultOk, Evolves, PlanWf;
    forall r | r in t.results
      ensures t.results[r].plan in t.plans && ResultOk(t.results[r], t.plans[t.results[r].plan])
    {
      var p := s.results[r].plan;
      assert p in s.plans && Evolves(s.plans[p], t.plans[p]);
      EvolvedResultOk(s.results[r], s.plans[p], t.plans[p]);
    }
  }

  /** What an accepted completion leaves: its plan closed, its result on record, all else as it was. */
  lemma Accepted(s: State, m: ResultMsg, id: Id)
    requires PlansWf(s.plans) && CompletionGuard(s, m).Ok?
    ensures var t := ApplyResult(s, m, id).0;
            && m.plan in s.plans && s.plans[m.plan].lifecycle == DISPATCHED
            && t.plans == s.plans[m.plan := s.plans[m.plan].(lifecycle := LifecycleAfter(VerdictOf(m)))]
            && t.results == s.results[id := ResultFor(m, id, VerdictOf(m))]
            && ResultOk(ResultFor(m, id, VerdictOf(m)), t.plans[m.plan])
            && ResultFor(m, id, VerdictOf(m)).plan == m.plan
  {
    hide VerdictOf, Released;
    assert PlanWf(m.plan, s.plans[m.plan]);
  }

  lemma Unanswered(s: State, p: Id)
    requires ResultsBacked(s) && p in s.plans && Live(s.plans[p].lifecycle)
    ensures forall r | r in s.results :: s.results[r].plan != p
  {
  }

  /** Answering an unanswered plan once keeps the results in order. */
  lemma Answered(s: State, t: State, p: Id, id: Id)
    requires ResultsOk(s) && p in s.plans && Live(s.plans[p].lifecycle) && id !in s.results
    requires p in t.plans && id in t.results
    requires t.plans == s.plans[p := t.plans[p]] && t.results == s.results[id := t.results[id]]
    requires t.results[id].plan == p && ResultOk(t.results[id], t.plans[p])
    ensures ResultsOk(t)
  {
    Unanswered(s, p);
    hide ResultOk;
    forall q | q in t.plans && t.plans[q].lifecycle == COMMITTED
      ensures exists r :: r in t.results && t.results[r].plan == q
    {
      if q != p {
        var r :| r in s.results && s.results[r].plan == q;
        assert r in t.results && t.results[r].plan == q;
      }
    }
  }

  lemma CompletionKeepsResults(s: State, m: ResultMsg, id: Id)
    requires ResultsOk(s) && PlansWf(s.plans) && id !in s.results
    ensures ResultsOk(ApplyResult(s, m, id).0)
  {
    hide ResultsOk, ResultFor, ResultOk, VerdictOf, LifecycleAfter, PlansWf;
    if CompletionGuard(s, m).Ok? {
      Accepted(s, m, id);
      hide ApplyResult, CompletionGuard;
      Answered(s, ApplyResult(s, m, id).0, m.plan, id);
    }
  }
}
