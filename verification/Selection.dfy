/**
 The planner against its declarative meaning: looking only at the front of the ranking finds a target exactly
 when some eligible target is worth using, and it is the best one.
 */
module Selection {
  import opened Types
  import opened Doubles
  import opened Ordered
  import opened Planning
  import opened Engine

  /** The cost of computing next to the data on a target. */
  function NearCost(s: State, op: Operation, t: Id): u64
    requires t in s.runtime
  {
    NearTotal(TransferOf(op), NearOf(op, s.runtime[t].performance))
  }

  /** The cost of moving the data. */
  function MovingCost(op: Operation): u64 {
    ConventionalTotal(TransferOf(op), ConventionalOf(op))
  }

  /** The best of the eligible targets: lowest cost, then highest confidence, then lowest identity. */
  predicate Better(s: State, op: Operation, t: Id, u: Id)
    requires t in s.runtime && u in s.runtime
  {
    if NearCost(s, op, t) != NearCost(s, op, u) then NearCost(s, op, t) < NearCost(s, op, u)
    else if !Same(s.runtime[t].performance.confidence, s.runtime[u].performance.confidence)
    then Below(s.runtime[u].performance.confidence, s.runtime[t].performance.confidence)
    else t < u
  }

  /** Their cost or their confidences can tell them apart. */
  predicate Telling(s: State, op: Operation, t: Id, u: Id)
    requires t in s.runtime && u in s.runtime
  {
    NearCost(s, op, t) == NearCost(s, op, u) ==>
      !NaN(s.runtime[t].performance.confidence) && !NaN(s.runtime[u].performance.confidence)
  }

  ghost predicate WorthUsing(s: State, op: Operation, policy: Policy, t: Id) {
    EligibleTarget(s, op, policy, t) && NearCost(s, op, t) <= MovingCost(op)
  }

  // ---- The five keys are three on planner candidates ----

  lemma SumsAgree(a: nat, b: nat, k: nat)
    requires Wrap(a + k) == Wrap(b + k)
    ensures Wrap(a) == Wrap(b)
  {
    var m := TWO_64;
    var qa, qb := (a + k) / m, (b + k) / m;
    assert a + k == qa * m + Wrap(a + k) && b + k == qb * m + Wrap(b + k);
    var d := qa - qb;
    assert a == b + d * m;
    ShiftedWrap(b, d);
  }

  lemma ShiftedWrap(b: nat, d: int)
    requires b + d * TWO_64 >= 0
    ensures Wrap(b + d * TWO_64) == Wrap(b)
  {
  }

  lemma CandidateKeys(s: State, op: Operation, t: Id)
    requires t in s.targets && t in s.runtime
    ensures var c, perf := CandidateFor(s, op, t), s.runtime[t].performance;
            && c.target == t && c.movementAvoided == op.inputBytes && c.confidence == perf.confidence
            && c.totalCost == NearCost(s, op, t)
            && (c.decision == NEAR_MEMORY_SELECTED <==> NearCost(s, op, t) <= MovingCost(op))
            && c.estimatedLatency == Wrap(perf.latencyNs + perf.setupNs + perf.latencyNs)
            && c.totalCost == Wrap(perf.latencyNs + perf.setupNs + perf.latencyNs
                                   + TransferNs(op.outputBytes, DEFAULT_BANDWIDTH_BPS))
  {
    hide TransferNs, ConventionalTotal, Wrap;
  }

  /** Movement is the same for every candidate and latency follows cost, so the order is cost, confidence, identity. */
  lemma FiveKeysAreThree(s: State, op: Operation, t: Id, u: Id)
    requires t in s.targets && t in s.runtime && u in s.targets && u in s.runtime
    ensures Before(CandidateFor(s, op, t), CandidateFor(s, op, u)) <==> Better(s, op, t, u)
    ensures Cheaper(CandidateFor(s, op, t), CandidateFor(s, op, u)) <==> Better(s, op, t, u)
    ensures Clear(CandidateFor(s, op, t), CandidateFor(s, op, u)) <==> Telling(s, op, t, u)
  {
    hide CandidateFor, NearCost, MovingCost, TransferNs, Wrap, Same, Below, NaN;
    CandidateKeys(s, op, t);
    CandidateKeys(s, op, u);
    var p, q := s.runtime[t].performance, s.runtime[u].performance;
    if NearCost(s, op, t) == NearCost(s, op, u) {
      SumsAgree(p.latencyNs + p.setupNs + p.latencyNs, q.latencyNs + q.setupNs + q.latencyNs,
                TransferNs(op.outputBytes, DEFAULT_BANDWIDTH_BPS));
    }
  }

  // ---- The candidates are the eligible targets, once each ----

  lemma {:induction false} CandidatesComplete(s: State, op: Operation, policy: Policy, keys: seq<Id>, t: Id)
    requires t in keys && EligibleTarget(s, op, policy, t)
    ensures CandidateFor(s, op, t) in Candidates(s, op, policy, keys)
  {
    hide EligibleTarget, CandidateFor;
    var last, front := keys[|keys| - 1], keys[..|keys| - 1];
    if t != last {
      assert keys == front + [last];
      CandidatesComplete(s, op, policy, front, t);
    }
  }

  lemma {:induction false} CandidatesDistinct(s: State, op: Operation, policy: Policy, keys: seq<Id>)
    requires Increasing(keys)
    ensures DistinctTargets(Candidates(s, op, policy, keys))
    ensures forall c | c in Candidates(s, op, policy, keys) :: c.target in keys
  {
    hide EligibleTarget;
    if keys != [] {
      var last, front := keys[|keys| - 1], keys[..|keys| - 1];
      CandidatesDistinct(s, op, policy, front);
      assert last !in front;
    }
  }

  /**
   If any target is eligible, the front of the ranking is an eligible one that no other costs less than or beats,
   and that beats every other it can be told apart from.
   */
  lemma FrontIsBest(s: State, op: Operation, policy: Policy, u: Id) returns (t: Id)
    requires EligibleTarget(s, op, policy, u)
    ensures RankedFor(s, op, policy) != [] && t == RankedFor(s, op, policy)[0].target
    ensures EligibleTarget(s, op, policy, t) && RankedFor(s, op, policy)[0] == CandidateFor(s, op, t)
    ensures NearCost(s, op, t) <= NearCost(s, op, u)
    ensures u == t || (!Better(s, op, u, t) && (Telling(s, op, t, u) ==> Better(s, op, t, u)))
  {
    hide Eligible, CandidateFor, Before, Clear, Cheaper, FilterInputFor, NearCost, Telling, Below, Same;
    var keys := Ascending(s.targets.Keys);
    var cands := Candidates(s, op, policy, keys);
    CandidatesComplete(s, op, policy, keys, u);
    CandidatesDistinct(s, op, policy, keys);
    FrontIsLeast(cands, CandidateFor(s, op, u));
    BestIsEligible(s, op, policy);
    t := RankedFor(s, op, policy)[0].target;
    CandidateKeys(s, op, t);
    CandidateKeys(s, op, u);
    FiveKeysAreThree(s, op, t, u);
    FiveKeysAreThree(s, op, u, t);
  }

  lemma BestIsWorthMost(s: State, op: Operation, policy: Policy, u: Id) returns (t: Id)
    requires EligibleTarget(s, op, policy, u)
    ensures RankedFor(s, op, policy) != [] && t == RankedFor(s, op, policy)[0].target
    ensures EligibleTarget(s, op, policy, t) && NearCost(s, op, t) <= NearCost(s, op, u)
    ensures u == t || (!Better(s, op, u, t) && (Telling(s, op, t, u) ==> Better(s, op, t, u)))
    ensures RankedFor(s, op, policy)[0].decision == NEAR_MEMORY_SELECTED <==> WorthUsing(s, op, policy, t)
    ensures WorthUsing(s, op, policy, u) ==> WorthUsing(s, op, policy, t)
  {
    hide Eligible, CandidateFor, FilterInputFor, RankedFor, NearCost, MovingCost, Better, Telling;
    t := FrontIsBest(s, op, policy, u);
    CandidateKeys(s, op, t);
  }

  /** When planning can proceed at all. */
  predicate Plannable(s: State, opId: Id) {
    && opId in s.operations && s.operations[opId].policy in s.policies
    && s.operations[opId].id !in s.active
  }

  /** What planning does, read off the ranking. */
  lemma PlanningOutcome(s: State, opId: Id, id: Id)
    requires Plannable(s, opId)
    ensures var op := s.operations[opId];
            var policy := s.policies[op.policy];
            var ranked, r := RankedFor(s, op, policy), MakePlan(s, opId, id);
            && r.1.Ok?
            && (r.1.value.created.Some? <==> ranked != [] && ranked[0].decision == NEAR_MEMORY_SELECTED)
            && (r.1.value.created.Some? ==> r.1.value.created.value.target == ranked[0].target)
            && r.1.value.decision ==
                 (if ranked == [] then if policy.outcome == NEAR_MEMORY_REQUIRED then REJECT else MOVEMENT_REQUIRED
                  else ranked[0].decision)
  {
    hide RankedFor, CandidateFor, EligibleTarget, SnapshotFor;
    var op := s.operations[opId];
    var policy := s.policies[op.policy];
    if RankedFor(s, op, policy) != [] {
      BestIsEligible(s, op, policy);
    }
  }

  /** With no eligible target the ranking is empty. */
  lemma NothingEligible(s: State, op: Operation, policy: Policy)
    requires !exists t :: EligibleTarget(s, op, policy, t)
    ensures RankedFor(s, op, policy) == []
  {
    hide RankedFor, EligibleTarget, CandidateFor;
    if RankedFor(s, op, policy) != [] {
      BestIsEligible(s, op, policy);
    }
  }

  /** A plan is made exactly when some eligible target costs no more than moving the data. */
  lemma PlansIffWorthUsing(s: State, opId: Id, id: Id)
    requires Plannable(s, opId)
    ensures var op := s.operations[opId];
            Creates(s, opId, id) <==> exists t :: WorthUsing(s, op, s.policies[op.policy], t)
  {
    hide RankedFor, EligibleTarget, MakePlan, NearCost, MovingCost, Better, Telling;
    var op := s.operations[opId];
    var policy := s.policies[op.policy];
    PlanningOutcome(s, opId, id);
    if u :| EligibleTarget(s, op, policy, u) {
      var t := BestIsWorthMost(s, op, policy, u);
      if v :| WorthUsing(s, op, policy, v) {
        var t' := BestIsWorthMost(s, op, policy, v);
      }
    } else {
      NothingEligible(s, op, policy);
    }
  }

  /**
   The plan's target is worth using; no eligible target costs less or is better, and it is better than every one it
   can be told apart from.
   */
  lemma PlansTheBest(s: State, opId: Id, id: Id, u: Id)
    requires Creates(s, opId, id)
    ensures Plannable(s, opId)
    ensures var op := s.operations[opId];
            var policy := s.policies[op.policy];
            var t := MakePlan(s, opId, id).1.value.created.value.target;
            && WorthUsing(s, op, policy, t)
            && (EligibleTarget(s, op, policy, u) && u != t ==>
                  && NearCost(s, op, t) <= NearCost(s, op, u) && !Better(s, op, u, t)
                  && (Telling(s, op, t, u) ==> Better(s, op, t, u)))
  {
    var best := Created(s, opId, id);
    hide RankedFor, EligibleTarget, MakePlan, NearCost, MovingCost, Better, Telling;
    var op := s.operations[opId];
    var policy := s.policies[op.policy];
    PlanningOutcome(s, opId, id);
    var t := BestIsWorthMost(s, op, policy, best);
    if EligibleTarget(s, op, policy, u) {
      t := BestIsWorthMost(s, op, policy, u);
    }
  }

  /** Why nothing was planned: no eligible target, or none worth using. */
  lemma RefusalIsExplained(s: State, opId: Id, id: Id)
    requires Plannable(s, opId) && !Creates(s, opId, id)
    ensures var op := s.operations[opId];
            var policy := s.policies[op.policy];
            MakePlan(s, opId, id) == (s, MakePlan(s, opId, id).1) &&
            MakePlan(s, opId, id).1.value.decision ==
              (if exists t :: EligibleTarget(s, op, policy, t) then CONVENTIONAL_CPU_SELECTED
               else if policy.outcome == NEAR_MEMORY_REQUIRED then REJECT else MOVEMENT_REQUIRED)
  {
    var best := Created(s, opId, id);
    hide RankedFor, EligibleTarget, MakePlan, NearCost, MovingCost, Better, Telling;
    var op := s.operations[opId];
    var policy := s.policies[op.policy];
    PlanningOutcome(s, opId, id);
    if u :| EligibleTarget(s, op, policy, u) {
      var t := FrontIsBest(s, op, policy, u);
    } else {
      NothingEligible(s, op, policy);
    }
  }

  /** While the sums stay below 2^64 the costs are the exact sums. */
  lemma CostsAreExact(s: State, op: Operation, t: Id)
    requires t in s.runtime
    requires var p := s.runtime[t].performance;
             p.setupNs + 2 * p.latencyNs + op.outputBytes * 1_000_000_000 / DEFAULT_BANDWIDTH_BPS < TWO_64
    requires op.inputBytes + DEFAULT_LATENCY_NS + op.inputBytes * 1_000_000_000 / DEFAULT_BANDWIDTH_BPS < TWO_64
    ensures var p := s.runtime[t].performance;
            NearCost(s, op, t) == p.setupNs + 2 * p.latencyNs + op.outputBytes * 1_000_000_000 / DEFAULT_BANDWIDTH_BPS
    ensures MovingCost(op) ==
            op.inputBytes + DEFAULT_LATENCY_NS + op.inputBytes * 1_000_000_000 / DEFAULT_BANDWIDTH_BPS
  {
  }
}
