/**
 Eligibility and cost in the words of the messages: in every run a target is eligible for an operation exactly when the
 last accepted messages about it say so, and what it would cost is what its last heartbeat says.
 */
module Judgement {
  import opened Types
  import opened Doubles
  import opened Names
  import opened Planning
  import opened Engine
  import opened Runs
  import opened Support
  import opened Safety
  import opened History
  import opened Fates
  import opened Selection
  import opened Provenance

  // ---- The last accepted message of each kind ----

  ghost predicate RegisteredAt(c: Id, run: seq<Action>, t: Id, i: nat) {
    Last(c, run, i, (w, a) => RegistersTarget(w, a, t), (w, a) => Reregisters(w, a, t))
  }

  ghost predicate BeatenAt(c: Id, run: seq<Action>, t: Id, i: nat) {
    Last(c, run, i, (w, a) => Beats(w, a, t), (w, a) => Rebeats(w, a, t))
  }

  ghost predicate PublishedAt(c: Id, run: seq<Action>, t: Id, i: nat) {
    Last(c, run, i, (w, a) => PublishesFor(w, a, t), (w, a) => Republishes(w, a, t))
  }

  ghost predicate ObservedAt(c: Id, run: seq<Action>, g: Id, i: nat) {
    Last(c, run, i, (w, a) => ObservesFor(w, a, g), (w, a) => Reobserves(w, a, g))
  }

  /** A drain of the target was accepted after step i. */
  ghost predicate DrainedSince(c: Id, run: seq<Action>, t: Id, i: nat) {
    exists j :: i < j < |run| && Drains(After(c, run[..j]), run[j], t)
  }

  predicate Drains(w: World, a: Action, t: Id) {
    a.DrainAsked? && a.target == t && BeginDrain(w.st, t).1.Ok?
  }

  // ---- What they ask of an operation ----

  predicate Suits(m: RegisterTargetMsg, op: Operation) {
    && op.opClass in m.ops && op.shape.dataType in m.dataTypes && op.shape.layout in m.layouts
    && (m.alignment == 0 || op.shape.alignment % m.alignment == 0)
    && op.workspaceBytes <= m.workspace && m.concurrency > 0
  }

  predicate Sound(m: HeartbeatMsg, drained: bool, policy: Policy) {
    && m.reachable && !Below(m.confidence, policy.requiredConfidence)
    && (drained || m.lifecycle !in {TL_OFFLINE, TL_FAILED, TL_RETIRED, TL_DEGRADED, TL_REVALIDATION_REQUIRED})
  }

  /** The message lists the class, and its last word on it is that it is known and needs no revalidation. */
  ghost predicate Lists(m: CapabilityMsg, opClass: Code) {
    exists k: nat :: LastEntry(m.entries, k, Text("operation:") + NameOf(OPERATION_CLASS, opClass)) &&
                     m.entries[k].state !in {CS_UNKNOWN, CS_REVALIDATION_REQUIRED}
  }

  predicate Holds(m: EvidenceMsg, op: Operation) {
    m.present && m.current && m.reachable && m.datasetGeneration == op.datasetGeneration
  }

  predicate ProgramServes(s: State, op: Operation) {
    op.program.Some? ==>
      && op.program.value in s.programs
      && var g := s.programs[op.program.value];
      && g.id == op.program.value && g.lifecycle == PROGRAM_READY && g.opClass == op.opClass
      && op.shape.dataType in g.dataTypes
  }

  // ---- Presence ----

  lemma PresentStays(w: World, a: Action, t: Id)
    requires t in w.st.runtime && !a.Loaded?
    ensures t in Apply(w, a).st.runtime
  {
    hide Apply, StateAfter, RegisterTarget;
    Stepped(w, a);
    AppliedDefinition(w, a);
  }

  lemma RegisteredNow(w: World, a: Action, t: Id)
    requires RegistersTarget(w, a, t)
    ensures t in Apply(w, a).st.runtime
  {
    hide Apply;
    AppliedDefinition(w, a);
  }

  /** What the last registration said is what is on record. */
  lemma RegistrationStands(c: Id, run: seq<Action>, t: Id, i: nat)
    requires Legal(c, run) && RegisteredAt(c, run, t, i)
    ensures var s := After(c, run).st;
            t in s.runtime && t in s.targets && Offers(run[i].registration, s.targets[t], s.runtime[t].ownerBoot)
  {
    hide After, Apply, Inv, Enabled, RegistersTarget, Offers;
    LegalPrefix(c, run, i);
    RegisteredNow(After(c, run[..i]), run[i], t);
    forall w, a | Present(w, t) && !Reregisters(w, a, t) ensures Present(Apply(w, a), t) {
      PresentStays(w, a, t);
    }
    Lasts(c, run, i + 1, w => Present(w, t), (w, a) => Reregisters(w, a, t));
    var k := LastRegistration(c, run, t);
    var s := After(c, run).st;
    LastIsOne(c, run, i, k, (w, a) => RegistersTarget(w, a, t),
              (w, a) => RegistersThat(w, a, t, s.targets[t], s.runtime[t].ownerBoot), (w, a) => Reregisters(w, a, t));
  }

  lemma CurrentStays(w: World, a: Action, t: Id)
    requires RuntimeCurrent(w, t) && !Rebeats(w, a, t)
    ensures RuntimeCurrent(Apply(w, a), t)
    ensures Apply(w, a).st.runtime[t].lifecycle ==
            if Drains(w, a, t) then TL_DRAINING else w.st.runtime[t].lifecycle
  {
    hide Apply, StateAfter, FenceWorker, Disconnect, RetireTarget, AdvanceEpoch, BeginDrain, Heartbeat, RegisterTarget;
    Stepped(w, a);
    AppliedSweep(w, a);
    AppliedRuntime(w, a);
    AppliedDefinition(w, a);
    if a.WorkerFenced? || a.WorkerDropped? {
      FenceEvidence(w.st, a.boot);
    } else if a.TargetRetired? {
      RetiredRuntime(w.st, a.target);
    } else if a.Registered? {
      RegisteredRuntime(w.st, a.registration);
    } else if a.DrainAsked? {
      DrainedRecord(w.st, a.target);
    } else if a.Beat? {
      BeatenRecord(w.st, a.beat);
    }
  }

  lemma BeatenNow(w: World, a: Action, t: Id)
    requires Beats(w, a, t)
    ensures RuntimeCurrent(Apply(w, a), t) && Apply(w, a).st.runtime[t].lifecycle == a.beat.lifecycle
  {
    hide Apply;
    AppliedRuntime(w, a);
  }

  /** A target stays current after its last heartbeat, and only a drain changes what it says of its state. */
  lemma {:induction false} BeatStands(c: Id, run: seq<Action>, t: Id, i: nat)
    requires BeatenAt(c, run, t, i)
    ensures RuntimeCurrent(After(c, run), t)
    ensures After(c, run).st.runtime[t].lifecycle ==
            if DrainedSince(c, run, t, i) then TL_DRAINING else run[i].beat.lifecycle
    decreases |run|
  {
    hide Apply, Beats, Rebeats, Drains;
    var front, a := run[..|run| - 1], run[|run| - 1];
    assert run[..|front|] == front;
    if i == |front| {
      BeatenNow(After(c, front), a, t);
    } else {
      forall j | i < j < |front| ensures !Rebeats(After(c, front[..j]), front[j], t) {
        assert front[..j] == run[..j];
      }
      assert front[..i] == run[..i];
      BeatStands(c, front, t, i);
      CurrentStays(After(c, front), a, t);
      DrainedOneMore(c, run, t, i);
    }
  }

  lemma DrainedOneMore(c: Id, run: seq<Action>, t: Id, i: nat)
    requires i < |run| - 1
    ensures var front := run[..|run| - 1];
            DrainedSince(c, run, t, i) <==>
              DrainedSince(c, front, t, i) || Drains(After(c, front), run[|run| - 1], t)
  {
    hide After, Drains;
    var front := run[..|run| - 1];
    forall j | i < j < |front| ensures front[..j] == run[..j] {
    }
    assert run[..|front|] == front;
    if j :| i < j < |front| && Drains(After(c, front[..j]), front[j], t) {
      assert Drains(After(c, run[..j]), run[j], t);
    }
    if j :| i < j < |run| && Drains(After(c, run[..j]), run[j], t) {
      if j < |front| {
        assert Drains(After(c, front[..j]), front[j], t);
      }
    }
  }

  lemma HeartbeatStands(c: Id, run: seq<Action>, t: Id, i: nat)
    requires BeatenAt(c, run, t, i)
    ensures RuntimeCurrent(After(c, run), t) && Reports(run[i].beat, After(c, run).st.runtime[t])
  {
    hide After, Beats, Disowns, Reports, DrainedSince;
    BeatStands(c, run, t, i);
    var k := LastHeartbeat(c, run, t);
    var rt := After(c, run).st.runtime[t];
    LastIsOne(c, run, i, k, (w, a) => Beats(w, a, t), (w, a) => BeatsThat(w, a, t, rt), (w, a) => Rebeats(w, a, t));
  }

  lemma CapsStay(w: World, a: Action, t: Id)
    requires CapsCurrent(w, t) && !Republishes(w, a, t)
    ensures CapsCurrent(Apply(w, a), t)
  {
    hide Apply, StateAfter, FenceWorker, Disconnect, RetireTarget, AdvanceEpoch, PublishCapability;
    Stepped(w, a);
    AppliedSweep(w, a);
    AppliedRuntime(w, a);
    if a.WorkerFenced? || a.WorkerDropped? {
      FenceEvidence(w.st, a.boot);
    } else if a.Published? {
      PublishedRecord(w.st, a.capability);
    }
  }

  lemma PublishedNow(w: World, a: Action, t: Id)
    requires PublishesFor(w, a, t)
    ensures CapsCurrent(Apply(w, a), t)
  {
    hide Apply, EntryMap;
    AppliedRuntime(w, a);
  }

  lemma PublicationStands(c: Id, run: seq<Action>, t: Id, i: nat)
    requires Legal(c, run) && PublishedAt(c, run, t, i)
    ensures CapsCurrent(After(c, run), t) && Says(run[i].capability, After(c, run).st.caps[t])
  {
    hide After, Apply, Enabled, PublishesFor, Says;
    LegalPrefix(c, run, i);
    PublishedNow(After(c, run[..i]), run[i], t);
    forall w, a | CapsCurrent(w, t) && !Republishes(w, a, t) ensures CapsCurrent(Apply(w, a), t) {
      CapsStay(w, a, t);
    }
    Lasts(c, run, i + 1, w => CapsCurrent(w, t), (w, a) => Republishes(w, a, t));
    var k := LastPublication(c, run, t);
    var cs := After(c, run).st.caps[t];
    LastIsOne(c, run, i, k, (w, a) => PublishesFor(w, a, t), (w, a) => PublishesThat(w, a, t, cs),
              (w, a) => Republishes(w, a, t));
  }

  lemma EvidenceStays(w: World, a: Action, g: Id)
    requires g in w.st.evidence && !a.Loaded?
    ensures g in Apply(w, a).st.evidence
  {
    hide Apply, StateAfter, FenceWorker, Disconnect, RetireTarget, AdvanceEpoch, PublishEvidence;
    Stepped(w, a);
    AppliedSweep(w, a);
    AppliedRuntime(w, a);
  }

  lemma ObservedNow(w: World, a: Action, g: Id)
    requires ObservesFor(w, a, g)
    ensures g in Apply(w, a).st.evidence
  {
    hide Apply;
    AppliedRuntime(w, a);
  }

  predicate Seen(w: World, g: Id) {
    g in w.st.evidence
  }

  lemma EvidenceStands(c: Id, run: seq<Action>, g: Id, i: nat)
    requires Legal(c, run) && ObservedAt(c, run, g, i)
    ensures g in After(c, run).st.evidence && Shows(run[i].evidence, After(c, run).st.evidence[g])
  {
    hide After, Apply, Enabled, ObservesFor, Shows;
    LegalPrefix(c, run, i);
    ObservedNow(After(c, run[..i]), run[i], g);
    forall w, a | Seen(w, g) && !Reobserves(w, a, g) ensures Seen(Apply(w, a), g) {
      EvidenceStays(w, a, g);
    }
    Lasts(c, run, i + 1, w => Seen(w, g), (w, a) => Reobserves(w, a, g));
    var k := LastEvidence(c, run, g);
    var ev := After(c, run).st.evidence[g];
    LastIsOne(c, run, i, k, (w, a) => ObservesFor(w, a, g), (w, a) => ObservesThat(w, a, g, ev),
              (w, a) => Reobserves(w, a, g));
  }

  // ---- Eligibility ----

  lemma ListedIsSupported(m: CapabilityMsg, cs: Capabilities, opClass: Code)
    requires Says(m, cs)
    ensures StateOf(cs, OperationKey(opClass)) !in {CS_UNKNOWN, CS_REVALIDATION_REQUIRED} <==> Lists(m, opClass)
  {
    hide EntryMap, NameOf;
    var key := Text("operation:") + NameOf(OPERATION_CLASS, opClass);
    var k := EntryAt(m.entries, key);
    if key in cs.entries && cs.entries[key] !in {CS_UNKNOWN, CS_REVALIDATION_REQUIRED} {
      assert LastEntry(m.entries, k, key);
    }
  }

  lemma EligibleMeans(s: State, op: Operation, policy: Policy, t: Id, r: RegisterTargetMsg, b: HeartbeatMsg,
                      drained: bool, m: CapabilityMsg, e: EvidenceMsg)
    requires t in s.targets && t in s.runtime && t in s.caps && op.region in s.evidence
    requires s.runtime[t].dynamicCurrent && s.caps[t].dynamicCurrent && s.runtime[t].concurrencyInUse == 0
    requires Offers(r, s.targets[t], s.runtime[t].ownerBoot) && Reports(b, s.runtime[t]) && Says(m, s.caps[t])
    requires Shows(e, s.evidence[op.region])
    requires s.runtime[t].lifecycle == if drained then TL_DRAINING else b.lifecycle
    ensures EligibleTarget(s, op, policy, t) <==>
            Suits(r, op) && Sound(b, drained, policy) && Lists(m, op.opClass) && Holds(e, op) && ProgramServes(s, op)
  {
    hide Says, Below, OperationKey, Lists, StateOf;
    ListedIsSupported(m, s.caps[t], op.opClass);
  }

  /**
   In every run, given the last accepted registration, heartbeat and capability message of a target and the last
   evidence for the region of an operation: the target is eligible if and only if these four messages say that it
   can do the work, is in a state to do it, supports the class and has the data, and the program is ready.
   */
  lemma EligibleByMessages(c: Id, run: seq<Action>, op: Operation, policy: Policy, t: Id,
                           r: nat, b: nat, p: nat, e: nat)
    requires Legal(c, run) && RegisteredAt(c, run, t, r) && BeatenAt(c, run, t, b) && PublishedAt(c, run, t, p)
    requires ObservedAt(c, run, op.region, e)
    ensures var s := After(c, run).st;
            EligibleTarget(s, op, policy, t) <==>
              && Suits(run[r].registration, op) && Sound(run[b].beat, DrainedSince(c, run, t, b), policy)
              && Lists(run[p].capability, op.opClass) && Holds(run[e].evidence, op) && ProgramServes(s, op)
  {
    hide After, Offers, Reports, Says, Shows, EligibleTarget, Suits, Sound, Lists, Holds, ProgramServes, DrainedSince,
      RegisterTarget, Heartbeat, PublishCapability, PublishEvidence, Reregisters, Rebeats, Republishes, Reobserves;
    RegistrationStands(c, run, t, r);
    BeatStands(c, run, t, b);
    HeartbeatStands(c, run, t, b);
    PublicationStands(c, run, t, p);
    EvidenceStands(c, run, op.region, e);
    AlwaysUnset(c, run);
    var s := After(c, run).st;
    EligibleMeans(s, op, policy, t, run[r].registration, run[b].beat, DrainedSince(c, run, t, b), run[p].capability,
                  run[e].evidence);
  }

  lemma EligibleIsCurrent(s: State, op: Operation, policy: Policy, t: Id)
    requires EligibleTarget(s, op, policy, t)
    ensures t in s.runtime && s.runtime[t].dynamicCurrent && t in s.caps && s.caps[t].dynamicCurrent
    ensures op.region in s.evidence && s.evidence[op.region].datasetGeneration == op.datasetGeneration
  {
  }

  lemma ARegistration(c: Id, run: seq<Action>, t: Id) returns (i: nat)
    requires Legal(c, run) && t in After(c, run).st.runtime
    ensures RegisteredAt(c, run, t, i)
  {
    hide After, RegistersTarget, Reregisters, Offers;
    i := LastRegistration(c, run, t);
  }

  lemma AHeartbeat(c: Id, run: seq<Action>, t: Id) returns (i: nat)
    requires RuntimeCurrent(After(c, run), t)
    ensures BeatenAt(c, run, t, i)
  {
    hide After, Beats, Rebeats, Reports;
    i := LastHeartbeat(c, run, t);
  }

  lemma APublication(c: Id, run: seq<Action>, t: Id) returns (i: nat)
    requires CapsCurrent(After(c, run), t)
    ensures PublishedAt(c, run, t, i)
  {
    hide After, PublishesFor, Republishes, Says;
    i := LastPublication(c, run, t);
  }

  lemma AnObservation(c: Id, run: seq<Action>, g: Id) returns (i: nat)
    requires g in After(c, run).st.evidence
    ensures ObservedAt(c, run, g, i)
  {
    hide After, ObservesFor, Reobserves, Shows;
    i := LastEvidence(c, run, g);
  }

  /** In every run an eligible target has been the subject of all four messages. */
  lemma EligibleHasMessages(c: Id, run: seq<Action>, op: Operation, policy: Policy, t: Id)
    returns (r: nat, b: nat, p: nat, e: nat)
    requires Legal(c, run) && EligibleTarget(After(c, run).st, op, policy, t)
    ensures RegisteredAt(c, run, t, r) && BeatenAt(c, run, t, b) && PublishedAt(c, run, t, p)
    ensures ObservedAt(c, run, op.region, e)
  {
    EligibleIsCurrent(After(c, run).st, op, policy, t);
    hide After, EligibleTarget, RegisteredAt, BeatenAt, PublishedAt, ObservedAt;
    r := ARegistration(c, run, t);
    b := AHeartbeat(c, run, t);
    p := APublication(c, run, t);
    e := AnObservation(c, run, op.region);
  }

  /** A class that the last capability message does not list, or leaves unknown, makes the target ineligible. */
  lemma UnlistedIsIneligible(c: Id, run: seq<Action>, op: Operation, policy: Policy, t: Id, p: nat)
    requires Legal(c, run) && PublishedAt(c, run, t, p) && !Lists(run[p].capability, op.opClass)
    ensures !EligibleTarget(After(c, run).st, op, policy, t)
  {
    hide After, Republishes, PublishesFor, EligibleTarget, Lists, Suits, Sound, Holds, ProgramServes, DrainedSince,
      RegisteredAt, BeatenAt, ObservedAt;
    if EligibleTarget(After(c, run).st, op, policy, t) {
      var r, b, k, e := EligibleHasMessages(c, run, op, policy, t);
      EligibleByMessages(c, run, op, policy, t, r, b, p, e);
    }
  }

  // ---- Cost and choice ----

  lemma CostOf(s: State, op: Operation, t: Id)
    requires t in s.runtime && s.runtime[t].performance.setupNs == 0
    ensures NearCost(s, op, t) ==
            Wrap(2 * s.runtime[t].performance.latencyNs + Wrap(op.outputBytes * 1_000_000_000 / DEFAULT_BANDWIDTH_BPS))
  {
    hide Wrap;
  }

  /** A target is ranked by what its last heartbeat says: twice its latency, the result's way back, and trust. */
  lemma CostByHeartbeat(c: Id, run: seq<Action>, op: Operation, t: Id, b: nat)
    requires BeatenAt(c, run, t, b)
    ensures t in After(c, run).st.runtime
    ensures NearCost(After(c, run).st, op, t) ==
            Wrap(2 * run[b].beat.latencyNs + Wrap(op.outputBytes * 1_000_000_000 / DEFAULT_BANDWIDTH_BPS))
    ensures After(c, run).st.runtime[t].performance.confidence == run[b].beat.confidence
  {
    hide After, BeatenAt, NearCost, Wrap;
    HeartbeatStands(c, run, t, b);
    AlwaysUnset(c, run);
    CostOf(After(c, run).st, op, t);
  }

  /**
   In every run, a plan is made only for a target whose last accepted messages make it eligible, and at the cost its
   last heartbeat gives it.
   */
  lemma PlannedByMessages(c: Id, run: seq<Action>, opId: Id, id: Id)
    returns (t: Id, r: nat, b: nat, p: nat, e: nat)
    requires Legal(c, run) && Creates(After(c, run).st, opId, id)
    ensures var s := After(c, run).st;
            && opId in s.operations && s.operations[opId].policy in s.policies && t in s.runtime
            && var op := s.operations[opId];
            && id in MakePlan(s, opId, id).0.plans && MakePlan(s, opId, id).0.plans[id].target == t
            && RegisteredAt(c, run, t, r) && Suits(run[r].registration, op)
            && BeatenAt(c, run, t, b)
            && Sound(run[b].beat, DrainedSince(c, run, t, b), s.policies[op.policy])
            && PublishedAt(c, run, t, p) && Lists(run[p].capability, op.opClass)
            && ObservedAt(c, run, op.region, e) && Holds(run[e].evidence, op)
            && NearCost(s, op, t) ==
               Wrap(2 * run[b].beat.latencyNs + Wrap(op.outputBytes * 1_000_000_000 / DEFAULT_BANDWIDTH_BPS))
  {
    hide After, EligibleTarget, Suits, Sound, Lists, Holds, ProgramServes, DrainedSince, MakePlan, SnapshotFor,
      RegisteredAt, BeatenAt, ObservedAt, PublishedAt, NearCost, Creates;
    var s := After(c, run).st;
    t := Created(s, opId, id);
    var op := s.operations[opId];
    r, b, p, e := EligibleHasMessages(c, run, op, s.policies[op.policy], t);
    EligibleByMessages(c, run, op, s.policies[op.policy], t, r, b, p, e);
    CostByHeartbeat(c, run, op, t, b);
  }

  /** The authority of a plan is that of the messages its target was judged by. */
  predicate Pins(snap: Snapshot, epoch: Gen, r: RegisterTargetMsg, m: CapabilityMsg, e: EvidenceMsg, op: Operation) {
    && snap.epoch == epoch && snap.target == r.target && snap.targetGeneration == r.generation
    && snap.workerBoot == r.ownerBoot
    && snap.capabilityGeneration == m.generation && snap.evidenceGeneration == m.evidenceGeneration
    && snap.memoryDomainGeneration == e.memoryDomainGeneration && snap.datasetGeneration == e.datasetGeneration
    && snap.datasetGeneration == op.datasetGeneration && snap.regionGeneration == op.regionGeneration
    && snap.operationGeneration == op.generation && snap.policyGeneration == op.policyGeneration
    && snap.programGeneration == op.programGeneration
  }

  lemma PinsRecords(s: State, op: Operation, t: Id, id: Id, r: RegisterTargetMsg, m: CapabilityMsg, e: EvidenceMsg)
    requires t in s.targets && t in s.runtime && t in s.caps && op.region in s.evidence && r.target == t
    requires Offers(r, s.targets[t], s.runtime[t].ownerBoot) && Says(m, s.caps[t])
    requires Shows(e, s.evidence[op.region]) && s.evidence[op.region].datasetGeneration == op.datasetGeneration
    ensures Pins(PlanFor(s, op, t, id).authority.snapshot, s.epoch, r, m, e, op)
  {
    hide EntryMap;
  }

  /**
   In every run, a new plan pins the generations and the incarnation that the last accepted registration, capability
   message and evidence for its target and region gave, and those that its operation names.
   */
  lemma PlanPinsMessages(c: Id, run: seq<Action>, opId: Id, id: Id, t: Id, r: nat, p: nat, e: nat)
    requires Legal(c, run) && Creates(After(c, run).st, opId, id) && opId in After(c, run).st.operations
    requires RegisteredAt(c, run, t, r) && PublishedAt(c, run, t, p)
    requires ObservedAt(c, run, After(c, run).st.operations[opId].region, e)
    requires var n := MakePlan(After(c, run).st, opId, id).0; id in n.plans && n.plans[id].target == t
    ensures var s := After(c, run).st;
            Pins(MakePlan(s, opId, id).0.plans[id].authority.snapshot, s.epoch, run[r].registration,
                 run[p].capability, run[e].evidence, s.operations[opId])
  {
    hide After, EligibleTarget, MakePlan, SnapshotFor, Creates, Offers, Says, Shows, Pins, RegisterTarget,
      PublishCapability, PublishEvidence, Reregisters, Republishes, Reobserves;
    var s := After(c, run).st;
    var u := Created(s, opId, id);
    var op := s.operations[opId];
    EligibleIsCurrent(s, op, s.policies[op.policy], u);
    RegistrationStands(c, run, t, r);
    PublicationStands(c, run, t, p);
    EvidenceStands(c, run, op.region, e);
    PinsRecords(s, op, t, id, run[r].registration, run[p].capability, run[e].evidence);
  }
}
