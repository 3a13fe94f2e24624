/**
 What a plan is made from: in every run the target of a new plan is judged by the last registration, heartbeat,
 capability message and data evidence that were accepted, and by what those messages say.
 */
module Provenance {
  import opened Types
  import opened Doubles
  import opened Names
  import opened Ordered
  import opened Planning
  import opened Engine
  import opened Runs
  import opened Support
  import opened Safety
  import opened History
  import opened Fates
  import opened Selection

  // ---- Capability entries ----

  /** The last entry of a message for a key. */
  predicate LastEntry(entries: seq<CapabilityEntry>, k: nat, key: bytes) {
    k < |entries| && entries[k].key == key && forall j | k < j < |entries| :: entries[j].key != key
  }

  lemma {:induction false} EntryAt(entries: seq<CapabilityEntry>, key: bytes) returns (k: nat)
    ensures key in EntryMap(entries) ==> LastEntry(entries, k, key) && EntryMap(entries)[key] == entries[k].state
    ensures key !in EntryMap(entries) ==> forall j | 0 <= j < |entries| :: entries[j].key != key
  {
    k := 0;
    if entries != [] {
      var front, last := entries[..|entries| - 1], entries[|entries| - 1];
      if last.key == key {
        k := |front|;
      } else {
        k := EntryAt(front, key);
      }
    }
  }

  // ---- What each message leaves on record ----

  predicate Says(m: CapabilityMsg, cs: Capabilities) {
    && cs.generation == m.generation && cs.evidenceGeneration == m.evidenceGeneration && cs.publisher == m.publisher
    && cs.entries == EntryMap(m.entries)
  }

  predicate Offers(m: RegisterTargetMsg, target: Target, boot: Id) {
    && target.id == m.target && target.generation == m.generation && boot == m.ownerBoot
    && target.provider == m.provider && target.kind == m.kind && target.name == m.name
    && target.synthetic == m.synthetic
    && target.supportedOps == m.ops && target.supportedDataTypes == m.dataTypes && target.supportedLayouts == m.layouts
    && target.alignmentConstraint == m.alignment && target.concurrencyCapacity == m.concurrency
    && target.workspaceBytes == m.workspace && target.maxInputBytes == m.maxInputBytes
  }

  /** A drain is the one change of lifecycle that keeps a heartbeat in force. */
  predicate Reports(m: HeartbeatMsg, rt: Runtime) {
    && rt.performance.latencyNs == m.latencyNs && rt.performance.throughputBps == m.throughputBps
    && rt.performance.confidence == m.confidence && rt.reachable == m.reachable && rt.queueDepth == m.queueDepth
    && (rt.lifecycle != TL_DRAINING ==> rt.lifecycle == m.lifecycle)
  }

  predicate Shows(m: EvidenceMsg, ev: Evidence) {
    && ev.present == m.present && ev.current == m.current && ev.reachable == m.reachable
    && ev.regionGeneration == m.regionGeneration && ev.datasetGeneration == m.datasetGeneration
    && ev.memoryDomain == m.memoryDomain && ev.memoryDomainGeneration == m.memoryDomainGeneration
    && ev.publisher == m.publisher
  }

  // ---- The records, as flags ----

  predicate CapsAre(w: World, t: Id, cs: Capabilities) {
    t in w.st.caps && w.st.caps[t] == cs && cs.dynamicCurrent
  }

  predicate TargetIs(w: World, t: Id, target: Target, boot: Id) {
    t in w.st.runtime && w.st.runtime[t].ownerBoot == boot && t in w.st.targets && w.st.targets[t] == target
  }

  predicate RuntimeIs(w: World, t: Id, rt: Runtime) {
    && RuntimeCurrent(w, t) && w.st.runtime[t].performance == rt.performance
    && w.st.runtime[t].reachable == rt.reachable && w.st.runtime[t].queueDepth == rt.queueDepth
    && (rt.lifecycle != TL_DRAINING ==> w.st.runtime[t].lifecycle == rt.lifecycle)
  }

  predicate EvidenceIs(w: World, g: Id, ev: Evidence) {
    g in w.st.evidence && w.st.evidence[g].(dynamicCurrent := true) == ev
  }

  // ---- The last message of each kind ----

  predicate PublishesThat(w: World, a: Action, t: Id, cs: Capabilities) {
    PublishesFor(w, a, t) && Says(a.capability, cs)
  }

  predicate RegistersThat(w: World, a: Action, t: Id, target: Target, boot: Id) {
    RegistersTarget(w, a, t) && Offers(a.registration, target, boot)
  }

  predicate BeatsThat(w: World, a: Action, t: Id, rt: Runtime) {
    Beats(w, a, t) && Reports(a.beat, rt)
  }

  predicate ObservesThat(w: World, a: Action, g: Id, ev: Evidence) {
    ObservesFor(w, a, g) && Shows(a.evidence, ev)
  }

  predicate Republishes(w: World, a: Action, t: Id) {
    || PublishesFor(w, a, t) || Cuts(w, a)
    || ((a.WorkerFenced? || a.WorkerDropped?) && t in w.st.caps && w.st.caps[t].publisher == a.boot)
  }

  predicate Reregisters(w: World, a: Action, t: Id) {
    RegistersTarget(w, a, t) || Reloads(w, a)
  }

  predicate Rebeats(w: World, a: Action, t: Id) {
    Beats(w, a, t) || Disowns(w, a, t)
  }

  predicate Reobserves(w: World, a: Action, g: Id) {
    ObservesFor(w, a, g) || Reloads(w, a)
  }

  // ---- Capabilities ----

  lemma PublishedRecord(s: State, m: CapabilityMsg)
    ensures var r := PublishCapability(s, m);
            && (r.1.Ok? ==> r.0.caps == s.caps[m.target := r.0.caps[m.target]] && Says(m, r.0.caps[m.target]))
            && (r.1.Err? ==> r.0 == s)
  {
    hide EntryMap;
  }

  lemma SweptCaps(w: World, a: Action, t: Id, cs: Capabilities)
    requires Sweeps(a) && CapsAre(Apply(w, a), t, cs)
    ensures CapsAre(w, t, cs) && !Republishes(w, a, t)
  {
    hide Apply, FenceWorker, Disconnect, RetireTarget, AdvanceEpoch, Unsettled;
    AppliedSweep(w, a);
    if a.WorkerFenced? || a.WorkerDropped? {
      FenceEvidence(w.st, a.boot);
    } else if a.EpochMoved? {
      EpochEvidence(w.st);
    }
  }

  lemma CapsAreStep(w: World, a: Action, t: Id, cs: Capabilities)
    requires DiskStatic(w) && CapsAre(Apply(w, a), t, cs)
    ensures PublishesThat(w, a, t, cs) || (CapsAre(w, t, cs) && !Republishes(w, a, t))
  {
    hide Apply, StateAfter, Recover, PublishCapability, Says;
    if a.Loaded? {
      ReloadForgets(w);
    } else if Sweeps(a) {
      SweptCaps(w, a, t, cs);
    } else {
      Stepped(w, a);
      AppliedRuntime(w, a);
      if a.Published? { PublishedRecord(w.st, a.capability); }
    }
  }

  /** In every run, current capabilities are those of the last accepted message, given in this epoch. */
  lemma LastPublication(c: Id, run: seq<Action>, t: Id) returns (i: nat)
    requires CapsCurrent(After(c, run), t)
    ensures var cs := After(c, run).st.caps[t];
            Last(c, run, i, (w, a) => PublishesThat(w, a, t, cs), (w, a) => Republishes(w, a, t))
  {
    var cs := After(c, run).st.caps[t];
    hide Apply, DiskStatic, After, PublishesThat, Republishes;
    forall w, a | DiskStatic(w) && CapsAre(Apply(w, a), t, cs)
      ensures PublishesThat(w, a, t, cs) || (CapsAre(w, t, cs) && !Republishes(w, a, t))
    {
      CapsAreStep(w, a, t, cs);
    }
    NothingAtFirst(c, t);
    i := Since(c, run, w => CapsAre(w, t, cs), (w, a) => PublishesThat(w, a, t, cs), (w, a) => Republishes(w, a, t));
  }

  lemma NothingAtFirst(c: Id, t: Id)
    ensures var s := After(c, []).st; t !in s.caps && t !in s.runtime && t !in s.evidence
  {
  }

  // ---- Registrations ----

  lemma RegisteredRecord(s: State, m: RegisterTargetMsg)
    ensures var r := RegisterTarget(s, m);
            && (r.1.Ok? ==>
                 && r.0.targets == s.targets[m.target := r.0.targets[m.target]]
                 && r.0.runtime == s.runtime[m.target := r.0.runtime[m.target]]
                 && Offers(m, r.0.targets[m.target], r.0.runtime[m.target].ownerBoot))
            && (r.1.Err? ==> r.0 == s)
  {
  }

  lemma ReserveDefines(s: State, p: Id)
    ensures forall t | t in s.targets :: t in Reserve(s, p).0.targets && Reserve(s, p).0.targets[t] == s.targets[t]
  {
    hide AdmissionCheck, DefaultTarget;
  }

  lemma SweptOwner(w: World, a: Action, t: Id)
    requires Sweeps(a) && t in w.st.runtime
    ensures t in Apply(w, a).st.runtime && Apply(w, a).st.runtime[t].ownerBoot == w.st.runtime[t].ownerBoot
  {
    hide Apply, FenceWorker, Disconnect, RetireTarget, AdvanceEpoch;
    AppliedSweep(w, a);
    if a.WorkerFenced? || a.WorkerDropped? {
      FenceEvidence(w.st, a.boot);
    } else if a.EpochMoved? {
      EpochEvidence(w.st);
    } else {
      RetiredRuntime(w.st, a.target);
    }
  }

  lemma EditedOwner(w: World, a: Action, t: Id)
    requires (a.Beat? || a.DrainAsked?) && t in w.st.runtime
    ensures t in Apply(w, a).st.runtime && Apply(w, a).st.runtime[t].ownerBoot == w.st.runtime[t].ownerBoot
  {
    hide Apply;
    AppliedRuntime(w, a);
  }

  lemma OwnerStays(w: World, a: Action, t: Id)
    requires !a.Loaded? && !a.Registered? && t in Apply(w, a).st.runtime
    ensures t in w.st.runtime && Apply(w, a).st.runtime[t].ownerBoot == w.st.runtime[t].ownerBoot
  {
    hide Apply, StateAfter;
    Stepped(w, a);
    if Sweeps(a) {
      SweptOwner(w, a, t);
    } else if a.Beat? || a.DrainAsked? {
      EditedOwner(w, a, t);
    }
  }

  lemma TargetStays(w: World, a: Action, t: Id)
    requires !a.Loaded? && !a.Registered? && w.st.runtime.Keys <= w.st.targets.Keys && t in w.st.runtime
    ensures t in w.st.targets && t in Apply(w, a).st.targets && Apply(w, a).st.targets[t] == w.st.targets[t]
  {
    hide Apply, StateAfter, Reserve;
    Stepped(w, a);
    if a.ReserveAsked? {
      Applied(w, a);
      ReserveDefines(w.st, a.plan);
    }
  }

  lemma TargetIsStep(w: World, a: Action, t: Id, target: Target, boot: Id)
    requires Inv(w) && DiskStatic(w) && TargetIs(Apply(w, a), t, target, boot)
    ensures RegistersThat(w, a, t, target, boot) || (TargetIs(w, t, target, boot) && !Reregisters(w, a, t))
  {
    RuntimeDefined(w);
    hide Inv, Apply, RegisterTarget, Offers;
    if a.Loaded? {
      ReloadForgets(w);
    } else if a.Registered? {
      AppliedDefinition(w, a);
      RegisteredRecord(w.st, a.registration);
    } else {
      OwnerStays(w, a, t);
      TargetStays(w, a, t);
    }
  }

  lemma LastRegistration(c: Id, run: seq<Action>, t: Id) returns (i: nat)
    requires Legal(c, run) && t in After(c, run).st.runtime
    ensures t in After(c, run).st.targets
    ensures var s := After(c, run).st;
            Last(c, run, i, (w, a) => RegistersThat(w, a, t, s.targets[t], s.runtime[t].ownerBoot),
                 (w, a) => Reregisters(w, a, t))
  {
    RunInv(c, run);
    RuntimeDefined(After(c, run));
    var target, boot := After(c, run).st.targets[t], After(c, run).st.runtime[t].ownerBoot;
    hide Apply, DiskStatic, After, RegistersThat, Reregisters, Inv, Enabled;
    forall w, a | Inv(w) && DiskStatic(w) && Enabled(w, a) && TargetIs(Apply(w, a), t, target, boot)
      ensures RegistersThat(w, a, t, target, boot) || (TargetIs(w, t, target, boot) && !Reregisters(w, a, t))
    {
      TargetIsStep(w, a, t, target, boot);
    }
    NothingAtFirst(c, t);
    i := SinceLegally(c, run, w => TargetIs(w, t, target, boot), (w, a) => RegistersThat(w, a, t, target, boot),
                      (w, a) => Reregisters(w, a, t));
  }

  // ---- Heartbeats ----

  lemma BeatenRecord(s: State, m: HeartbeatMsg)
    ensures var r := Heartbeat(s, m);
            && (r.1.Ok? ==>
                 && m.target in s.runtime && r.0.runtime == s.runtime[m.target := r.0.runtime[m.target]]
                 && r.0.runtime[m.target].lifecycle == m.lifecycle && Reports(m, r.0.runtime[m.target]))
            && (r.1.Err? ==> r.0 == s)
  {
  }

  lemma DrainedRecord(s: State, t: Id)
    ensures var r := BeginDrain(s, t);
            && (r.1.Ok? ==> t in s.runtime && r.0.runtime == s.runtime[t := s.runtime[t].(lifecycle := TL_DRAINING)])
            && (r.1.Err? ==> r.0 == s)
  {
  }

  lemma SweptRuntime(w: World, a: Action, t: Id, rt: Runtime)
    requires Sweeps(a) && RuntimeIs(Apply(w, a), t, rt)
    ensures RuntimeIs(w, t, rt)
  {
    SweepStep(w, a, t);
    hide Apply, FenceWorker, Disconnect, RetireTarget, AdvanceEpoch;
    AppliedSweep(w, a);
    if a.WorkerFenced? || a.WorkerDropped? {
      FenceEvidence(w.st, a.boot);
    } else if a.TargetRetired? {
      RetiredRuntime(w.st, a.target);
    } else {
      EpochEvidence(w.st);
    }
  }

  lemma EditedRuntime(w: World, a: Action, t: Id, rt: Runtime)
    requires !Sweeps(a) && !a.Loaded? && RuntimeIs(Apply(w, a), t, rt)
    ensures BeatsThat(w, a, t, rt) || (RuntimeIs(w, t, rt) && !Beats(w, a, t))
  {
    EditStep(w, a, t);
    hide Apply, StateAfter, RegisterTarget, BeginDrain, Heartbeat;
    Stepped(w, a);
    AppliedDefinition(w, a);
    AppliedRuntime(w, a);
    if a.Registered? {
      RegisteredRuntime(w.st, a.registration);
    } else if a.DrainAsked? {
      DrainedRecord(w.st, a.target);
    } else if a.Beat? {
      BeatenRecord(w.st, a.beat);
    }
  }

  lemma RuntimeIsStep(w: World, a: Action, t: Id, rt: Runtime)
    requires DiskStatic(w) && RuntimeIs(Apply(w, a), t, rt)
    ensures BeatsThat(w, a, t, rt) || (RuntimeIs(w, t, rt) && !Rebeats(w, a, t))
  {
    RuntimeStep(w, a, t);
    hide Apply, Disowns, BeatsThat, Recover, Heartbeat;
    if a.Loaded? {
      ReloadForgets(w);
    } else if Sweeps(a) {
      SweptRuntime(w, a, t, rt);
    } else {
      EditedRuntime(w, a, t, rt);
    }
  }

  lemma LastHeartbeat(c: Id, run: seq<Action>, t: Id) returns (i: nat)
    requires RuntimeCurrent(After(c, run), t)
    ensures var rt := After(c, run).st.runtime[t];
            Last(c, run, i, (w, a) => BeatsThat(w, a, t, rt), (w, a) => Rebeats(w, a, t))
  {
    var rt := After(c, run).st.runtime[t];
    hide Apply, DiskStatic, After, BeatsThat, Rebeats;
    forall w, a | DiskStatic(w) && RuntimeIs(Apply(w, a), t, rt)
      ensures BeatsThat(w, a, t, rt) || (RuntimeIs(w, t, rt) && !Rebeats(w, a, t))
    {
      RuntimeIsStep(w, a, t, rt);
    }
    NothingAtFirst(c, t);
    i := Since(c, run, w => RuntimeIs(w, t, rt), (w, a) => BeatsThat(w, a, t, rt), (w, a) => Rebeats(w, a, t));
  }

  // ---- Data evidence ----

  lemma ObservedRecord(s: State, m: EvidenceMsg)
    ensures var r := PublishEvidence(s, m);
            && (r.1.Ok? ==> r.0.evidence == s.evidence[m.region := r.0.evidence[m.region]] &&
                            Shows(m, r.0.evidence[m.region]))
            && (r.1.Err? ==> r.0 == s)
  {
  }

  lemma SweptEvidence(w: World, a: Action, g: Id, ev: Evidence)
    requires Sweeps(a) && EvidenceIs(Apply(w, a), g, ev)
    ensures EvidenceIs(w, g, ev)
  {
    hide Apply, FenceWorker, Disconnect, RetireTarget, AdvanceEpoch, Unsettled;
    AppliedSweep(w, a);
    if a.WorkerFenced? || a.WorkerDropped? {
      FenceEvidence(w.st, a.boot);
    } else if a.EpochMoved? {
      EpochEvidence(w.st);
    }
  }

  lemma ObservedIs(s: State, m: EvidenceMsg, g: Id, ev: Evidence)
    requires var n := PublishEvidence(s, m).0.evidence; g in n && n[g].(dynamicCurrent := true) == ev
    ensures if m.region == g && PublishEvidence(s, m).1.Ok? then Shows(m, ev)
            else g in s.evidence && s.evidence[g].(dynamicCurrent := true) == ev
  {
    ObservedRecord(s, m);
  }

  lemma EditedEvidence(w: World, a: Action, g: Id, ev: Evidence)
    requires !Sweeps(a) && !a.Loaded? && EvidenceIs(Apply(w, a), g, ev)
    ensures ObservesThat(w, a, g, ev) || (EvidenceIs(w, g, ev) && !ObservesFor(w, a, g))
  {
    hide Apply, StateAfter, PublishEvidence, Shows;
    Stepped(w, a);
    AppliedRuntime(w, a);
    if a.Observed? {
      ObservedIs(w.st, a.evidence, g, ev);
    }
  }

  lemma EvidenceIsStep(w: World, a: Action, g: Id, ev: Evidence)
    requires DiskStatic(w) && EvidenceIs(Apply(w, a), g, ev)
    ensures ObservesThat(w, a, g, ev) || (EvidenceIs(w, g, ev) && !Reobserves(w, a, g))
  {
    hide Apply, Recover, PublishEvidence, Shows;
    if a.Loaded? {
      ReloadForgets(w);
    } else if Sweeps(a) {
      SweptEvidence(w, a, g, ev);
    } else {
      EditedEvidence(w, a, g, ev);
    }
  }

  lemma LastEvidence(c: Id, run: seq<Action>, g: Id) returns (i: nat)
    requires g in After(c, run).st.evidence
    ensures var ev := After(c, run).st.evidence[g];
            Last(c, run, i, (w, a) => ObservesThat(w, a, g, ev), (w, a) => Reobserves(w, a, g))
  {
    var ev := After(c, run).st.evidence[g].(dynamicCurrent := true);
    hide Apply, DiskStatic, After, ObservesFor, Reobserves;
    forall w, a | DiskStatic(w) && EvidenceIs(Apply(w, a), g, ev)
      ensures ObservesThat(w, a, g, ev) || (EvidenceIs(w, g, ev) && !Reobserves(w, a, g))
    {
      EvidenceIsStep(w, a, g, ev);
    }
    NothingAtFirst(c, g);
    i := Since(c, run, w => EvidenceIs(w, g, ev), (w, a) => ObservesThat(w, a, g, ev), (w, a) => Reobserves(w, a, g));
  }

  // ---- What no message sets ----

  /** Nothing but a heartbeat writes a measurement, and none writes the set-up time or the slots in use. */
  ghost predicate Unset(s: State) {
    forall t | t in s.runtime :: s.runtime[t].performance.setupNs == 0 && s.runtime[t].concurrencyInUse == 0
  }

  lemma SweptUnset(w: World, a: Action)
    requires Sweeps(a) && Unset(w.st)
    ensures Unset(Apply(w, a).st)
  {
    hide Apply, FenceWorker, Disconnect, RetireTarget, AdvanceEpoch;
    AppliedSweep(w, a);
    if a.WorkerFenced? || a.WorkerDropped? {
      FenceEvidence(w.st, a.boot);
    } else if a.EpochMoved? {
      EpochEvidence(w.st);
    } else {
      RetiredRuntime(w.st, a.target);
    }
  }

  lemma UnsetStep(w: World, a: Action)
    requires DiskStatic(w) && Unset(w.st)
    ensures Unset(Apply(w, a).st)
  {
    hide Apply, StateAfter, Recover, RegisterTarget;
    if a.Loaded? {
      ReloadForgets(w);
    } else if Sweeps(a) {
      SweptUnset(w, a);
    } else {
      Stepped(w, a);
      AppliedRuntime(w, a);
      AppliedDefinition(w, a);
      if a.Registered? { RegisteredRuntime(w.st, a.registration); }
    }
  }

  lemma {:induction false} AlwaysUnset(c: Id, run: seq<Action>)
    ensures Unset(After(c, run).st)
  {
    hide Apply, DiskStatic;
    if run != [] {
      var front := run[..|run| - 1];
      AlwaysUnset(c, front);
      RunStatic(c, front);
      UnsetStep(After(c, front), run[|run| - 1]);
    } else {
      FirstUnset(c);
    }
  }

  lemma FirstUnset(c: Id)
    ensures Unset(After(c, []).st)
  {
  }
}
