/** What is registered: every definition is under its own identity, none is ever replaced while the process runs. */
module Registry {
  import opened Types
  import opened Ordered
  import opened Engine
  import opened Runs
  import opened Support
  import opened Safety

  /** Every entry is under its own non-null identity and has a generation. */
  ghost predicate Keyed<V(!new)>(m: map<Id, V>, id: V -> Id, gen: V -> Gen) {
    forall k | k in m :: id(m[k]) == k && k != 0 && gen(m[k]) != 0
  }

  ghost predicate DataKeyed(s: State) {
    && Keyed(s.domains, (d: MemoryDomain) => d.id, (d: MemoryDomain) => d.generation)
    && Keyed(s.datasets, (d: Dataset) => d.id, (d: Dataset) => d.generation)
    && Keyed(s.regions, (g: Region) => g.id, (g: Region) => g.generation)
  }

  ghost predicate WorkKeyed(s: State) {
    && Keyed(s.programs, (p: Program) => p.id, (p: Program) => p.generation)
    && Keyed(s.policies, (p: Policy) => p.id, (p: Policy) => p.generation)
    && Keyed(s.operations, (o: Operation) => o.id, (o: Operation) => o.generation)
    && 1 in s.policies && s.policies[1] == DefaultPolicy()
  }

  /** Whatever is measured or published is about a registered target, or a region with an identity. */
  ghost predicate PublicationsKeyed(s: State) {
    && Keyed(s.targets, (t: Target) => t.id, (t: Target) => t.generation)
    && s.runtime.Keys <= s.targets.Keys && s.caps.Keys <= s.targets.Keys && 0 !in s.evidence
  }

  ghost predicate AllKeyed(s: State) {
    DataKeyed(s) && WorkKeyed(s) && PublicationsKeyed(s)
  }

  ghost predicate RegistryInv(w: World) {
    AllKeyed(w.st) && (w.disk.Some? ==> AllKeyed(w.disk.value))
  }

  // ---- One registration ----

  lemma Added<V(!new)>(m: map<Id, V>, v: V, id: V -> Id, gen: V -> Gen)
    requires Keyed(m, id, gen) && id(v) != 0 && gen(v) != 0
    ensures Keyed(m[id(v) := v], id, gen)
  {
  }

  lemma DataAdded(s: State, a: Action)
    requires DataKeyed(s) && (a.DomainAdded? || a.DatasetAdded? || a.RegionAdded?)
    ensures DataKeyed(QuietAfter(s, a))
  {
    hide Keyed;
    if a.DomainAdded? {
      var d := a.domain;
      if RegisterDomain(s, d).1.Ok? {
        Added(s.domains, d, (d: MemoryDomain) => d.id, (d: MemoryDomain) => d.generation);
      }
    } else if a.DatasetAdded? {
      var d := a.dataset;
      if RegisterDataset(s, d).1.Ok? {
        Added(s.datasets, d, (d: Dataset) => d.id, (d: Dataset) => d.generation);
      }
    } else {
      var g := a.region;
      if RegisterRegion(s, g).1.Ok? {
        Added(s.regions, g, (g: Region) => g.id, (g: Region) => g.generation);
      }
    }
  }

  lemma WorkAdded(s: State, a: Action)
    requires WorkKeyed(s) && (a.ProgramAdded? || a.PolicyAdded? || a.OperationAdded?)
    ensures WorkKeyed(QuietAfter(s, a))
  {
    hide Keyed;
    if a.ProgramAdded? {
      var p := a.program;
      if RegisterProgram(s, p).1.Ok? {
        Added(s.programs, p, (p: Program) => p.id, (p: Program) => p.generation);
      }
    } else if a.PolicyAdded? {
      var p := a.policy;
      if RegisterPolicy(s, p).1.Ok? {
        Added(s.policies, p, (p: Policy) => p.id, (p: Policy) => p.generation);
      }
    } else {
      var o := a.operation;
      if CreateOperation(s, o).1.Ok? {
        Added(s.operations, o, (o: Operation) => o.id, (o: Operation) => o.generation);
      }
    }
  }

  lemma TargetAdded(s: State, m: RegisterTargetMsg)
    requires PublicationsKeyed(s)
    ensures PublicationsKeyed(RegisterTarget(s, m).0)
  {
  }

  lemma Publishes(s: State, a: Action)
    requires PublicationsKeyed(s) && (a.Published? || a.Observed?)
    ensures PublicationsKeyed(QuietAfter(s, a))
  {
    hide EntryMap;
  }

  // ---- One step ----

  predicate Defines(a: Action) {
    || a.DomainAdded? || a.DatasetAdded? || a.RegionAdded? || a.ProgramAdded? || a.PolicyAdded? || a.OperationAdded?
    || a.Registered? || a.Published? || a.Observed?
  }

  /** Every other step leaves the definitions alone. */
  lemma Undefining(s: State, a: Action)
    requires !Defines(a)
    ensures var n := StateAfter(s, a);
            && n.domains == s.domains && n.datasets == s.datasets && n.regions == s.regions
            && n.programs == s.programs && n.policies == s.policies && n.operations == s.operations
            && n.runtime.Keys == s.runtime.Keys && n.caps.Keys == s.caps.Keys && n.evidence.Keys == s.evidence.Keys
            && (!a.ReserveAsked? ==> n.targets == s.targets)
  {
    hide WorkAfter, SweepAfter, RegisterTarget, PublishCapability, PublishEvidence, Heartbeat, BeginDrain;
  }

  lemma ReserveAddsNone(s: State, p: Id)
    requires s.runtime.Keys <= s.targets.Keys
    ensures Reserve(s, p).0.targets == s.targets
  {
    hide AdmissionCheck, DefaultTarget;
  }

  lemma DefiningStep(s: State, a: Action)
    requires AllKeyed(s) && Defines(a)
    ensures AllKeyed(QuietAfter(s, a))
  {
    hide Keyed, RegisterTarget, QuietAfter;
    DefinesOne(s, a);
    if a.Registered? {
      TargetAdded(s, a.registration);
    } else if a.Published? || a.Observed? {
      Publishes(s, a);
    } else if a.DomainAdded? || a.DatasetAdded? || a.RegionAdded? {
      DataAdded(s, a);
    } else {
      WorkAdded(s, a);
    }
  }

  /** A registration touches one table. */
  lemma DefinesOne(s: State, a: Action)
    requires Defines(a)
    ensures var n := QuietAfter(s, a);
            && (a.Registered? ==> n == RegisterTarget(s, a.registration).0)
            && (!(a.DomainAdded? || a.DatasetAdded? || a.RegionAdded?) ==>
                 n.domains == s.domains && n.datasets == s.datasets && n.regions == s.regions)
            && (!(a.ProgramAdded? || a.PolicyAdded? || a.OperationAdded?) ==>
                 n.programs == s.programs && n.policies == s.policies && n.operations == s.operations)
            && (!(a.Registered? || a.Published? || a.Observed?) ==>
                 n.targets == s.targets && n.runtime == s.runtime && n.caps == s.caps && n.evidence == s.evidence)
  {
    hide RegisterDomain, RegisterDataset, RegisterRegion, RegisterProgram, RegisterPolicy, CreateOperation,
      RegisterTarget, PublishCapability, PublishEvidence;
  }

  lemma EveryStepKeyed(w: World, a: Action)
    requires AllKeyed(w.st) && !a.Loaded?
    ensures AllKeyed(Apply(w, a).st)
  {
    hide Apply, StateAfter, Keyed, Reserve;
    Stepped(w, a);
    if Defines(a) {
      DefinedState(w.st, a);
      DefiningStep(w.st, a);
    } else {
      Undefining(w.st, a);
      if a.ReserveAsked? {
        Applied(w, a);
        ReserveAddsNone(w.st, a.plan);
      }
    }
  }

  lemma DefinedState(s: State, a: Action)
    requires Defines(a)
    ensures Quiet(a) && StateAfter(s, a) == QuietAfter(s, a)
  {
    hide QuietAfter, WorkAfter, SweepAfter;
  }

  // ---- Saves and starts ----

  lemma SavedKeyed(s: State)
    requires AllKeyed(s)
    ensures AllKeyed(Project(s))
  {
    hide Mapped, DurablePlan;
  }

  lemma RecoveredKeyed(d: State)
    requires AllKeyed(d)
    ensures AllKeyed(Recover(d))
  {
    hide Keyed, Index, Mapped;
  }

  lemma NewKeyed(c: Id)
    ensures AllKeyed(Initial(c))
  {
  }

  lemma RegistryStep(w: World, a: Action)
    requires RegistryInv(w)
    ensures RegistryInv(Apply(w, a))
  {
    hide Apply, AllKeyed, Project, Recover, Initial;
    if a.Loaded? {
      LoadedWorld(w);
      if w.disk.Some? {
        RecoveredKeyed(w.disk.value);
      } else {
        NewKeyed(w.st.coordinatorId);
      }
    } else {
      EveryStepKeyed(w, a);
      DiskOf(w, a);
      SavedKeyed(w.st);
    }
  }

  lemma DiskOf(w: World, a: Action)
    requires !a.Loaded?
    ensures Apply(w, a).disk == if a.Saved? then Some(Project(w.st)) else w.disk
  {
    hide StateAfter, HeldAfter, Project, Recover;
  }

  /**
   In every run: every definition is under its own non-null identity with a generation, and whatever is measured or
   published is about a registered target.
   */
  lemma {:induction false} AlwaysKeyed(c: Id, run: seq<Action>)
    ensures RegistryInv(After(c, run))
  {
    hide Apply, AllKeyed;
    if run == [] {
      NewKeyed(c);
    } else {
      AlwaysKeyed(c, run[..|run| - 1]);
      RegistryStep(After(c, run[..|run| - 1]), run[|run| - 1]);
    }
  }

  /** While the process runs, no dataset, region, domain, program, policy or operation is replaced or dropped. */
  lemma DefinitionsStay(w: World, a: Action)
    requires !a.Loaded?
    ensures var s, n := w.st, Apply(w, a).st;
            && Extends(s.domains, n.domains) && Extends(s.datasets, n.datasets) && Extends(s.regions, n.regions)
            && Extends(s.programs, n.programs) && Extends(s.policies, n.policies)
            && Extends(s.operations, n.operations)
  {
    hide Apply, StateAfter, QuietAfter;
    Stepped(w, a);
    if Defines(a) {
      DefinedState(w.st, a);
      DefinedData(w.st, a);
    } else {
      Undefining(w.st, a);
    }
  }

  lemma DefinedData(s: State, a: Action)
    requires Defines(a)
    ensures var n := QuietAfter(s, a);
            Extends(s.domains, n.domains) && Extends(s.datasets, n.datasets) && Extends(s.regions, n.regions)
  {
    hide RegisterDomain, RegisterDataset, RegisterRegion, RegisterProgram, RegisterPolicy, CreateOperation,
      RegisterTarget, PublishCapability, PublishEvidence;
  }
}
