/**
 Whole runs of the coordinator: any sequence of its operations, in any interleaving, with saves and
 restarts. A run is the sequence of actions; `After` gives the world it leads to.
 */
module Runs {
  import opened Types
  import opened Engine

  datatype Action =
    | Attached(id: Id)
    | DomainAdded(domain: MemoryDomain) | DatasetAdded(dataset: Dataset) | RegionAdded(region: Region)
    | ProgramAdded(program: Program) | PolicyAdded(policy: Policy) | OperationAdded(operation: Operation)
    | Greeted(hello: HelloMsg) | Registered(registration: RegisterTargetMsg)
    | Published(capability: CapabilityMsg) | Observed(evidence: EvidenceMsg) | Beat(beat: HeartbeatMsg)
    | Planned(op: Id, id: Id) | ReserveAsked(plan: Id)
    | PrepareAsked(plan: Id, dispatch: Id, attempt: Id, payload: bytes) | ConfirmAsked(plan: Id, dispatch: Id)
    | Completed(result: ResultMsg, id: Id)
    | DrainAsked(target: Id) | CancelAsked(plan: Id) | WorkerFenced(boot: Id) | WorkerDropped(boot: Id)
    | TargetRetired(target: Id) | EpochMoved
    | Saved | Loaded

  // ---- Three kinds of action ----

  /** Steps of a plan. */
  predicate Works(a: Action) {
    a.Planned? || a.ReserveAsked? || a.PrepareAsked? || a.ConfirmAsked? || a.Completed? || a.CancelAsked?
  }

  /** Steps that withdraw authority from many entries at once. */
  predicate Sweeps(a: Action) {
    a.WorkerFenced? || a.WorkerDropped? || a.TargetRetired? || a.EpochMoved?
  }

  /** Registrations and publications, which leave every plan alone. */
  predicate Quiet(a: Action) {
    !Works(a) && !Sweeps(a)
  }

  function WorkAfter(s: State, a: Action): (n: State)
    requires Works(a)
    ensures n == s.(plans := n.plans, active := n.active, results := n.results, reservations := n.reservations,
                    targets := n.targets)
    ensures s.targets.Keys <= n.targets.Keys && (!a.ReserveAsked? ==> n.targets == s.targets)
    ensures !a.Completed? ==> n.results == s.results
  {
    match a
    case Planned(op, id) => MakePlan(s, op, id).0
    case ReserveAsked(p) => Reserve(s, p).0
    case PrepareAsked(p, d, t, payload) => PrepareDispatch(s, p, d, t, payload).0
    case ConfirmAsked(p, d) => ConfirmDispatched(s, p, d).0
    case Completed(m, id) => ApplyResult(s, m, id).0
    case CancelAsked(p) => CancelPlan(s, p).0
  }

  function SweepAfter(s: State, a: Action): (n: State)
    requires Sweeps(a)
    ensures n == s.(epoch := n.epoch, runtime := n.runtime, caps := n.caps, evidence := n.evidence, plans := n.plans,
                    active := n.active, workers := n.workers)
    ensures n.runtime.Keys == s.runtime.Keys && n.caps.Keys == s.caps.Keys && n.evidence.Keys == s.evidence.Keys
    ensures !a.EpochMoved? ==> n.epoch == s.epoch
  {
    match a
    case WorkerFenced(boot) => FenceWorker(s, boot)
    case WorkerDropped(boot) => Disconnect(s, boot)
    case TargetRetired(t) => RetireTarget(s, t).0
    case EpochMoved => AdvanceEpoch(s)
  }

  /** The parts of the state that only plan operations and sweeps change. */
  predicate SameWork(s: State, n: State) {
    && n.plans == s.plans && n.active == s.active && n.results == s.results
    && n.reservations == s.reservations && n.epoch == s.epoch
  }

  function QuietAfter(s: State, a: Action): (n: State)
    requires Quiet(a)
    ensures SameWork(s, n)
    ensures s.targets.Keys <= n.targets.Keys && (!a.Registered? ==> n.targets == s.targets)
    ensures s.runtime.Keys <= n.runtime.Keys
    ensures !a.Registered? ==> n.runtime.Keys == s.runtime.Keys
    ensures !a.Registered? && !a.Beat? && !a.DrainAsked? ==> n.runtime == s.runtime
    ensures s.caps.Keys <= n.caps.Keys && (!a.Published? ==> n.caps == s.caps)
    ensures s.evidence.Keys <= n.evidence.Keys && (!a.Observed? ==> n.evidence == s.evidence)
    ensures Extends(s.operations, n.operations) && (!a.OperationAdded? ==> n.operations == s.operations)
    ensures Extends(s.programs, n.programs) && Extends(s.policies, n.policies)
    ensures a.Saved? ==> n == s
  {
    match a
    case Attached(id) => s.(coordinatorId := id)
    case DomainAdded(d) => RegisterDomain(s, d).0
    case DatasetAdded(d) => RegisterDataset(s, d).0
    case RegionAdded(r) => RegisterRegion(s, r).0
    case ProgramAdded(p) => RegisterProgram(s, p).0
    case PolicyAdded(p) => RegisterPolicy(s, p).0
    case OperationAdded(o) => CreateOperation(s, o).0
    case Greeted(m) => BindWorker(s, m)
    case Registered(m) => RegisterTarget(s, m).0
    case Published(m) => PublishCapability(s, m).0
    case Observed(m) => PublishEvidence(s, m).0
    case Beat(m) => Heartbeat(s, m).0
    case DrainAsked(t) => BeginDrain(s, t).0
    case Saved => s
    case Loaded => s
  }

  /** Everything but the two actions that touch the disk: a save, and a start of the process. */
  function StateAfter(s: State, a: Action): (n: State)
    ensures a.Saved? ==> n == s
    ensures !a.EpochMoved? ==> n.epoch == s.epoch
    ensures !a.OperationAdded? ==> n.operations == s.operations
    ensures !a.Registered? && !a.ReserveAsked? ==> n.targets == s.targets
    ensures s.targets.Keys <= n.targets.Keys && (!a.Registered? ==> n.runtime.Keys == s.runtime.Keys)
    ensures !a.Registered? && !a.Beat? && !a.DrainAsked? && !Sweeps(a) ==> n.runtime == s.runtime
    ensures !a.Published? && !Sweeps(a) ==> n.caps == s.caps
    ensures !a.Observed? && !Sweeps(a) ==> n.evidence == s.evidence
    ensures !a.Completed? ==> n.results == s.results
    ensures !Works(a) ==> n.reservations == s.reservations
    ensures Quiet(a) ==> n.plans == s.plans && n.active == s.active
  {
    if Works(a) then WorkAfter(s, a) else if Sweeps(a) then SweepAfter(s, a) else QuietAfter(s, a)
  }

  /** Identities handed out, each kind with its own type. */
  datatype Ids = Ids(plans: set<Id>, dispatches: set<Id>, attempts: set<Id>, results: set<Id>)

  const NO_IDS: Ids := Ids({}, {}, {}, {})

  function Joined(x: Ids, y: Ids): Ids {
    Ids(x.plans + y.plans, x.dispatches + y.dispatches, x.attempts + y.attempts, x.results + y.results)
  }

  /** No identity is of the same kind in both. */
  predicate Apart(x: Ids, y: Ids) {
    x.plans !! y.plans && x.dispatches !! y.dispatches && x.attempts !! y.attempts && x.results !! y.results
  }

  /**
   The live state, what the last save kept, the identities handed out so far, and the plans that took a
   slot since the process started and have neither committed nor been cancelled.
   */
  datatype World = World(st: State, disk: Option<State>, used: Ids, held: set<Id>)

  function NewIds(a: Action): Ids {
    match a
    case Planned(_, id) => NO_IDS.(plans := {id})
    case Completed(_, id) => NO_IDS.(results := {id})
    case PrepareAsked(_, d, t, _) => NO_IDS.(dispatches := {d}, attempts := {t})
    case _ => NO_IDS
  }

  function HeldAfter(w: World, a: Action): set<Id> {
    match a
    case ReserveAsked(p) => if Reserve(w.st, p).1.Ok? then w.held + {p} else w.held
    case Completed(m, _) =>
      if CompletionGuard(w.st, m).Ok? && VerdictOf(m).Intact? then w.held - {m.plan} else w.held
    case CancelAsked(p) => if CancelPlan(w.st, p).1.Ok? then w.held - {p} else w.held
    case _ => w.held
  }

  /** What a process starts from: a new coordinator, or what it recovers from the last save. */
  function Revived(w: World): State {
    if w.disk.None? then Initial(w.st.coordinatorId) else Recover(w.disk.value)
  }

  function Apply(w: World, a: Action): World {
    match a
    case Saved => w.(disk := Some(Project(w.st)))
    case Loaded => World(Revived(w), w.disk, w.used, {})
    case _ => World(StateAfter(w.st, a), w.disk, Joined(w.used, NewIds(a)), HeldAfter(w, a))
  }

  /** New identities are new. */
  predicate Enabled(w: World, a: Action) {
    Apart(NewIds(a), w.used)
  }

  function After(c: Id, run: seq<Action>): World {
    if run == [] then World(Initial(c), None, NO_IDS, {})
    else Apply(After(c, run[..|run| - 1]), run[|run| - 1])
  }

  predicate Legal(c: Id, run: seq<Action>) {
    run == [] ||
    (Legal(c, run[..|run| - 1]) && Enabled(After(c, run[..|run| - 1]), run[|run| - 1]))
  }

  lemma {:induction false} LegalPrefix(c: Id, run: seq<Action>, i: nat)
    requires Legal(c, run) && i <= |run|
    ensures Legal(c, run[..i])
    ensures i < |run| ==> Enabled(After(c, run[..i]), run[i])
    ensures i < |run| ==> After(c, run[..i + 1]) == Apply(After(c, run[..i]), run[i])
    decreases |run|
  {
    hide Enabled, Apply;
    if i == |run| {
      assert run[..i] == run;
    } else {
      var front := run[..|run| - 1];
      LegalPrefix(c, front, if i < |front| then i else |front|);
      assert front[..i] == run[..i];
      assert run[..i + 1][..i] == run[..i];
      if i < |front| {
        assert front[..i + 1] == run[..i + 1];
      }
    }
  }

  /** If a property can only be lost or kept by steps of one kind, it holds throughout a run iff all steps keep it. */
  lemma StepByStep(c: Id, run: seq<Action>, holds: World -> bool, keeps: (World, Action) -> bool)
    requires holds(After(c, []))
    requires forall i | 0 <= i < |run| && holds(After(c, run[..i])) ::
               holds(After(c, run[..i + 1])) <==> keeps(After(c, run[..i]), run[i])
    ensures (forall i :: 0 <= i <= |run| ==> holds(After(c, run[..i]))) <==>
            (forall i :: 0 <= i < |run| ==> keeps(After(c, run[..i]), run[i]))
  {
    hide Apply, After;
    if forall i :: 0 <= i < |run| ==> keeps(After(c, run[..i]), run[i]) {
      var k := 0;
      while k < |run|
        invariant k <= |run|
        invariant forall i :: 0 <= i <= k ==> holds(After(c, run[..i]))
      {
        assert keeps(After(c, run[..k]), run[k]);
        k := k + 1;
      }
    } else {
      var i :| 0 <= i < |run| && !keeps(After(c, run[..i]), run[i]);
      if holds(After(c, run[..i])) {
        assert !holds(After(c, run[..i + 1]));
      }
    }
  }

  // ---- The operation behind an action ----

  lemma UsedAfter(w: World, a: Action)
    ensures Apply(w, a).used == Joined(w.used, NewIds(a))
  {
    hide StateAfter, HeldAfter, Project, Recover, Initial;
  }

  lemma Stepped(w: World, a: Action)
    requires !a.Loaded?
    ensures Apply(w, a).st == StateAfter(w.st, a)
  {
    hide StateAfter, HeldAfter, Project, Recover;
  }

  lemma Applied(w: World, a: Action)
    ensures a.Planned? ==> Apply(w, a).st == MakePlan(w.st, a.op, a.id).0
    ensures a.ReserveAsked? ==> Apply(w, a).st == Reserve(w.st, a.plan).0
    ensures a.PrepareAsked? ==> Apply(w, a).st == PrepareDispatch(w.st, a.plan, a.dispatch, a.attempt, a.payload).0
    ensures a.ConfirmAsked? ==> Apply(w, a).st == ConfirmDispatched(w.st, a.plan, a.dispatch).0
    ensures a.Completed? ==> Apply(w, a).st == ApplyResult(w.st, a.result, a.id).0
    ensures a.CancelAsked? ==> Apply(w, a).st == CancelPlan(w.st, a.plan).0
  {
    hide Apply, MakePlan, Reserve, PrepareDispatch, ConfirmDispatched, ApplyResult, CancelPlan, SweepAfter, QuietAfter;
    if Works(a) {
      Stepped(w, a);
    }
  }

  lemma AppliedSweep(w: World, a: Action)
    ensures a.EpochMoved? ==> Apply(w, a).st == AdvanceEpoch(w.st)
    ensures a.TargetRetired? ==> Apply(w, a).st == RetireTarget(w.st, a.target).0
    ensures a.WorkerFenced? ==> Apply(w, a).st == FenceWorker(w.st, a.boot)
    ensures a.WorkerDropped? ==> Apply(w, a).st == Disconnect(w.st, a.boot)
  {
    hide Apply, FenceWorker, Disconnect, RetireTarget, AdvanceEpoch, WorkAfter, QuietAfter;
    if Sweeps(a) {
      Stepped(w, a);
    }
  }

  lemma AppliedDefinition(w: World, a: Action)
    ensures a.Registered? ==> Apply(w, a).st == RegisterTarget(w.st, a.registration).0
    ensures a.OperationAdded? ==> Apply(w, a).st == CreateOperation(w.st, a.operation).0
  {
    hide Apply, RegisterTarget, CreateOperation, WorkAfter, SweepAfter;
    if a.Registered? || a.OperationAdded? {
      Stepped(w, a);
    }
  }

  lemma AppliedRuntime(w: World, a: Action)
    ensures a.Beat? ==> Apply(w, a).st == Heartbeat(w.st, a.beat).0
    ensures a.DrainAsked? ==> Apply(w, a).st == BeginDrain(w.st, a.target).0
    ensures a.Published? ==> Apply(w, a).st == PublishCapability(w.st, a.capability).0
    ensures a.Observed? ==> Apply(w, a).st == PublishEvidence(w.st, a.evidence).0
  {
    hide Apply, Heartbeat, BeginDrain, PublishCapability, PublishEvidence, WorkAfter, SweepAfter;
    if a.Beat? || a.DrainAsked? || a.Published? || a.Observed? {
      Stepped(w, a);
    }
  }

  lemma LoadedWorld(w: World)
    ensures Apply(w, Loaded) == World(Revived(w), w.disk, w.used, {})
  {
    hide StateAfter, HeldAfter, Recover, Project, Initial;
  }
}
