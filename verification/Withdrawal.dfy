/**
 Targets that take no new work: what an admission needs of its target, how long a drained or disowned target refuses
 every reservation, and how long a retirement lasts.
 */
module Withdrawal {
  import opened Types
  import opened Planning
  import opened Engine
  import opened Runs
  import opened PlanLifecycle
  import opened Support
  import opened Safety
  import opened History
  import opened Fates
  import opened Provenance
  import opened Judgement

  // ---- Admission ----

  /** The plan is new, the target takes work and has room for it. */
  predicate Admissible(s: State, p: Id) {
    && p in s.plans && s.plans[p].lifecycle == PLANNED
    && var t := s.plans[p].target;
    && t in s.runtime && t in s.targets && s.plans[p].operation in s.operations
    && s.runtime[t].lifecycle !in {TL_DRAINING, TL_DEGRADED, TL_REVALIDATION_REQUIRED}
    && ReservationOf(s, t).slots < s.targets[t].concurrencyCapacity
    && ReservationOf(s, t).workspace <= s.targets[t].workspaceBytes
    && Wrap(ReservationOf(s, t).workspace + s.operations[s.plans[p].operation].workspaceBytes) <=
       s.targets[t].workspaceBytes
  }

  lemma AdmitsWhenDefined(s: State, p: Id)
    requires p in s.plans && s.plans[p].lifecycle == PLANNED ==>
               s.plans[p].target in s.runtime && s.plans[p].target in s.targets && s.plans[p].operation in s.operations
    ensures Reserve(s, p).1.Ok? <==> Admissible(s, p)
  {
    hide Wrap, ReservationOf;
  }

  lemma PlannedIsDefined(s: State, p: Id)
    requires Supported(s)
    ensures p in s.plans && s.plans[p].lifecycle == PLANNED ==>
              s.plans[p].target in s.runtime && s.plans[p].target in s.targets && s.plans[p].operation in s.operations
  {
    if p in s.plans && s.plans[p].lifecycle == PLANNED {
      assert PlanSupported(s, s.plans[p]);
    }
  }

  /** In every run a reservation is admitted exactly when the plan is admissible. */
  lemma AdmittedIff(c: Id, run: seq<Action>, p: Id)
    requires Legal(c, run)
    ensures Reserve(After(c, run).st, p).1.Ok? <==> Admissible(After(c, run).st, p)
  {
    hide After, Inv, Supported, Reserve, Admissible;
    RunInv(c, run);
    SupportedOf(After(c, run));
    PlannedIsDefined(After(c, run).st, p);
    AdmitsWhenDefined(After(c, run).st, p);
  }

  // ---- Shut ----

  predicate PlannedOn(s: State, p: Id, t: Id) {
    p in s.plans && s.plans[p].lifecycle == PLANNED && s.plans[p].target == t
  }

  /** No plan can be reserved on the target: it refuses admission, or it is retired and no plan for it is left. */
  ghost predicate Shut(w: World, t: Id) {
    t in w.st.runtime ==>
      || w.st.runtime[t].lifecycle in {TL_DRAINING, TL_REVALIDATION_REQUIRED}
      || (w.st.runtime[t].lifecycle == TL_RETIRED && forall p :: !PlannedOn(w.st, p, t))
  }

  predicate Reopens(w: World, a: Action, t: Id) {
    Beats(w, a, t) || RegistersTarget(w, a, t)
  }

  predicate Shuts(w: World, a: Action, t: Id) {
    || Drains(w, a, t) || a.EpochMoved? || a.Loaded? || (a.TargetRetired? && a.target == t)
    || ((a.WorkerFenced? || a.WorkerDropped?) && t in w.st.runtime && w.st.runtime[t].ownerBoot == a.boot)
  }

  lemma RetireLeavesNone(s: State, t: Id, p: Id)
    requires t in s.runtime
    ensures !PlannedOn(RetireTarget(s, t).0, p, t)
  {
    hide Index;
  }

  lemma ShuttingShuts(w: World, a: Action, t: Id)
    requires DiskStatic(w) && Shuts(w, a, t)
    ensures Shut(Apply(w, a), t)
  {
    hide Apply, FenceWorker, Disconnect, RetireTarget, AdvanceEpoch, BeginDrain, PlannedOn;
    AppliedSweep(w, a);
    AppliedRuntime(w, a);
    if a.Loaded? {
      ReloadForgets(w);
    } else if a.DrainAsked? {
      DrainedRecord(w.st, t);
    } else if a.EpochMoved? {
      EpochEvidence(w.st);
    } else if a.TargetRetired? {
      if t in w.st.runtime {
        RetiredRuntime(w.st, t);
        forall p ensures !PlannedOn(Apply(w, a).st, p, t) {
          RetireLeavesNone(w.st, t, p);
        }
      } else {
        RetireNothing(w.st, t);
      }
    } else {
      FenceEvidence(w.st, a.boot);
    }
  }

  /** Any other step leaves the lifecycle of the target as it is. */
  lemma LifecycleStays(w: World, a: Action, t: Id)
    requires !Shuts(w, a, t) && !Reopens(w, a, t) && t in Apply(w, a).st.runtime
    ensures t in w.st.runtime && Apply(w, a).st.runtime[t].lifecycle == w.st.runtime[t].lifecycle
  {
    hide Apply, StateAfter, FenceWorker, Disconnect, RetireTarget, AdvanceEpoch, BeginDrain, Heartbeat, RegisterTarget;
    Stepped(w, a);
    AppliedSweep(w, a);
    AppliedRuntime(w, a);
    AppliedDefinition(w, a);
    if a.WorkerFenced? || a.WorkerDropped? {
      FenceEvidence(w.st, a.boot);
    } else if a.TargetRetired? {
      RetiredRuntime(w.st, a.target);
    } else if a.Registered? {
      RegisteredRuntime(w.st, a.registration);
    } else if a.DrainAsked? {
      DrainedRecord(w.st, a.target);
    } else if a.Beat? {
      BeatenRecord(w.st, a.beat);
    }
  }

  lemma NotForRetired(s: State, op: Id, id: Id, t: Id)
    requires t in s.runtime && s.runtime[t].lifecycle == TL_RETIRED && id !in s.plans
    ensures !PlannedOn(MakePlan(s, op, id).0, id, t)
  {
    hide MakePlan, SnapshotFor, OperationSupported, DataUsable, ResourcesFit, ProgramUsable, AuthorityFresh;
    var u := Created(s, op, id);
  }

  lemma PlannedBefore(o: Plan, n: Plan)
    requires Evolves(o, n) && n.lifecycle == PLANNED
    ensures o.lifecycle == PLANNED && o.target == n.target
  {
  }

  lemma NoneEntersRetired(w: World, a: Action, t: Id, p: Id)
    requires Inv(w) && Enabled(w, a) && !a.Loaded?
    requires t in w.st.runtime && w.st.runtime[t].lifecycle == TL_RETIRED && !PlannedOn(w.st, p, t)
    ensures !PlannedOn(Apply(w, a).st, p, t)
  {
    KnownOf(w);
    hide Inv, Enabled, Apply, Known, PlanWf, MakePlan, Evolves, Caused;
    if PlannedOn(Apply(w, a).st, p, t) {
      StepMoves(w, a);
      if p in w.st.plans {
        PlannedBefore(w.st.plans[p], Apply(w, a).st.plans[p]);
      } else {
        Applied(w, a);
        NotForRetired(w.st, a.op, p, t);
      }
    }
  }

  lemma ShutStep(w: World, a: Action, t: Id)
    requires Inv(w) && DiskStatic(w) && Enabled(w, a) && Shut(w, t) && !Reopens(w, a, t)
    ensures Shut(Apply(w, a), t)
  {
    hide Inv, DiskStatic, Enabled, Apply, PlannedOn, Reopens;
    if Shuts(w, a, t) {
      ShuttingShuts(w, a, t);
    } else if t in Apply(w, a).st.runtime {
      LifecycleStays(w, a, t);
      if w.st.runtime[t].lifecycle == TL_RETIRED {
        forall p ensures !PlannedOn(Apply(w, a).st, p, t) {
          NoneEntersRetired(w, a, t, p);
        }
      }
    }
  }

  lemma ShutAdmitsNone(s: State, p: Id, w: World)
    requires w.st == s && p in s.plans && Shut(w, s.plans[p].target)
    ensures Reserve(s, p).1.Err?
  {
    if s.plans[p].lifecycle == PLANNED {
      assert PlannedOn(s, p, s.plans[p].target);
    }
  }

  /**
   In every run: once a target is drained, retired, disowned by a fence or disconnection of its owner, or cut off by an
   epoch change or a start of the process, no reservation on it is admitted until a heartbeat or registration for it.
   */
  lemma ShutUntilHeard(c: Id, run: seq<Action>, i: nat, t: Id, p: Id)
    requires Legal(c, run) && i < |run| && Shuts(After(c, run[..i]), run[i], t)
    requires forall j | i < j < |run| :: !Reopens(After(c, run[..j]), run[j], t)
    requires p in After(c, run).st.plans && After(c, run).st.plans[p].target == t
    ensures Reserve(After(c, run).st, p).1.Err?
  {
    hide After, Apply, Inv, DiskStatic, Enabled, Shut, Shuts, Reopens, Reserve;
    LegalPrefix(c, run, i);
    RunStatic(c, run[..i]);
    ShuttingShuts(After(c, run[..i]), run[i], t);
    forall w, a | Inv(w) && DiskStatic(w) && Enabled(w, a) && Shut(w, t) && !Reopens(w, a, t)
      ensures Shut(Apply(w, a), t)
    {
      ShutStep(w, a, t);
    }
    LastsLegally(c, run, i + 1, w => Shut(w, t), (w, a) => Reopens(w, a, t));
    ShutAdmitsNone(After(c, run).st, p, After(c, run));
  }

  // ---- Retired and failed ----

  predicate Ended(l: Code) {
    l == TL_RETIRED || l == TL_FAILED
  }

  predicate Terminal(w: World, t: Id) {
    t in w.st.runtime && Ended(w.st.runtime[t].lifecycle)
  }

  /** What makes a terminal target something else: not only a registration, but every sweep that revokes it. */
  predicate Unends(w: World, a: Action, t: Id) {
    || RegistersTarget(w, a, t) || a.EpochMoved? || a.Loaded?
    || ((a.WorkerFenced? || a.WorkerDropped?) && t in w.st.runtime && w.st.runtime[t].ownerBoot == a.boot)
  }

  lemma RegisterUnends(s: State, m: RegisterTargetMsg)
    requires RegisterTarget(s, m).1.Ok?
    ensures var n := RegisterTarget(s, m).0; m.target in n.runtime && n.runtime[m.target].lifecycle == TL_REGISTERED
  {
    hide TargetOf;
  }

  lemma Unended(w: World, a: Action, t: Id)
    requires DiskStatic(w) && Terminal(w, t) && Unends(w, a, t)
    ensures !Terminal(Apply(w, a), t)
  {
    hide Apply, FenceWorker, Disconnect, RetireTarget, AdvanceEpoch, RegisterTarget;
    AppliedSweep(w, a);
    AppliedDefinition(w, a);
    if a.Loaded? {
      ReloadForgets(w);
    } else if a.Registered? {
      RegisterUnends(w.st, a.registration);
    } else if a.EpochMoved? {
      EpochEvidence(w.st);
    } else {
      FenceEvidence(w.st, a.boot);
    }
  }

  /** Heartbeats and drains are taken exactly for the targets on record that are not terminal. */
  lemma TerminalRefuses(s: State, m: HeartbeatMsg)
    ensures Heartbeat(s, m).1.Ok? <==> m.target in s.runtime && !Ended(s.runtime[m.target].lifecycle)
    ensures BeginDrain(s, m.target).1.Ok? <==> m.target in s.runtime && !Ended(s.runtime[m.target].lifecycle)
  {
  }

  lemma TerminalDrain(s: State, t: Id)
    ensures BeginDrain(s, t).1.Ok? <==> t in s.runtime && !Ended(s.runtime[t].lifecycle)
  {
  }

  lemma StillTerminal(w: World, a: Action, t: Id)
    requires Terminal(w, t) && !Unends(w, a, t)
    ensures Terminal(Apply(w, a), t)
  {
    PresentStays(w, a, t);
    hide Apply, StateAfter, RetireTarget, BeginDrain, Heartbeat, RegisterTarget, Ended;
    AppliedSweep(w, a);
    if a.TargetRetired? && a.target == t {
      RetiredRuntime(w.st, t);
      RetiredHasEnded();
    } else {
      if a.Beat? { TerminalRefuses(w.st, a.beat); }
      if a.DrainAsked? { TerminalDrain(w.st, t); }
      LifecycleStays(w, a, t);
    }
  }

  lemma RetiredHasEnded()
    ensures Ended(TL_RETIRED)
  {
  }

  /**
   A retired or failed target takes no heartbeat and no drain. In every run it stays so through a step exactly unless
   the step registers it again, fences or drops its owner, moves the epoch or starts the process anew.
   */
  lemma TerminalLasts(c: Id, run: seq<Action>, a: Action, t: Id)
    requires Terminal(After(c, run), t)
    ensures Terminal(Apply(After(c, run), a), t) <==> !Unends(After(c, run), a, t)
    ensures !Beats(After(c, run), a, t) && !Drains(After(c, run), a, t)
  {
    hide After, Apply, DiskStatic, Unends, Heartbeat, BeginDrain;
    RunStatic(c, run);
    var w := After(c, run);
    if Unends(w, a, t) {
      Unended(w, a, t);
    } else {
      StillTerminal(w, a, t);
    }
    if a.Beat? {
      TerminalRefuses(w.st, a.beat);
    }
    TerminalDrain(w.st, t);
  }

  /** A fence of its owner makes any target, terminal or not, one that is heard again. */
  lemma FencedIsHeard(s: State, boot: Id, m: HeartbeatMsg)
    requires m.target in s.runtime && s.runtime[m.target].ownerBoot == boot
    ensures Heartbeat(FenceWorker(s, boot), m).1.Ok?
  {
    hide FenceWorker;
    FenceEvidence(s, boot);
  }

  const REGISTRATION: RegisterTargetMsg :=
    RegisterTargetMsg(1, 1, 0, 0, false, [], [], [], [], 0, 0, 1, 0, 7)

  /** Three steps to a retired target that takes heartbeats: registered, retired, and its owner fenced. */
  lemma RetiredIsHeardAgain(c: Id, m: HeartbeatMsg)
    requires m.target == 1
    ensures var run := [Registered(REGISTRATION), TargetRetired(1), WorkerFenced(7)];
            && Legal(c, run) && Terminal(After(c, run[..2]), 1)
            && Heartbeat(After(c, run[..2]).st, m).1.Err? && Heartbeat(After(c, run).st, m).1.Ok?
  {
    hide Apply, FenceWorker, RetireTarget, Heartbeat;
    var run := [Registered(REGISTRATION), TargetRetired(1), WorkerFenced(7)];
    assert run[..0] == [] && run[..1][..0] == [] && run[..2][..1] == run[..1] && run[..3] == run;
    var w0, w1, w2 := After(c, []), After(c, run[..1]), After(c, run[..2]);
    assert w1 == Apply(w0, run[0]) && w2 == Apply(w1, run[1]) && After(c, run) == Apply(w2, run[2]);
    AppliedDefinition(w0, run[0]);
    RegisteredRuntime(w0.st, REGISTRATION);
    AppliedSweep(w1, run[1]);
    RetiredRuntime(w1.st, 1);
    AppliedSweep(w2, run[2]);
    TerminalRefuses(w2.st, m);
    FencedIsHeard(w2.st, 7, m);
    QuietIsLegal(c, run);
  }

  lemma {:induction false} QuietIsLegal(c: Id, run: seq<Action>)
    requires forall i | 0 <= i < |run| :: NewIds(run[i]) == NO_IDS
    ensures Legal(c, run)
  {
    hide After;
    if run != [] {
      QuietIsLegal(c, run[..|run| - 1]);
    }
  }
}
