/** No frame leaves for a worker before the coordinator has the plan as dispatched with that very dispatch. */
module SentFrames {
  import opened Types
  import opened Engine
  import opened Runs
  import opened PlanLifecycle
  import opened Safety
  import opened Node
  import opened NodeSafety
  import opened Delivery
  import opened Fates

  /** The coordinator has dispatched the plan of the message, with its dispatch. */
  predicate Out(s: State, msg: DispatchMsg) {
    && msg.plan in s.plans && s.plans[msg.plan].dispatchId == Some(msg.dispatch)
    && Rank(s.plans[msg.plan].lifecycle) >= 2
  }

  predicate PastConfirm(stage: Stage) {
    stage.Confirmed? || stage.Awaiting? || stage.Sent? || stage.Failing? || stage.Cancelling?
  }

  predicate ClientOut(s: State, c: Client) {
    PastConfirm(c.stage) && c.msg.Some? ==> Out(s, c.msg.value)
  }

  ghost predicate FramesOut(n: Node) {
    && (forall msg | msg in n.sent :: Out(n.world.st, msg))
    && (forall k | k in n.clients :: ClientOut(n.world.st, n.clients[k]))
  }

  lemma EvolvedOut(o: Plan, n: Plan)
    requires Evolves(o, n) && Rank(o.lifecycle) >= 2
    ensures Rank(n.lifecycle) >= 2 && n.dispatchId == o.dispatchId
  {
  }

  lemma StaysOut(w: World, a: Action, msg: DispatchMsg)
    requires Inv(w) && Enabled(w, a) && !a.Loaded? && Out(w.st, msg)
    ensures Out(Apply(w, a).st, msg)
  {
    KnownOf(w);
    hide Inv, Enabled, Apply, Known, Evolves, PlanWf, Rank;
    StepMoves(w, a);
    EvolvedOut(w.st.plans[msg.plan], Apply(w, a).st.plans[msg.plan]);
  }

  lemma AheadOut(n: Node, step: Step, msg: DispatchMsg)
    requires NodeInv(n) && Ready(n, step) && Out(n.world.st, msg)
    ensures Out(Next(n, step).world.st, msg)
  {
    hide Inv, Enabled, Apply, Handles, Out, TablesOk, ClientsBound, RepliesBacked, DispatchesUsed;
    if Operates(n, step).Some? {
      StaysOut(n.world, Operates(n, step).value, msg);
    }
  }

  /** How a client gets past its confirmation: it was, or the coordinator just confirmed. */
  predicate Passes(n: Node, step: Step, k: nat, c: Client) {
    PastConfirm(c.stage) && c.msg.Some? ==>
      && k in n.clients && c.msg == n.clients[k].msg && c.plan == n.clients[k].plan
      && (PastConfirm(n.clients[k].stage)
          || (step == ConfirmFor(k) && ConfirmDispatched(n.world.st, c.plan, c.msg.value.dispatch).1.Ok?))
  }

  lemma EarlyPasses(n: Node, step: Step, k: nat)
    requires Ready(n, step) && Early(step) && k in Handles(n, step).clients
    ensures Passes(n, step, k, Handles(n, step).clients[k])
  {
    hide Operates, Reserve, ConfirmDispatched, Enabled;
  }

  lemma PreparedStage(n: Node, step: Step, k: nat)
    requires Ready(n, step) && step.PrepareFor? && k in Handles(n, step).clients
    ensures k == step.client ==> Handles(n, step).clients[k].stage.Prepared? || Handles(n, step).clients[k].stage.Done?
    ensures k != step.client ==> k in n.clients && Handles(n, step).clients[k] == n.clients[k]
  {
    hide Operates, PrepareDispatch, Enabled;
  }

  lemma PreparePasses(n: Node, step: Step, k: nat)
    requires Ready(n, step) && step.PrepareFor? && k in Handles(n, step).clients
    ensures Passes(n, step, k, Handles(n, step).clients[k])
  {
    hide Handles, Ready, ConfirmDispatched;
    PreparedStage(n, step, k);
  }

  lemma LatePasses(n: Node, step: Step, k: nat)
    requires Ready(n, step) && Late(step) && k in Handles(n, step).clients
    ensures Passes(n, step, k, Handles(n, step).clients[k])
  {
    hide Operates, Enabled, ConfirmDispatched;
  }

  lemma OtherPasses(n: Node, step: Step, k: nat)
    requires Ready(n, step) && !Early(step) && !step.PrepareFor? && !Late(step) && k in Handles(n, step).clients
    ensures Passes(n, step, k, Handles(n, step).clients[k])
  {
    hide Operates, ApplyResult, Enabled, ResolveAll, Resolve, ReplyTo, ConfirmDispatched;
    if step.Reply? {
      ResolveClients(n, n.answers[step.handler].dispatch, n.answers[step.handler].reply);
    } else if step.FailFor? {
      var c := n.clients[step.client];
      ResolveClients(n, c.msg.value.dispatch, Blank(c.plan).(ambiguous := true));
    }
  }

  lemma StepPasses(n: Node, step: Step, k: nat)
    requires Ready(n, step) && k in Next(n, step).clients
    ensures Passes(n, step, k, Next(n, step).clients[k])
  {
    hide Apply, Handles, Ready, Passes, Operates;
    if Early(step) {
      EarlyPasses(n, step, k);
    } else if step.PrepareFor? {
      PreparePasses(n, step, k);
    } else if Late(step) {
      LatePasses(n, step, k);
    } else {
      OtherPasses(n, step, k);
    }
  }

  lemma ConfirmedOut(n: Node, k: nat)
    requires NodeInv(n) && Ready(n, ConfirmFor(k)) && k in n.clients && n.clients[k].msg.Some?
    requires ConfirmDispatched(n.world.st, n.clients[k].plan, n.clients[k].msg.value.dispatch).1.Ok?
    ensures Out(Next(n, ConfirmFor(k)).world.st, n.clients[k].msg.value)
  {
    hide NodeInv, Enabled, Apply, ConfirmDispatched, Handles;
    ClientPlan(n, k);
    ConfirmGives(n.world.st, n.clients[k].plan, n.clients[k].msg.value.dispatch);
    Applied(n.world, Operates(n, ConfirmFor(k)).value);
  }

  lemma ClientPlan(n: Node, k: nat)
    requires NodeInv(n) && k in n.clients && n.clients[k].msg.Some?
    ensures n.clients[k].msg.value.plan == n.clients[k].plan
  {
    hide Inv, DispatchesUsed, DispatchesDistinct, PendingOk, SettledOk, SentOk, ClientsBound, RepliesBacked;
    assert ClientOk(n, n.clients[k]);
  }

  lemma ConfirmGives(s: State, p: Id, d: Id)
    requires ConfirmDispatched(s, p, d).1.Ok?
    ensures var n := ConfirmDispatched(s, p, d).0;
            p in n.plans && n.plans[p].dispatchId == Some(d) && n.plans[p].lifecycle == DISPATCHED
  {
  }

  lemma SentBy(n: Node, step: Step, msg: DispatchMsg)
    requires Ready(n, step) && msg in Next(n, step).sent
    ensures msg in n.sent || (step.SendFor? && step.client in n.clients && n.clients[step.client].msg == Some(msg)
                              && n.clients[step.client].stage == Awaiting)
  {
    hide Operates, Enabled, Apply, Reserve, ConfirmDispatched, PrepareDispatch, ApplyResult, ReplyTo, ResolveAll,
      Resolve;
  }

  lemma FramesStep(n: Node, step: Step)
    requires NodeInv(n) && Ready(n, step) && FramesOut(n)
    ensures FramesOut(Next(n, step))
  {
    hide NodeInv, Next, Ready, Out, ConfirmDispatched;
    var m := Next(n, step);
    forall msg | msg in m.sent ensures Out(m.world.st, msg) {
      SentBy(n, step, msg);
      AheadOut(n, step, msg);
    }
    forall k | k in m.clients ensures ClientOut(m.world.st, m.clients[k]) {
      StepPasses(n, step, k);
      if PastConfirm(m.clients[k].stage) && m.clients[k].msg.Some? {
        if PastConfirm(n.clients[k].stage) {
          AheadOut(n, step, m.clients[k].msg.value);
        } else {
          ConfirmedOut(n, k);
        }
      }
    }
  }

  lemma {:induction false} NodeFrames(c: Id, run: seq<Action>, steps: seq<Step>)
    requires Legal(c, run)
    ensures FramesOut(NodeAfter(After(c, run), steps))
    decreases |steps|
  {
    hide After, Next, NodeInv, Ready, Out, ClientOut;
    if steps != [] {
      var front, step := steps[..|steps| - 1], steps[|steps| - 1];
      NodeFrames(c, run, front);
      NodeRun(c, run, front);
      if Ready(NodeAfter(After(c, run), front), step) {
        FramesStep(NodeAfter(After(c, run), front), step);
      }
    }
  }

  /**
   In every interleaving: of every frame that may have reached a worker, the coordinator has the plan with that very
   dispatch, dispatched or beyond. A worker is never asked for work that could still be dispatched once more.
   */
  lemma SentWasConfirmed(c: Id, run: seq<Action>, steps: seq<Step>, msg: DispatchMsg)
    requires Legal(c, run) && msg in NodeAfter(After(c, run), steps).sent
    ensures var s := NodeAfter(After(c, run), steps).world.st;
            && msg.plan in s.plans && s.plans[msg.plan].dispatchId == Some(msg.dispatch)
            && s.plans[msg.plan].lifecycle !in {PLANNED, RESERVED}
  {
    hide After, NodeAfter, ClientOut;
    NodeFrames(c, run, steps);
  }

  // ---- Frames go to workers that joined ----

  ghost predicate Joined(steps: seq<Step>, boot: Id) {
    exists i :: 0 <= i < |steps| && steps[i] == WorkerJoins(boot)
  }

  predicate HasWorker(stage: Stage) {
    stage.Located? || PastConfirm(stage)
  }

  ghost predicate AllJoined(n: Node, steps: seq<Step>) {
    && (forall boot | boot in n.workers :: Joined(steps, boot))
    && (forall msg | msg in n.sent :: Joined(steps, msg.workerBoot))
    && (forall k | k in n.clients && HasWorker(n.clients[k].stage) && n.clients[k].msg.Some? ::
         Joined(steps, n.clients[k].msg.value.workerBoot))
  }

  lemma StillJoined(steps: seq<Step>, step: Step, boot: Id)
    requires Joined(steps, boot) || step == WorkerJoins(boot)
    ensures Joined(steps + [step], boot)
  {
    if i :| 0 <= i < |steps| && steps[i] == WorkerJoins(boot) {
      assert (steps + [step])[i] == WorkerJoins(boot);
    } else {
      assert (steps + [step])[|steps|] == WorkerJoins(boot);
    }
  }

  /** How a client comes to have a worker: it had, or it just found it among the connected ones. */
  predicate Finds(n: Node, step: Step, k: nat, c: Client) {
    HasWorker(c.stage) && c.msg.Some? ==>
      && k in n.clients && c.msg == n.clients[k].msg
      && (HasWorker(n.clients[k].stage) || c.msg.value.workerBoot in n.workers)
  }

  lemma EarlyFinds(n: Node, step: Step, k: nat)
    requires Ready(n, step) && Early(step) && k in Handles(n, step).clients
    ensures Finds(n, step, k, Handles(n, step).clients[k])
  {
    hide Operates, Reserve, ConfirmDispatched, Enabled;
  }

  lemma PrepareFinds(n: Node, step: Step, k: nat)
    requires Ready(n, step) && step.PrepareFor? && k in Handles(n, step).clients
    ensures Finds(n, step, k, Handles(n, step).clients[k])
  {
    hide Handles, Ready;
    PreparedStage(n, step, k);
  }

  lemma LateFinds(n: Node, step: Step, k: nat)
    requires Ready(n, step) && Late(step) && k in Handles(n, step).clients
    ensures Finds(n, step, k, Handles(n, step).clients[k])
  {
    hide Operates, Enabled;
  }

  lemma OtherFinds(n: Node, step: Step, k: nat)
    requires Ready(n, step) && !Early(step) && !step.PrepareFor? && !Late(step) && k in Handles(n, step).clients
    ensures Finds(n, step, k, Handles(n, step).clients[k])
  {
    hide Operates, ApplyResult, Enabled, ResolveAll, Resolve, ReplyTo;
    if step.Reply? {
      ResolveClients(n, n.answers[step.handler].dispatch, n.answers[step.handler].reply);
    } else if step.FailFor? {
      var c := n.clients[step.client];
      ResolveClients(n, c.msg.value.dispatch, Blank(c.plan).(ambiguous := true));
    }
  }

  lemma StepFinds(n: Node, step: Step, k: nat)
    requires Ready(n, step) && k in Next(n, step).clients
    ensures Finds(n, step, k, Next(n, step).clients[k])
  {
    hide Apply, Handles, Ready, Finds, Operates;
    if Early(step) {
      EarlyFinds(n, step, k);
    } else if step.PrepareFor? {
      PrepareFinds(n, step, k);
    } else if Late(step) {
      LateFinds(n, step, k);
    } else {
      OtherFinds(n, step, k);
    }
  }

  lemma WorkersBy(n: Node, step: Step, boot: Id)
    requires Ready(n, step) && boot in Next(n, step).workers
    ensures boot in n.workers || step == WorkerJoins(boot)
  {
    hide Operates, Enabled, Apply, Reserve, ConfirmDispatched, PrepareDispatch, ApplyResult, ReplyTo;
  }

  lemma JoinedStep(n: Node, steps: seq<Step>, step: Step)
    requires Ready(n, step) && AllJoined(n, steps)
    ensures AllJoined(Next(n, step), steps + [step])
  {
    hide Next, Ready, Joined, HasWorker;
    var m := Next(n, step);
    forall boot | boot in m.workers ensures Joined(steps + [step], boot) {
      WorkersBy(n, step, boot);
      StillJoined(steps, step, boot);
    }
    forall msg | msg in m.sent ensures Joined(steps + [step], msg.workerBoot) {
      SentBy(n, step, msg);
      if step.SendFor? { AwaitingIsBound(); }
      StillJoined(steps, step, msg.workerBoot);
    }
    forall k | k in m.clients && HasWorker(m.clients[k].stage) && m.clients[k].msg.Some?
      ensures Joined(steps + [step], m.clients[k].msg.value.workerBoot)
    {
      StepFinds(n, step, k);
      StillJoined(steps, step, m.clients[k].msg.value.workerBoot);
    }
  }

  lemma AwaitingIsBound()
    ensures HasWorker(Awaiting)
  {
  }

  lemma JoinedGrows(n: Node, steps: seq<Step>, step: Step)
    requires AllJoined(n, steps)
    ensures AllJoined(n, steps + [step])
  {
    hide Joined, HasWorker;
    forall boot | Joined(steps, boot) ensures Joined(steps + [step], boot) {
      StillJoined(steps, step, boot);
    }
  }

  /** In every interleaving a frame is only ever sent to an incarnation that has joined. */
  lemma {:induction false} SentToJoined(w: World, steps: seq<Step>)
    ensures AllJoined(NodeAfter(w, steps), steps)
  {
    hide Next, Ready, Joined, HasWorker;
    if steps != [] {
      var front, step := steps[..|steps| - 1], steps[|steps| - 1];
      assert steps == front + [step];
      SentToJoined(w, front);
      if Ready(NodeAfter(w, front), step) {
        JoinedStep(NodeAfter(w, front), front, step);
      } else {
        JoinedGrows(NodeAfter(w, front), front, step);
      }
    }
  }

  lemma ForgottenWorker(n: Node, h: nat)
    requires Ready(n, Forget(h))
    ensures n.leaving[h] !in Next(n, Forget(h)).workers
  {
    hide Enabled, Apply, Orphaned;
  }

  /** Once a departure is dealt with, no client finds the incarnation until it joins again. */
  lemma {:induction false} DepartedStaysAway(w: World, steps: seq<Step>, i: nat, boot: Id)
    requires i < |steps| && steps[i].Forget? && Ready(NodeAfter(w, steps[..i]), steps[i])
    requires NodeAfter(w, steps[..i]).leaving[steps[i].handler] == boot
    requires forall j | i < j < |steps| :: steps[j] != WorkerJoins(boot)
    ensures boot !in NodeAfter(w, steps).workers
    decreases |steps|
  {
    hide Next, Ready;
    var front, step := steps[..|steps| - 1], steps[|steps| - 1];
    assert steps[..|front|] == front;
    if i == |front| {
      ForgottenWorker(NodeAfter(w, front), step.handler);
    } else {
      assert front[..i] == steps[..i];
      DepartedStaysAway(w, front, i, boot);
      if Ready(NodeAfter(w, front), step) && boot in Next(NodeAfter(w, front), step).workers {
        WorkersBy(NodeAfter(w, front), step, boot);
      }
    }
  }

  // ---- Giving up and leaving close plans ----

  lemma CancelCloses(s: State, p: Id)
    ensures p in s.plans ==> p in CancelPlan(s, p).0.plans && !Active(CancelPlan(s, p).0.plans[p].lifecycle)
  {
    hide Released;
  }

  /** A client that gives up leaves its plan closed; a worker that leaves has no live plan of its incarnation left. */
  lemma GivingUpCloses(n: Node, step: Step, p: Id)
    requires NodeInv(n) && Ready(n, step) && p in n.world.st.plans
    ensures p in Next(n, step).world.st.plans || !(step.CancelFor? || step.WorkerLeaves?)
    ensures step.CancelFor? && n.clients[step.client].plan == p ==>
              !Active(Next(n, step).world.st.plans[p].lifecycle)
    ensures step.WorkerLeaves? && n.world.st.plans[p].authority.snapshot.workerBoot == step.boot ==>
              !Live(Next(n, step).world.st.plans[p].lifecycle)
  {
    hide NodeInv, Enabled, Apply, Handles, CancelPlan, FenceWorker, Disconnect, FencedAs;
    if step.CancelFor? {
      Applied(n.world, CancelAsked(n.clients[step.client].plan));
      CancelCloses(n.world.st, n.clients[step.client].plan);
      if n.clients[step.client].plan != p {
        CancelSpares(n.world.st, n.clients[step.client].plan, p);
      }
    } else if step.WorkerLeaves? {
      AppliedSweep(n.world, WorkerDropped(step.boot));
      NodePlanWf(n, p);
      FenceFate(n.world.st, step.boot, p);
      FencedIsNotLive(n.world.st.plans[p].lifecycle, FenceWorker(n.world.st, step.boot).plans[p].lifecycle);
    }
  }

  lemma NodePlanWf(n: Node, p: Id)
    requires NodeInv(n) && p in n.world.st.plans
    ensures PlanWf(p, n.world.st.plans[p])
  {
    hide Inv, TablesOk, ClientsBound, RepliesBacked, DispatchesUsed;
    KnownOf(n.world);
    KnownPlans(n.world);
    WfAt(n.world.st.plans, p);
  }

  lemma FencedIsNotLive(o: Lifecycle, n: Lifecycle)
    ensures FencedAs(o, n) && o !in {RUNNING, VERIFYING, COMPLETED} ==> !Live(n)
  {
  }
}
