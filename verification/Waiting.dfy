/**
 Clients that wait for a worker that is gone. A client looks its worker up, confirms, and only then enters the table;
 if the worker's connection is cleared away in between, the entry comes too late to be cleared with it.
 */
module Waiting {
  import opened Types
  import opened Ordered
  import opened Engine
  import opened Runs
  import opened Node
  import opened NodeSafety

  /** The incarnation is connected, or its disconnection is still to be dealt with. */
  ghost predicate Attended(n: Node, boot: Id) {
    boot in n.workers || exists h :: h in n.leaving && n.leaving[h] == boot
  }

  ghost predicate AllAttended(n: Node) {
    forall d | d in n.pending :: Attended(n, n.pending[d].boot)
  }

  /** A client that enters the table does so while its worker is attended. */
  ghost predicate InTime(n: Node, step: Step) {
    step.AwaitFor? && Ready(n, step) ==> Attended(n, n.clients[step.client].msg.value.workerBoot)
  }

  // ---- Step by step ----

  lemma EnteringAttended(n: Node, k: nat)
    requires Ready(n, AwaitFor(k)) && AllAttended(n)
    ensures AllAttended(Next(n, AwaitFor(k))) <==> InTime(n, AwaitFor(k))
  {
    hide Enabled;
    var m, msg := Next(n, AwaitFor(k)), n.clients[k].msg.value;
    assert m.workers == n.workers && m.leaving == n.leaving;
    assert m.pending == n.pending[msg.dispatch := Waiter(k, msg.workerBoot)];
    assert Attended(m, msg.workerBoot) <==> Attended(n, msg.workerBoot);
    forall d | d in n.pending ensures Attended(m, n.pending[d].boot) {
    }
    assert m.pending[msg.dispatch].boot == msg.workerBoot;
  }

  lemma ForgettingAttended(n: Node, h: nat)
    requires h in n.leaving && AllAttended(n)
    ensures AllAttended(ResolveAll(n, n.leaving[h]).(leaving := n.leaving - {h}))
  {
    var boot, m := n.leaving[h], ResolveAll(n, n.leaving[h]).(leaving := n.leaving - {h});
    forall d | d in m.pending ensures Attended(m, m.pending[d].boot) {
      var other := n.pending[d].boot;
      assert d !in WaitingOn(n, boot) && m.pending[d].boot == other != boot;
      if other !in n.workers {
        var g :| g in n.leaving && n.leaving[g] == other;
        assert g in m.leaving && m.leaving[g] == other;
      }
    }
  }

  /** Everything else takes entries out, and only adds workers and departures. */
  lemma OthersAttended(n: Node, m: Node)
    requires AllAttended(n) && n.workers <= m.workers
    requires forall h | h in n.leaving :: h in m.leaving && m.leaving[h] == n.leaving[h]
    requires forall d | d in m.pending :: d in n.pending && m.pending[d] == n.pending[d]
    ensures AllAttended(m)
  {
    forall d | d in m.pending ensures Attended(m, m.pending[d].boot) {
      assert Attended(n, n.pending[d].boot);
    }
  }

  /** A client's own step touches nobody else, and of the tables only what its stage allows. */
  ghost predicate OwnStep(n: Node, m: Node, k: nat) {
    && m.workers == n.workers && m.leaving == n.leaving && m.pending == n.pending && m.answers == n.answers
    && (forall l | l in n.clients && l != k :: l in m.clients && m.clients[l] == n.clients[l])
  }

  lemma EarlyStep(n: Node, step: Step)
    requires Ready(n, step) && Early(step)
    ensures OwnStep(n, Handles(n, step), step.client)
  {
    hide Operates, Enabled, Reserve, ConfirmDispatched;
  }

  lemma PreparingStep(n: Node, step: Step)
    requires Ready(n, step) && step.PrepareFor?
    ensures OwnStep(n, Handles(n, step), step.client)
  {
    hide Operates, Enabled, PrepareDispatch;
  }

  lemma LateStep(n: Node, step: Step)
    requires Ready(n, step) && Late(step) && !step.AwaitFor?
    ensures OwnStep(n, Handles(n, step), step.client)
  {
    hide Operates, Enabled;
  }

  predicate ClientSteps(step: Step) {
    (Early(step) || step.PrepareFor? || Late(step)) && !step.AwaitFor?
  }

  lemma ClientStep(n: Node, step: Step)
    requires Ready(n, step) && ClientSteps(step)
    ensures OwnStep(n, Handles(n, step), step.client)
  {
    hide Handles, Ready, OwnStep;
    if Early(step) {
      EarlyStep(n, step);
    } else if step.PrepareFor? {
      PreparingStep(n, step);
    } else {
      LateStep(n, step);
    }
  }

  lemma ServerStep(n: Node, step: Step)
    requires Ready(n, step) && !Early(step) && !step.PrepareFor? && !Late(step) && !step.Forget?
    ensures var m := Handles(n, step);
            && n.workers <= m.workers && (forall d | d in m.pending :: d in n.pending && m.pending[d] == n.pending[d])
            && (forall h | h in n.leaving :: h in m.leaving && m.leaving[h] == n.leaving[h])
  {
    hide Operates, Enabled, ApplyResult, ReplyTo;
  }

  lemma ForgetStep(n: Node, h: nat)
    requires Ready(n, Forget(h))
    ensures Handles(n, Forget(h)) == ResolveAll(n, n.leaving[h]).(leaving := n.leaving - {h})
  {
    hide ResolveAll, Enabled;
  }

  lemma AttendedStep(n: Node, step: Step)
    requires Ready(n, step) && AllAttended(n)
    ensures AllAttended(Next(n, step)) <==> InTime(n, step)
  {
    hide Apply, AllAttended, Operates, Enabled, Attended, Handles;
    if step.AwaitFor? {
      EnteringAttended(n, step.client);
    } else if step.Forget? {
      ForgettingAttended(n, step.handler);
      ForgetStep(n, step.handler);
      var m := ResolveAll(n, n.leaving[step.handler]).(leaving := n.leaving - {step.handler});
      OthersAttended(m, Next(n, step));
    } else if ClientSteps(step) {
      ClientStep(n, step);
      OthersAttended(n, Next(n, step));
    } else {
      ServerStep(n, step);
      OthersAttended(n, Next(n, step));
    }
  }

  // ---- Every interleaving ----

  lemma AttendedNext(w: World, steps: seq<Step>, i: nat)
    requires i < |steps| && AllAttended(NodeAfter(w, steps[..i]))
    ensures AllAttended(NodeAfter(w, steps[..i + 1])) <==> InTime(NodeAfter(w, steps[..i]), steps[i])
  {
    hide Next, Ready, AllAttended, InTime;
    assert steps[..i + 1][..i] == steps[..i];
    if Ready(NodeAfter(w, steps[..i]), steps[i]) {
      AttendedStep(NodeAfter(w, steps[..i]), steps[i]);
    } else {
      Idle(NodeAfter(w, steps[..i]), steps[i]);
    }
  }

  lemma Idle(n: Node, step: Step)
    requires !Ready(n, step)
    ensures InTime(n, step)
  {
  }

  lemma {:induction false} AttendedUpTo(w: World, steps: seq<Step>, k: nat)
    requires k <= |steps| && forall i :: 0 <= i < k ==> InTime(NodeAfter(w, steps[..i]), steps[i])
    ensures AllAttended(NodeAfter(w, steps[..k]))
  {
    hide InTime, AllAttended, Next, Ready;
    if k == 0 {
      NobodyWaits(w);
      assert steps[..0] == [];
    } else {
      AttendedUpTo(w, steps, k - 1);
      AttendedNext(w, steps, k - 1);
    }
  }

  lemma NobodyWaits(w: World)
    ensures AllAttended(Start(w))
  {
  }

  /**
   In every interleaving, every waiting client's worker is connected or its disconnection still to be dealt with,
   after every step, if and only if every client that enters the table finds its worker so.
   */
  lemma AttendedIff(w: World, steps: seq<Step>)
    ensures (forall i :: 0 <= i <= |steps| ==> AllAttended(NodeAfter(w, steps[..i]))) <==>
            (forall i :: 0 <= i < |steps| ==> InTime(NodeAfter(w, steps[..i]), steps[i]))
  {
    hide InTime, AllAttended, NodeAfter;
    if forall i :: 0 <= i < |steps| ==> InTime(NodeAfter(w, steps[..i]), steps[i]) {
      forall k | 0 <= k <= |steps| ensures AllAttended(NodeAfter(w, steps[..k])) {
        AttendedUpTo(w, steps, k);
      }
    } else {
      var i :| 0 <= i < |steps| && !InTime(NodeAfter(w, steps[..i]), steps[i]);
      if AllAttended(NodeAfter(w, steps[..i])) {
        AttendedNext(w, steps, i);
        assert !AllAttended(NodeAfter(w, steps[..i + 1]));
      }
    }
  }

  /** A waiter whose worker is leaving is answered when the departure is dealt with. */
  lemma DepartureAnswers(n: Node, d: Id, h: nat)
    requires d in n.pending && h in n.leaving && n.leaving[h] == n.pending[d].boot
    ensures Ready(n, Forget(h))
    ensures var m := Next(n, Forget(h)); d !in m.pending && d in m.settled && m.settled[d].reply.ambiguous
  {
    hide Enabled, Mapped;
    assert d in WaitingOn(n, n.leaving[h]);
  }

  // ---- A client that is left behind ----

  /** Its frame is out, its worker is gone and nobody is about to answer it. */
  ghost predicate Stranded(n: Node, d: Id) {
    && d in n.pending && !Attended(n, n.pending[d].boot)
    && n.pending[d].client in n.clients && n.clients[n.pending[d].client].stage == Sent
    && (forall h | h in n.answers :: n.answers[h].dispatch != d)
  }

  /** What could still help: a result for the dispatch, or the same incarnation coming back or leaving again. */
  predicate Helps(n: Node, step: Step, d: Id)
    requires d in n.pending
  {
    || (step.ResultArrives? && step.result.dispatch == d)
    || (step.WorkerJoins? && step.boot == n.pending[d].boot)
    || (step.WorkerLeaves? && step.boot == n.pending[d].boot)
  }

  /** No other client has the dispatch. */
  lemma OthersDispatch(n: Node, d: Id, k: nat)
    requires NodeInv(n) && d in n.pending && k in n.clients && n.clients[k].msg.Some? && k != n.pending[d].client
    ensures n.clients[k].msg.value.dispatch != d
  {
    assert Owner(n, d, n.pending[d].client);
  }

  lemma StaysStranded(n: Node, m: Node, d: Id)
    requires Stranded(n, d) && d in m.pending && m.pending[d] == n.pending[d]
    requires n.pending[d].boot !in m.workers && forall h | h in m.leaving :: m.leaving[h] != n.pending[d].boot
    requires n.pending[d].client in m.clients && m.clients[n.pending[d].client] == n.clients[n.pending[d].client]
    requires forall h | h in m.answers :: m.answers[h].dispatch != d
    ensures Stranded(m, d)
  {
  }

  lemma StrandedFacts(n: Node, d: Id)
    requires Stranded(n, d)
    ensures d in n.pending && n.pending[d].client in n.clients && n.pending[d].boot !in n.workers
    ensures forall h | h in n.leaving :: n.leaving[h] != n.pending[d].boot
    ensures forall h | h in n.answers :: n.answers[h].dispatch != d
  {
  }

  lemma NotSettled(n: Node, d: Id)
    requires NodeInv(n) && d in n.pending
    ensures d !in n.settled && Owner(n, d, n.pending[d].client)
  {
  }

  /** None of its own steps is ready. */
  lemma SentWaits(n: Node, step: Step, d: Id)
    requires NodeInv(n) && Ready(n, step) && Stranded(n, d) && (ClientSteps(step) || step.AwaitFor? || step.FailFor?)
    ensures step.client != n.pending[d].client
  {
    NotSettled(n, d);
    hide NodeInv, Operates, Enabled, Attended;
  }

  lemma StrandedOwnSteps(n: Node, step: Step, d: Id)
    requires NodeInv(n) && Ready(n, step) && Stranded(n, d) && ClientSteps(step)
    ensures Stranded(Next(n, step), d)
  {
    hide Apply, Operates, Ready, Handles, NodeInv, Stranded;
    SentWaits(n, step, d);
    ClientStep(n, step);
    StrandedFacts(n, d);
    StaysStranded(n, Next(n, step), d);
  }

  lemma EntryFields(n: Node, k: nat)
    requires Ready(n, AwaitFor(k))
    ensures var m, msg := Handles(n, AwaitFor(k)), n.clients[k].msg.value;
            && m.workers == n.workers && m.leaving == n.leaving && m.answers == n.answers
            && m.pending == n.pending[msg.dispatch := Waiter(k, msg.workerBoot)]
            && (forall l | l in n.clients && l != k :: l in m.clients && m.clients[l] == n.clients[l])
  {
    hide Operates, Enabled;
  }

  lemma StrandedByEntry(n: Node, k: nat, d: Id)
    requires NodeInv(n) && Ready(n, AwaitFor(k)) && Stranded(n, d)
    ensures Stranded(Next(n, AwaitFor(k)), d)
  {
    SentWaits(n, AwaitFor(k), d);
    OthersDispatch(n, d, k);
    hide Enabled, NodeInv, Stranded, Handles, Apply;
    StrandedFacts(n, d);
    EntryFields(n, k);
    StaysStranded(n, Next(n, AwaitFor(k)), d);
  }

  lemma FailureFields(n: Node, k: nat)
    requires Ready(n, FailFor(k))
    ensures var m, msg := Handles(n, FailFor(k)), n.clients[k].msg.value;
            && m.workers == n.workers && m.leaving == n.leaving && m.answers == n.answers
            && (forall d | d in n.pending && d != msg.dispatch :: d in m.pending && m.pending[d] == n.pending[d])
            && (forall l | l in n.clients && l != k :: l in m.clients && m.clients[l] == n.clients[l])
  {
    hide Operates, Enabled;
  }

  lemma StrandedByFailure(n: Node, k: nat, d: Id)
    requires NodeInv(n) && Ready(n, FailFor(k)) && Stranded(n, d)
    ensures Stranded(Next(n, FailFor(k)), d)
  {
    SentWaits(n, FailFor(k), d);
    OthersDispatch(n, d, k);
    hide Enabled, NodeInv, Stranded, Handles, Apply;
    StrandedFacts(n, d);
    FailureFields(n, k);
    StaysStranded(n, Next(n, FailFor(k)), d);
  }

  lemma StrandedByReply(n: Node, h: nat, d: Id)
    requires Ready(n, Reply(h)) && Stranded(n, d)
    ensures Stranded(Next(n, Reply(h)), d)
  {
    hide Apply, Enabled, Attended;
    StrandedFacts(n, d);
    StaysStranded(n, Next(n, Reply(h)), d);
  }

  lemma StrandedByDeparture(n: Node, h: nat, d: Id)
    requires Ready(n, Forget(h)) && Stranded(n, d)
    ensures Stranded(Next(n, Forget(h)), d)
  {
    hide Apply, Enabled, Attended, Handles, Mapped, Orphaned;
    StrandedFacts(n, d);
    ForgetStep(n, h);
    assert d !in WaitingOn(n, n.leaving[h]);
    StaysStranded(n, Next(n, Forget(h)), d);
  }

  lemma NewsFields(n: Node, step: Step)
    requires Ready(n, step) && (step.ResultArrives? || step.WorkerJoins? || step.WorkerLeaves? || step.Other?)
    ensures var m := Handles(n, step);
            && m.pending == n.pending && m.clients == n.clients
            && m.workers == (if step.WorkerJoins? then n.workers + {step.boot} else n.workers)
            && m.leaving == (if step.WorkerLeaves? then n.leaving[step.handler := step.boot] else n.leaving)
            && (!step.ResultArrives? ==> m.answers == n.answers)
            && (forall h | h in m.answers && h !in n.answers ::
                  step.ResultArrives? && m.answers[h].dispatch == step.result.dispatch)
            && (forall h | h in n.answers :: h in m.answers && m.answers[h] == n.answers[h])
  {
    hide Operates, Enabled, ApplyResult, ReplyTo;
  }

  lemma StrandedByNews(n: Node, step: Step, d: Id)
    requires Ready(n, step) && (step.ResultArrives? || step.WorkerJoins? || step.WorkerLeaves? || step.Other?)
    requires Stranded(n, d) && !Helps(n, step, d)
    ensures Stranded(Next(n, step), d)
  {
    hide Apply, Operates, Enabled, Attended, Handles, Ready;
    StrandedFacts(n, d);
    NewsFields(n, step);
    StaysStranded(n, Next(n, step), d);
  }

  /** Nothing else ever answers it: in every continuation without such help it still waits. */
  lemma StrandedStep(n: Node, step: Step, d: Id)
    requires NodeInv(n) && Ready(n, step) && Stranded(n, d) && !Helps(n, step, d)
    ensures Stranded(Next(n, step), d)
  {
    hide Next, Ready, NodeInv, Stranded, Helps;
    if ClientSteps(step) {
      StrandedOwnSteps(n, step, d);
    } else if step.AwaitFor? {
      StrandedByEntry(n, step.client, d);
    } else if step.FailFor? {
      StrandedByFailure(n, step.client, d);
    } else if step.Reply? {
      StrandedByReply(n, step.handler, d);
    } else if step.Forget? {
      StrandedByDeparture(n, step.handler, d);
    } else {
      StrandedByNews(n, step, d);
    }
  }

  /** No step from the i-th on helps. */
  ghost predicate Helpless(w: World, steps: seq<Step>, i: nat, d: Id) {
    forall j | i <= j < |steps| && d in NodeAfter(w, steps[..j]).pending ::
      !Helps(NodeAfter(w, steps[..j]), steps[j], d)
  }

  /** In every interleaving a stranded client waits until help comes. */
  lemma {:induction false} StrandedLasts(c: Id, run: seq<Action>, steps: seq<Step>, i: nat, d: Id)
    requires Legal(c, run) && i <= |steps| && Stranded(NodeAfter(After(c, run), steps[..i]), d)
    requires Helpless(After(c, run), steps, i, d)
    ensures Stranded(NodeAfter(After(c, run), steps), d)
    decreases |steps|
  {
    hide After, Next, Ready, NodeInv, Stranded, Helps;
    if i == |steps| {
      assert steps[..i] == steps;
    } else {
      var front := steps[..|steps| - 1];
      assert front[..i] == steps[..i] && steps[..|front|] == front;
      forall j | i <= j < |front| && d in NodeAfter(After(c, run), front[..j]).pending
        ensures !Helps(NodeAfter(After(c, run), front[..j]), front[j], d)
      {
        assert front[..j] == steps[..j];
      }
      StrandedLasts(c, run, front, i, d);
      NodeRun(c, run, front);
      var n := NodeAfter(After(c, run), front);
      StrandedFacts(n, d);
      if Ready(n, steps[|front|]) {
        StrandedStep(n, steps[|front|], d);
      }
    }
  }
}
