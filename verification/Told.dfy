/**
 What a waiting client is told, exactly: every promise is settled once, by an answer, a failed send or a departure; a
 completion that commits queues an answer that says so; and a client hears of the commit if and only if that answer is
 what settles its promise.
 */
module Told {
  import opened Types
  import opened Ordered
  import opened Digest
  import opened Engine
  import opened Runs
  import opened PlanLifecycle
  import opened Safety
  import opened Node
  import opened NodeSafety
  import opened Waiting

  // ---- What a completion handler will say ----

  /** The completion turns its plan into a committed one. */
  predicate CommitsPlan(s: State, m: ResultMsg, id: Id) {
    var n := ApplyResult(s, m, id).0;
    && m.plan in s.plans && s.plans[m.plan].lifecycle != COMMITTED
    && m.plan in n.plans && n.plans[m.plan].lifecycle == COMMITTED
  }

  /** The news of a verified commit of what the worker sent. */
  predicate CommitNews(reply: ClientReplyMsg, m: ResultMsg) {
    && reply.ok && reply.plan == m.plan && reply.committed && !reply.ambiguous && reply.verification == VERIFIED
    && reply.outputDigest == m.outputDigest == HexDigest(m.output)
    && reply.outputBytes == |m.output| % TWO_64 && reply.note == m.note
  }

  lemma CommitIsNews(s: State, m: ResultMsg, id: Id)
    ensures CommitsPlan(s, m, id) ==> CommitNews(ReplyTo(m, ApplyResult(s, m, id).1), m)
    ensures !CommitsPlan(s, m, id) ==> !ReplyTo(m, ApplyResult(s, m, id).1).committed
  {
    hide CompletionMatches, HexDigest, Released;
  }

  /** A result that names another outcome is reported as that: unknown, mismatched or refused. */
  lemma OtherNews(s: State, m: ResultMsg, id: Id)
    requires !CommitsPlan(s, m, id)
    ensures var reply, l := ReplyTo(m, ApplyResult(s, m, id).1), ApplyResult(s, m, id).0.plans;
            && !reply.committed && (reply.ok <==> CompletionGuard(s, m).Ok?)
            && (reply.ok ==>
                 && m.plan in l && (reply.ambiguous <==> m.unknown)
                 && (m.unknown <==> l[m.plan].lifecycle == OUTCOME_UNKNOWN)
                 && (reply.verification == MISMATCH <==> l[m.plan].lifecycle == FAILED)
                 && (l[m.plan].lifecycle == FAILED <==> !m.unknown && HexDigest(m.output) != m.outputDigest))
            && (!reply.ok ==> !reply.ambiguous && ApplyResult(s, m, id).0 == s)
  {
    hide CompletionMatches, HexDigest, Released;
  }

  /** The stored result is under the identity it was given and carries what the worker sent with it. */
  lemma StoredAsSent(s: State, m: ResultMsg, id: Id)
    requires CompletionGuard(s, m).Ok?
    ensures var n := ApplyResult(s, m, id).0;
            && id in n.results && n.results == s.results[id := n.results[id]]
            && n.results[id].id == id && n.results[id].generation == m.resultGen && n.results[id].note == m.note
            && n.results[id].outputBytes == |m.output| % TWO_64
            && n.results[id].outputDigest == if m.unknown then [] else m.outputDigest
  {
    hide CompletionMatches, HexDigest, Released;
  }

  // ---- The tables, step by step ----

  predicate Resolves(step: Step) {
    step.FailFor? || step.Reply? || step.Forget?
  }

  lemma PlainEarly(n: Node, step: Step)
    requires Ready(n, step) && (Early(step) || step.PrepareFor?)
    ensures var m := Handles(n, step); m.settled == n.settled && m.answers == n.answers && m.pending == n.pending
  {
    hide Operates, Enabled, Reserve, ConfirmDispatched, PrepareDispatch;
  }

  lemma PlainLate(n: Node, step: Step)
    requires Ready(n, step) && Late(step)
    ensures var m := Handles(n, step);
            m.settled == n.settled && m.answers == n.answers && (!step.AwaitFor? ==> m.pending == n.pending)
  {
    hide Operates, Enabled;
  }

  lemma PlainClient(n: Node, step: Step)
    requires Ready(n, step) && (Early(step) || step.PrepareFor? || Late(step))
    ensures Handles(n, step).settled == n.settled && Handles(n, step).answers == n.answers
    ensures !step.AwaitFor? ==> Handles(n, step).pending == n.pending
  {
    hide Operates, Enabled, Ready, Handles;
    if Late(step) {
      PlainLate(n, step);
    } else {
      PlainEarly(n, step);
    }
  }

  lemma PlainServer(n: Node, step: Step)
    requires Ready(n, step) && (step.ResultArrives? || step.WorkerJoins? || step.WorkerLeaves? || step.Other?)
    ensures Handles(n, step).settled == n.settled && Handles(n, step).pending == n.pending
  {
    hide Operates, Enabled, ApplyResult, ReplyTo;
  }

  /** Only three steps take a promise out of the table. */
  lemma PlainStep(n: Node, step: Step)
    requires Ready(n, step) && !Resolves(step)
    ensures Next(n, step).settled == n.settled
    ensures !step.AwaitFor? ==> Next(n, step).pending == n.pending
    ensures forall d | d in n.pending :: d in Next(n, step).pending
  {
    hide Operates, Enabled, Ready, Handles, Apply;
    if step.ResultArrives? || step.WorkerJoins? || step.WorkerLeaves? || step.Other? {
      PlainServer(n, step);
    } else {
      PlainClient(n, step);
      if step.AwaitFor? {
        EntryFields(n, step.client);
      }
    }
  }

  /** What the three steps tell the client they settle. */
  predicate Settling(n: Node, step: Step, d: Id, reply: ClientReplyMsg)
    requires d in n.pending
  {
    match step
    case Reply(h) => h in n.answers && n.answers[h] == Answer(d, reply)
    case FailFor(k) =>
      && k in n.clients && n.clients[k].msg.Some? && n.clients[k].msg.value.dispatch == d
      && !reply.ok && !reply.committed && reply.ambiguous && reply.plan == n.clients[k].plan
    case Forget(h) =>
      && h in n.leaving && n.leaving[h] == n.pending[d].boot
      && !reply.ok && !reply.committed && reply.ambiguous
    case _ => false
  }

  lemma ReplyFields(n: Node, h: nat)
    requires Ready(n, Reply(h))
    ensures var m, a := Next(n, Reply(h)), n.answers[h];
            && m.pending == n.pending - {a.dispatch} && m.answers == n.answers - {h}
            && m.settled == if a.dispatch in n.pending
                            then n.settled[a.dispatch := Settlement(n.pending[a.dispatch].client, a.reply)]
                            else n.settled
  {
    hide Enabled, Apply;
  }

  lemma FailFields(n: Node, k: nat)
    requires Ready(n, FailFor(k))
    ensures var m, d := Next(n, FailFor(k)), n.clients[k].msg.value.dispatch;
            && m.pending == n.pending - {d} && m.answers == n.answers
            && m.settled == if d in n.pending
                            then n.settled[d := Settlement(n.pending[d].client,
                                                           Blank(n.clients[k].plan).(ambiguous := true))]
                            else n.settled
  {
    hide Enabled, Apply;
  }

  lemma ForgetFields(n: Node, h: nat, d: Id)
    requires Ready(n, Forget(h))
    ensures var m, boot := Next(n, Forget(h)), n.leaving[h];
            && m.answers == n.answers
            && (d in m.pending <==> d in n.pending && n.pending[d].boot != boot)
            && (d in m.settled <==> d in n.settled || (d in n.pending && n.pending[d].boot == boot))
            && (d in n.pending && n.pending[d].boot == boot ==>
                 m.settled[d] == Settlement(n.pending[d].client, Lost()))
            && (d in n.settled && d !in n.pending ==> m.settled[d] == n.settled[d])
  {
    hide Enabled, Apply, Mapped;
  }

  lemma SettlingStep(n: Node, step: Step, d: Id)
    requires NodeInv(n) && Ready(n, step) && d in n.pending && d !in Next(n, step).pending
    ensures d in Next(n, step).settled && Next(n, step).settled[d].client == n.pending[d].client
    ensures Settling(n, step, d, Next(n, step).settled[d].reply)
  {
    hide NodeInv, Next, Operates, Enabled;
    if step.Reply? {
      ReplyFields(n, step.handler);
    } else if step.FailFor? {
      FailFields(n, step.client);
    } else if step.Forget? {
      ForgetFields(n, step.handler, d);
    } else {
      PlainStep(n, step);
    }
  }

  lemma SettledKeeps(n: Node, step: Step, d: Id)
    requires NodeInv(n) && Ready(n, step) && d in n.settled
    ensures d in Next(n, step).settled && Next(n, step).settled[d] == n.settled[d]
  {
    hide NodeInv, Next, Operates, Enabled;
    if d in n.pending { NotSettled(n, d); }
    if step.Reply? {
      ReplyFields(n, step.handler);
    } else if step.FailFor? {
      FailFields(n, step.client);
    } else if step.Forget? {
      ForgetFields(n, step.handler, d);
    } else {
      PlainStep(n, step);
    }
  }

  lemma NewlySettled(n: Node, step: Step, d: Id)
    requires Ready(n, step) && d !in n.settled && d in Next(n, step).settled
    ensures d in n.pending && d !in Next(n, step).pending
  {
    hide Next, Operates, Enabled;
    if step.Reply? {
      ReplyFields(n, step.handler);
    } else if step.FailFor? {
      FailFields(n, step.client);
    } else if step.Forget? {
      ForgetFields(n, step.handler, d);
    } else {
      PlainStep(n, step);
    }
  }

  // ---- Promises over every interleaving ----

  /** The step that takes the promise of a dispatch out of the table. */
  predicate ResolvedAt(w: World, steps: seq<Step>, d: Id, j: nat) {
    && j < |steps| && Ready(NodeAfter(w, steps[..j]), steps[j])
    && d in NodeAfter(w, steps[..j]).pending && d !in NodeAfter(w, steps[..j + 1]).pending
  }

  lemma OneMore(w: World, steps: seq<Step>, j: nat)
    requires j < |steps|
    ensures var n := NodeAfter(w, steps[..j]);
            NodeAfter(w, steps[..j + 1]) == if Ready(n, steps[j]) then Next(n, steps[j]) else n
  {
    hide Ready, Next;
    assert steps[..j + 1][..j] == steps[..j];
  }

  lemma {:induction false} SettledLasts(c: Id, run: seq<Action>, steps: seq<Step>, i: nat, d: Id)
    requires Legal(c, run) && i <= |steps| && d in NodeAfter(After(c, run), steps[..i]).settled
    ensures d in NodeAfter(After(c, run), steps).settled
    ensures NodeAfter(After(c, run), steps).settled[d] == NodeAfter(After(c, run), steps[..i]).settled[d]
    decreases |steps|
  {
    hide After, Next, Ready, NodeInv;
    if i == |steps| {
      assert steps[..i] == steps;
    } else {
      var front := steps[..|steps| - 1];
      assert front[..i] == steps[..i];
      SettledLasts(c, run, front, i, d);
      NodeRun(c, run, front);
      var n := NodeAfter(After(c, run), front);
      if Ready(n, steps[|front|]) {
        SettledKeeps(n, steps[|front|], d);
      }
    }
  }

  /** Every settled promise was taken out of the table by some step. */
  lemma {:induction false} SettledIsResolved(w: World, steps: seq<Step>, d: Id) returns (j: nat)
    requires d in NodeAfter(w, steps).settled
    ensures ResolvedAt(w, steps, d, j)
    decreases |steps|
  {
    hide Next, Ready;
    var front := steps[..|steps| - 1];
    var n := NodeAfter(w, front);
    if d in n.settled {
      j := SettledIsResolved(w, front, d);
      assert front[..j] == steps[..j] && front[..j + 1] == steps[..j + 1];
    } else {
      j := |front|;
      NewlySettled(n, steps[j], d);
      assert steps[..j] == front && steps[..j + 1] == steps;
    }
  }

  /** In every interleaving the step that takes a promise out settles it, for its own client, and for good. */
  lemma SettledOnceFor(c: Id, run: seq<Action>, steps: seq<Step>, d: Id, j: nat)
    requires Legal(c, run) && ResolvedAt(After(c, run), steps, d, j)
    ensures var n, m := NodeAfter(After(c, run), steps[..j]), NodeAfter(After(c, run), steps);
            && d in m.settled && m.settled[d].client == n.pending[d].client
            && Settling(n, steps[j], d, m.settled[d].reply)
  {
    hide After, NodeAfter, Next, Ready, NodeInv, Settling;
    var w := After(c, run);
    NodeRun(c, run, steps[..j]);
    OneMore(w, steps, j);
    SettlingStep(NodeAfter(w, steps[..j]), steps[j], d);
    SettledLasts(c, run, steps, j + 1, d);
  }

  // ---- Answers over every interleaving ----

  /** The result that handler h is still to deliver after the steps arrived at step i. */
  ghost predicate QueuedAt(w: World, steps: seq<Step>, h: nat, i: nat) {
    && i < |steps| && steps[i].ResultArrives? && steps[i].handler == h && Ready(NodeAfter(w, steps[..i]), steps[i])
    && forall k | i < k < |steps| :: steps[k] != Reply(h)
  }

  function AnswerTo(s: State, m: ResultMsg, id: Id): Answer {
    Answer(m.dispatch, ReplyTo(m, ApplyResult(s, m, id).1))
  }

  lemma ResultFields(n: Node, step: Step)
    requires Ready(n, step) && step.ResultArrives?
    ensures step.handler !in n.answers
    ensures Next(n, step).answers == n.answers[step.handler := AnswerTo(n.world.st, step.result, step.id)]
  {
    hide Enabled, Apply, ApplyResult, ReplyTo;
  }

  lemma AnswersStay(n: Node, step: Step)
    requires Ready(n, step) && !step.ResultArrives? && !step.Reply?
    ensures Next(n, step).answers == n.answers
  {
    hide Operates, Enabled, Next, Ready;
    if step.FailFor? {
      FailFields(n, step.client);
    } else if step.Forget? {
      ForgetFields(n, step.handler, 0);
    } else {
      QuietAnswers(n, step);
    }
  }

  lemma QuietAnswers(n: Node, step: Step)
    requires Ready(n, step) && !step.ResultArrives? && !Resolves(step)
    ensures Next(n, step).answers == n.answers
  {
    hide Operates, Enabled, Ready, Handles, Apply;
    if step.WorkerJoins? || step.WorkerLeaves? || step.Other? {
      NewsFields(n, step);
    } else {
      PlainClient(n, step);
    }
  }

  lemma {:induction false} QueuedLasts(w: World, steps: seq<Step>, h: nat, i: nat)
    requires QueuedAt(w, steps, h, i)
    ensures var n := NodeAfter(w, steps[..i]);
            h in NodeAfter(w, steps).answers &&
            NodeAfter(w, steps).answers[h] == AnswerTo(n.world.st, steps[i].result, steps[i].id)
    decreases |steps|
  {
    hide Next, Ready, AnswerTo;
    var front := steps[..|steps| - 1];
    var n, step := NodeAfter(w, front), steps[|front|];
    assert steps[..|front|] == front;
    if i == |front| {
      ResultFields(n, step);
    } else {
      assert front[..i] == steps[..i];
      QueuedLasts(w, front, h, i);
      if Ready(n, step) {
        if step.ResultArrives? {
          ResultFields(n, step);
        } else if step.Reply? {
          ReplyFields(n, step.handler);
        } else {
          AnswersStay(n, step);
        }
      }
    }
  }

  lemma {:induction false} AnswerIsQueued(w: World, steps: seq<Step>, h: nat) returns (i: nat)
    requires h in NodeAfter(w, steps).answers
    ensures QueuedAt(w, steps, h, i)
    decreases |steps|
  {
    hide Next, Ready, AnswerTo;
    var front := steps[..|steps| - 1];
    var n, step := NodeAfter(w, front), steps[|front|];
    assert steps[..|front|] == front;
    if step.ResultArrives? && step.handler == h && Ready(n, step) {
      i := |front|;
    } else {
      if Ready(n, step) {
        if step.ResultArrives? {
          ResultFields(n, step);
        } else if step.Reply? {
          ReplyFields(n, step.handler);
        } else {
          AnswersStay(n, step);
        }
      }
      ReplyReady(n, h);
      i := AnswerIsQueued(w, front, h);
      assert front[..i] == steps[..i];
    }
  }

  lemma ReplyReady(n: Node, h: nat)
    ensures Ready(n, Reply(h)) <==> h in n.answers
  {
  }

  // ---- Who hears of a commit ----

  /** The answer delivered at step j is that of a completion for the dispatch that committed and arrived at step i. */
  ghost predicate DeliversCommit(w: World, steps: seq<Step>, d: Id, j: nat, i: nat) {
    && i < j < |steps| && steps[j].Reply? && QueuedAt(w, steps[..j], steps[j].handler, i)
    && steps[..j][i].ResultArrives? && steps[i].result.dispatch == d
    && CommitsPlan(NodeAfter(w, steps[..i]).world.st, steps[i].result, steps[i].id)
  }

  ghost predicate HearsCommit(w: World, steps: seq<Step>, d: Id, j: nat) {
    exists i: nat :: DeliversCommit(w, steps, d, j, i)
  }

  /**
   In every interleaving: if the client is still waiting when the answer of a committing completion is delivered, its
   promise is settled, for good, with the news of that commit: the digest, size and verification of that very output.
   */
  lemma CommitReachesClient(c: Id, run: seq<Action>, steps: seq<Step>, d: Id, i: nat, j: nat)
    requires Legal(c, run) && DeliversCommit(After(c, run), steps, d, j, i)
    requires d in NodeAfter(After(c, run), steps[..j]).pending
    ensures var n, m := NodeAfter(After(c, run), steps[..j]), NodeAfter(After(c, run), steps);
            && ResolvedAt(After(c, run), steps, d, j)
            && d in m.settled && m.settled[d].client == n.pending[d].client
            && CommitNews(m.settled[d].reply, steps[i].result)
  {
    hide After, NodeAfter, Next, Ready, CommitsPlan, CommitNews, ApplyResult;
    var w, h := After(c, run), steps[j].handler;
    assert steps[..j][..i] == steps[..i];
    QueuedLasts(w, steps[..j], h, i);
    CommitIsNews(NodeAfter(w, steps[..i]).world.st, steps[i].result, steps[i].id);
    var n := NodeAfter(w, steps[..j]);
    ReplyReady(n, h);
    OneMore(w, steps, j);
    ReplyFields(n, h);
    SettledOnceFor(c, run, steps, d, j);
  }

  /**
   In every interleaving the client whose promise was taken out at step j was told of a commit if and only if that step
   delivered the answer of a completion for its dispatch that committed. In every other case (the worker's departure, a
   failed send, or the answer of a completion that did not commit) it was told something else, committed or not.
   */
  lemma HearsOfCommitIff(c: Id, run: seq<Action>, steps: seq<Step>, d: Id, j: nat)
    requires Legal(c, run) && ResolvedAt(After(c, run), steps, d, j)
    ensures d in NodeAfter(After(c, run), steps).settled
    ensures NodeAfter(After(c, run), steps).settled[d].reply.committed <==> HearsCommit(After(c, run), steps, d, j)
    ensures steps[j].Reply? || steps[j].FailFor? || steps[j].Forget?
  {
    hide After, NodeAfter, Next, Ready, DeliversCommit, ResolvedAt;
    var w := After(c, run);
    ResolvedFacts(w, steps, d, j);
    SettledOnceFor(c, run, steps, d, j);
    if steps[j].Reply? {
      var i := CommittedAnswer(w, steps, j);
      forall k | DeliversCommit(w, steps, d, j, k) ensures k == i {
        DeliveredFacts(w, steps, d, j, k);
        SameArrival(w, steps[..j], steps[j].handler, i, k);
      }
    } else if k: nat :| DeliversCommit(w, steps, d, j, k) {
      DeliveredFacts(w, steps, d, j, k);
    }
  }

  lemma ResolvedFacts(w: World, steps: seq<Step>, d: Id, j: nat)
    requires ResolvedAt(w, steps, d, j)
    ensures j < |steps| && d in NodeAfter(w, steps[..j]).pending
  {
  }

  lemma DeliveredFacts(w: World, steps: seq<Step>, d: Id, j: nat, i: nat)
    requires DeliversCommit(w, steps, d, j, i)
    ensures i < j < |steps| && steps[j].Reply? && QueuedAt(w, steps[..j], steps[j].handler, i)
  {
  }

  /** The answer a handler delivers is that of the result it took, and says committed exactly if that committed. */
  lemma CommittedAnswer(w: World, steps: seq<Step>, j: nat) returns (i: nat)
    requires j < |steps| && steps[j].Reply? && steps[j].handler in NodeAfter(w, steps[..j]).answers
    ensures QueuedAt(w, steps[..j], steps[j].handler, i)
    ensures var a := NodeAfter(w, steps[..j]).answers[steps[j].handler];
            a.reply.committed <==> DeliversCommit(w, steps, a.dispatch, j, i)
  {
    hide NodeAfter, Next, Ready, CommitsPlan, CommitNews, ApplyResult, ReplyTo;
    i := AnswerIsQueued(w, steps[..j], steps[j].handler);
    assert steps[..j][..i] == steps[..i];
    QueuedLasts(w, steps[..j], steps[j].handler, i);
    CommitIsNews(NodeAfter(w, steps[..i]).world.st, steps[i].result, steps[i].id);
    NewsIsCommitted(ReplyTo(steps[i].result, ApplyResult(NodeAfter(w, steps[..i]).world.st, steps[i].result,
                                                         steps[i].id).1), steps[i].result);
  }

  lemma NewsIsCommitted(reply: ClientReplyMsg, m: ResultMsg)
    ensures CommitNews(reply, m) ==> reply.committed
  {
  }

  /** A handler that has not delivered its answer takes no other result. */
  lemma SameArrival(w: World, steps: seq<Step>, h: nat, i: nat, k: nat)
    requires QueuedAt(w, steps, h, i) && QueuedAt(w, steps, h, k)
    ensures i == k
  {
    hide NodeAfter, Next, Ready;
    if i < k {
      EarlierBlocks(w, steps, h, i, k);
    } else if k < i {
      EarlierBlocks(w, steps, h, k, i);
    }
  }

  lemma EarlierBlocks(w: World, steps: seq<Step>, h: nat, i: nat, k: nat)
    requires QueuedAt(w, steps, h, i) && QueuedAt(w, steps, h, k)
    ensures !(i < k)
  {
    hide NodeAfter, Next, Ready, AnswerTo;
    if i < k {
      assert steps[..k][..i] == steps[..i];
      forall l | i < l < k ensures steps[..k][l] != Reply(h) {
        assert steps[..k][l] == steps[l];
      }
      QueuedLasts(w, steps[..k], h, i);
      ResultFields(NodeAfter(w, steps[..k]), steps[k]);
    }
  }

  // ---- What the client is handed ----

  /** A client that is done was handed what its promise was settled with, if it had one. */
  predicate Handed(n: Node, c: Client) {
    c.stage.Done? && c.msg.Some? ==>
      var d := c.msg.value.dispatch;
      d !in n.pending && (d in n.settled ==> c.stage.reply == n.settled[d].reply)
  }

  ghost predicate AllHanded(n: Node) {
    forall k | k in n.clients :: Handed(n, n.clients[k])
  }

  /** How a client comes to be done: from outside the table, or by collecting its promise. */
  predicate Finishes(n: Node, step: Step, k: nat, c: Client) {
    c.stage.Done? && c.msg.Some? ==>
      && k in n.clients && c.msg == n.clients[k].msg
      && (|| c == n.clients[k]
          || !Enrolled(n.clients[k].stage)
          || (c.msg.value.dispatch in n.settled && c.stage.reply == n.settled[c.msg.value.dispatch].reply
              && !step.AwaitFor? && !Resolves(step)))
  }

  lemma EarlyFinishes(n: Node, step: Step, k: nat)
    requires Ready(n, step) && Early(step) && k in Handles(n, step).clients
    ensures Finishes(n, step, k, Handles(n, step).clients[k])
  {
    hide Operates, Reserve, ConfirmDispatched, Enabled;
  }

  lemma PrepareFinishes(n: Node, step: Step, k: nat)
    requires Ready(n, step) && step.PrepareFor? && k in Handles(n, step).clients
    ensures Finishes(n, step, k, Handles(n, step).clients[k])
  {
    hide Operates, PrepareDispatch, Enabled;
  }

  lemma LateFinishes(n: Node, step: Step, k: nat)
    requires Ready(n, step) && Late(step) && k in Handles(n, step).clients
    ensures Finishes(n, step, k, Handles(n, step).clients[k])
  {
    hide Operates, Enabled;
  }

  lemma OtherFinishes(n: Node, step: Step, k: nat)
    requires Ready(n, step) && !Early(step) && !step.PrepareFor? && !Late(step) && k in Handles(n, step).clients
    ensures Finishes(n, step, k, Handles(n, step).clients[k])
  {
    hide Operates, ApplyResult, Enabled, ResolveAll, Resolve, ReplyTo;
    if step.Reply? {
      ResolveClients(n, n.answers[step.handler].dispatch, n.answers[step.handler].reply);
    } else if step.FailFor? {
      var c := n.clients[step.client];
      ResolveClients(n, c.msg.value.dispatch, Blank(c.plan).(ambiguous := true));
    }
  }

  lemma StepFinishes(n: Node, step: Step, k: nat)
    requires Ready(n, step) && k in Next(n, step).clients
    ensures Finishes(n, step, k, Next(n, step).clients[k])
  {
    hide Apply, Handles, Ready, Finishes, Operates;
    if Early(step) {
      EarlyFinishes(n, step, k);
    } else if step.PrepareFor? {
      PrepareFinishes(n, step, k);
    } else if Late(step) {
      LateFinishes(n, step, k);
    } else {
      OtherFinishes(n, step, k);
    }
  }

  lemma UntrackedOutside(n: Node, k: nat)
    requires NodeInv(n) && k in n.clients && n.clients[k].msg.Some? && !Enrolled(n.clients[k].stage)
    ensures !Tracked(n, n.clients[k].msg.value.dispatch)
  {
    hide Inv, DispatchesUsed, BoundTo, Backed, ClientOk;
  }

  lemma EntersOwn(n: Node, k: nat, l: nat)
    requires NodeInv(n) && Ready(n, AwaitFor(l)) && k in n.clients && n.clients[k].msg.Some? && n.clients[k].stage.Done?
    ensures n.clients[l].msg.value.dispatch != n.clients[k].msg.value.dispatch
  {
    hide Inv, DispatchesUsed, BoundTo, Backed, ClientOk, Enabled;
  }

  /** The promise of a client that is done stays as it is. */
  lemma PromiseStays(n: Node, step: Step, k: nat)
    requires NodeInv(n) && Ready(n, step) && k in n.clients && Handed(n, n.clients[k]) && n.clients[k].stage.Done?
    ensures Handed(Next(n, step), n.clients[k])
  {
    hide NodeInv, Next, Operates, Enabled;
    if n.clients[k].msg.Some? {
      var d := n.clients[k].msg.value.dispatch;
      if d in n.settled {
        SettledKeeps(n, step, d);
      } else if d in Next(n, step).settled {
        NewlySettled(n, step, d);
      }
      NoneEnters(n, step, k);
    }
  }

  lemma NoneEnters(n: Node, step: Step, k: nat)
    requires NodeInv(n) && Ready(n, step) && k in n.clients && n.clients[k].msg.Some? && n.clients[k].stage.Done?
    requires n.clients[k].msg.value.dispatch !in n.pending
    ensures n.clients[k].msg.value.dispatch !in Next(n, step).pending
  {
    hide NodeInv, Operates, Enabled, Handles, Apply;
    if step.AwaitFor? {
      EntersOwn(n, k, step.client);
      EntryFields(n, step.client);
    } else if step.Reply? {
      ReplyFields(n, step.handler);
    } else if step.FailFor? {
      FailFields(n, step.client);
    } else if step.Forget? {
      ForgetFields(n, step.handler, n.clients[k].msg.value.dispatch);
    } else {
      PlainStep(n, step);
    }
  }

  lemma FinishedOutside(n: Node, step: Step, k: nat)
    requires NodeInv(n) && Ready(n, step) && k in n.clients && n.clients[k].msg.Some? && !Enrolled(n.clients[k].stage)
    requires !step.AwaitFor?
    ensures !Tracked(Next(n, step), n.clients[k].msg.value.dispatch)
  {
    hide NodeInv, Next, Operates, Enabled;
    var d := n.clients[k].msg.value.dispatch;
    UntrackedOutside(n, k);
    if d in Next(n, step).settled {
      NewlySettled(n, step, d);
    }
    if step.Reply? {
      ReplyFields(n, step.handler);
    } else if step.FailFor? {
      FailFields(n, step.client);
    } else if step.Forget? {
      ForgetFields(n, step.handler, d);
    } else {
      PlainStep(n, step);
    }
  }

  lemma HandedStep(n: Node, step: Step, k: nat)
    requires NodeInv(n) && Ready(n, step) && AllHanded(n) && k in Next(n, step).clients
    ensures Handed(Next(n, step), Next(n, step).clients[k])
  {
    hide NodeInv, Next, Ready, Enrolled;
    var c := Next(n, step).clients[k];
    StepFinishes(n, step, k);
    if c.stage.Done? && c.msg.Some? {
      if c == n.clients[k] {
        PromiseStays(n, step, k);
      } else if !Enrolled(n.clients[k].stage) {
        if step.AwaitFor? {
          AwaitingIsNotDone(n, step, k);
        } else {
          FinishedOutside(n, step, k);
        }
      } else {
        Collected(n, step, c);
      }
    }
  }

  lemma AwaitingIsNotDone(n: Node, step: Step, k: nat)
    requires Ready(n, step) && step.AwaitFor? && k in n.clients && k in Next(n, step).clients
    ensures Next(n, step).clients[k] == n.clients[k] || !Next(n, step).clients[k].stage.Done?
  {
    hide Enabled, Apply;
  }

  lemma Collected(n: Node, step: Step, c: Client)
    requires NodeInv(n) && Ready(n, step) && !step.AwaitFor? && !Resolves(step) && c.stage.Done? && c.msg.Some?
    requires c.msg.value.dispatch in n.settled && c.stage.reply == n.settled[c.msg.value.dispatch].reply
    ensures Handed(Next(n, step), c)
  {
    hide NodeInv, Next, Ready;
    PlainStep(n, step);
    if c.msg.value.dispatch in n.pending {
      NotSettled(n, c.msg.value.dispatch);
    }
  }

  lemma {:induction false} NodeHanded(c: Id, run: seq<Action>, steps: seq<Step>)
    requires Legal(c, run)
    ensures AllHanded(NodeAfter(After(c, run), steps))
    decreases |steps|
  {
    hide After, Next, NodeInv, Ready, Handed;
    if steps != [] {
      var front, step := steps[..|steps| - 1], steps[|steps| - 1];
      NodeHanded(c, run, front);
      NodeRun(c, run, front);
      var n := NodeAfter(After(c, run), front);
      if Ready(n, step) {
        forall k | k in Next(n, step).clients ensures Handed(Next(n, step), Next(n, step).clients[k]) {
          HandedStep(n, step, k);
        }
      }
    }
  }

  /** In every interleaving, a client that is done and whose promise was settled was handed exactly that reply. */
  lemma ClientHearsItsPromise(c: Id, run: seq<Action>, steps: seq<Step>, k: nat)
    requires Legal(c, run) && k in NodeAfter(After(c, run), steps).clients
    requires var x := NodeAfter(After(c, run), steps).clients[k];
             x.stage.Done? && x.msg.Some? && x.msg.value.dispatch in NodeAfter(After(c, run), steps).settled
    ensures var n := NodeAfter(After(c, run), steps);
            n.clients[k].stage.reply == n.settled[n.clients[k].msg.value.dispatch].reply
  {
    hide After, NodeAfter;
    NodeHanded(c, run, steps);
    assert Handed(NodeAfter(After(c, run), steps), NodeAfter(After(c, run), steps).clients[k]);
  }
}
