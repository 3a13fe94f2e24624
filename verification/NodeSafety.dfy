/** What every interleaving of the process's handlers keeps. */
module NodeSafety {
  import opened Types
  import opened Engine
  import opened Runs
  import opened PlanLifecycle
  import opened Safety
  import opened Delivery
  import opened Node

  // ---- The tables ----

  /** The client has put its promise in the table. */
  predicate Enrolled(stage: Stage) {
    stage.Awaiting? || stage.Sent? || stage.Failing? || stage.Cancelling? || stage.Done?
  }

  predicate Owner(n: Node, d: Id, k: nat) {
    && k in n.clients && n.clients[k].msg.Some? && n.clients[k].msg.value.dispatch == d && Enrolled(n.clients[k].stage)
  }

  predicate Tracked(n: Node, d: Id) {
    d in n.pending || d in n.settled
  }

  predicate ClientOk(n: Node, c: Client) {
    && (c.msg.Some? ==> c.msg.value.plan == c.plan && c.msg.value.dispatch in n.world.used.dispatches)
    && (c.stage.Awaiting? || c.stage.Sent? || c.stage.Failing? || c.stage.Cancelling? ==>
          c.msg.Some? && Tracked(n, c.msg.value.dispatch))
  }

  ghost predicate ClientsOk(n: Node) {
    forall k | k in n.clients :: ClientOk(n, n.clients[k])
  }

  ghost predicate DispatchesDistinct(n: Node) {
    forall k, l | k in n.clients && l in n.clients && n.clients[k].msg.Some? && n.clients[l].msg.Some?
                  && n.clients[k].msg.value.dispatch == n.clients[l].msg.value.dispatch :: k == l
  }

  ghost predicate PendingOk(n: Node) {
    forall d | d in n.pending :: Owner(n, d, n.pending[d].client) && d !in n.settled
  }

  ghost predicate SettledOk(n: Node) {
    !n.broken && forall d | d in n.settled :: Owner(n, d, n.settled[d].client)
  }

  ghost predicate SentOk(n: Node) {
    forall m | m in n.sent :: Tracked(n, m.dispatch)
  }

  ghost predicate TablesOk(n: Node) {
    ClientsOk(n) && DispatchesDistinct(n) && PendingOk(n) && SettledOk(n) && SentOk(n)
  }

  /** Moving a client on keeps the tables, as long as it does not leave the table stages. */
  lemma StandsKeeps(n: Node, k: nat, stage: Stage)
    requires TablesOk(n) && k in n.clients
    requires Enrolled(n.clients[k].stage) ==> Enrolled(stage)
    requires stage.Awaiting? || stage.Sent? || stage.Failing? || stage.Cancelling? ==>
               n.clients[k].msg.Some? && Tracked(n, n.clients[k].msg.value.dispatch)
    ensures TablesOk(Stands(n, k, stage))
  {
  }

  /** Entries move from the pending to the settled table, with the client they belong to. */
  ghost predicate Settles(n: Node, m: Node) {
    && m == n.(pending := m.pending, settled := m.settled, broken := m.broken, workers := m.workers) && !m.broken
    && (forall d | d in m.pending :: d in n.pending && m.pending[d] == n.pending[d] && d !in m.settled)
    && (forall d | d in m.settled ::
         || (d in n.settled && m.settled[d] == n.settled[d])
         || (d in n.pending && m.settled[d].client == n.pending[d].client))
    && (forall d | Tracked(n, d) :: Tracked(m, d))
  }

  lemma SettlingKeeps(n: Node, m: Node)
    requires TablesOk(n) && Settles(n, m)
    ensures TablesOk(m)
  {
    hide ClientOk, Enrolled;
    assert forall d, k | Owner(n, d, k) :: Owner(m, d, k);
    forall c | ClientOk(n, c) ensures ClientOk(m, c) {
      ClientTracked(n, m, c);
    }
  }

  lemma ClientTracked(n: Node, m: Node, c: Client)
    requires ClientOk(n, c) && m.world == n.world && forall d | Tracked(n, d) :: Tracked(m, d)
    ensures ClientOk(m, c)
  {
  }

  lemma ResolveKeeps(n: Node, d: Id, reply: ClientReplyMsg)
    requires TablesOk(n)
    ensures TablesOk(Resolve(n, d, reply)) && Resolve(n, d, reply).clients == n.clients
    ensures forall e | Tracked(n, e) :: Tracked(Resolve(n, d, reply), e)
  {
    hide ClientsOk, DispatchesDistinct, SentOk, Owner;
    assert Settles(n, Resolve(n, d, reply));
    SettlingKeeps(n, Resolve(n, d, reply));
  }

  lemma ResolveAllKeeps(n: Node, boot: Id)
    requires TablesOk(n)
    ensures TablesOk(ResolveAll(n, boot))
  {
    hide ClientsOk, DispatchesDistinct, SentOk, Owner;
    assert WaitingOn(n, boot) * n.settled.Keys == {};
    assert Settles(n, ResolveAll(n, boot));
    SettlingKeeps(n, ResolveAll(n, boot));
  }

  lemma AwaitKeeps(n: Node, k: nat)
    requires TablesOk(n) && k in n.clients && n.clients[k].stage == Confirmed && n.clients[k].msg.Some?
    ensures var msg := n.clients[k].msg.value;
            TablesOk(Stands(n, k, Awaiting).(pending := n.pending[msg.dispatch := Waiter(k, msg.workerBoot)]))
  {
  }

  // ---- The tables against the coordinator ----

  /** Dispatch identities on record were handed out. */
  ghost predicate DispatchesUsed(plans: map<Id, Plan>, used: set<Id>) {
    forall p | p in plans && plans[p].dispatchId.Some? :: plans[p].dispatchId.value in used
  }

  /** A plan that carries a client's dispatch is the plan the client asked for. */
  predicate BoundTo(plans: map<Id, Plan>, c: Client) {
    c.msg.Some? ==>
      forall p | p in plans && plans[p].dispatchId == Some(c.msg.value.dispatch) :: p == c.plan
  }

  ghost predicate ClientsBound(n: Node) {
    forall k | k in n.clients :: BoundTo(n.world.st.plans, n.clients[k])
  }

  /** A reply that says committed is backed by the plan that carries the dispatch, and by a stored result. */
  ghost predicate Backed(s: State, d: Id, reply: ClientReplyMsg) {
    reply.committed ==>
      && reply.plan in s.plans && s.plans[reply.plan].lifecycle == COMMITTED
      && s.plans[reply.plan].dispatchId == Some(d)
      && exists r :: r in s.results && s.results[r].plan == reply.plan && s.results[r].committed
                     && s.results[r].outputDigest == reply.outputDigest
  }

  ghost predicate RepliesBacked(n: Node) {
    && (forall h | h in n.answers :: Backed(n.world.st, n.answers[h].dispatch, n.answers[h].reply))
    && (forall d | d in n.settled :: Backed(n.world.st, d, n.settled[d].reply))
  }

  ghost predicate NodeInv(n: Node) {
    && Inv(n.world) && DispatchesUsed(n.world.st.plans, n.world.used.dispatches)
    && TablesOk(n) && ClientsBound(n) && RepliesBacked(n)
  }

  // ---- A step of the coordinator ----

  lemma MovedUsed(old_: map<Id, Plan>, new_: map<Id, Plan>, a: Action, used: set<Id>)
    requires Moves(old_, new_, a) && DispatchesUsed(old_, used)
    ensures DispatchesUsed(new_, used + NewIds(a).dispatches)
  {
    hide Evolves, PlansEvolve;
    forall p | p in new_ && new_[p].dispatchId.Some? ensures new_[p].dispatchId.value in used + NewIds(a).dispatches {
      if p in old_ {
        assert Caused(p, old_[p], new_[p], a);
      }
    }
  }

  lemma MovedBound(old_: map<Id, Plan>, new_: map<Id, Plan>, a: Action, c: Client)
    requires Moves(old_, new_, a) && BoundTo(old_, c)
    requires c.msg.Some? ==> c.msg.value.dispatch !in NewIds(a).dispatches
    ensures BoundTo(new_, c)
  {
    hide Evolves, PlansEvolve;
    if c.msg.Some? {
      forall p | p in new_ && new_[p].dispatchId == Some(c.msg.value.dispatch) ensures p == c.plan {
        if p in old_ {
          assert Caused(p, old_[p], new_[p], a);
        }
      }
    }
  }

  lemma MovedBacked(s: State, n: State, a: Action, d: Id, reply: ClientReplyMsg)
    requires Moves(s.plans, n.plans, a) && Extends(s.results, n.results) && Backed(s, d, reply)
    ensures Backed(n, d, reply)
  {
    hide Evolves, PlanWf, PlansCaused, PlansEnter;
    if reply.committed {
      var p := reply.plan;
      assert Evolves(s.plans[p], n.plans[p]);
      CommittedStays(s.plans[p], n.plans[p]);
      var r :| r in s.results && s.results[r].plan == p && s.results[r].committed
               && s.results[r].outputDigest == reply.outputDigest;
      assert r in n.results && n.results[r] == s.results[r];
    }
  }

  lemma ResultsUsed(w: World)
    requires Inv(w)
    ensures w.st.results.Keys <= w.used.results
  {
  }

  lemma CommittedStays(o: Plan, n: Plan)
    requires Evolves(o, n) && o.lifecycle == COMMITTED
    ensures n == o
  {
  }

  lemma CoordinatorStep(n: Node, a: Action)
    requires NodeInv(n) && Enabled(n.world, a) && !a.Loaded?
    ensures NodeInv(n.(world := Apply(n.world, a)))
  {
    hide Inv, Apply, DispatchesUsed, BoundTo, Backed, TablesOk, Moves, Extends, Known;
    var s, m := n.world.st, n.(world := Apply(n.world, a));
    StepInv(n.world, a);
    KnownOf(n.world);
    ResultsUsed(n.world);
    StepMoves(n.world, a);
    ResultsAccumulate(n.world, a);
    UsedAfter(n.world, a);
    MovedUsed(s.plans, m.world.st.plans, a, n.world.used.dispatches);
    SameTables(n, m);
    forall k | k in n.clients ensures BoundTo(m.world.st.plans, n.clients[k]) {
      if n.clients[k].msg.Some? { ClientUsed(n, k); }
      MovedBound(s.plans, m.world.st.plans, a, n.clients[k]);
    }
    forall h | h in n.answers ensures Backed(m.world.st, n.answers[h].dispatch, n.answers[h].reply) {
      MovedBacked(s, m.world.st, a, n.answers[h].dispatch, n.answers[h].reply);
    }
    forall d | d in n.settled ensures Backed(m.world.st, d, n.settled[d].reply) {
      MovedBacked(s, m.world.st, a, d, n.settled[d].reply);
    }
  }

  lemma ClientUsed(n: Node, k: nat)
    requires TablesOk(n) && k in n.clients && n.clients[k].msg.Some?
    ensures n.clients[k].msg.value.dispatch in n.world.used.dispatches
  {
    assert ClientOk(n, n.clients[k]);
  }

  lemma SameTables(n: Node, m: Node)
    requires TablesOk(n) && m == n.(world := m.world) && n.world.used.dispatches <= m.world.used.dispatches
    ensures TablesOk(m)
  {
    assert forall c | ClientOk(n, c) :: ClientOk(m, c);
    assert forall d, k | Owner(n, d, k) :: Owner(m, d, k);
  }

  // ---- A step of the tables ----

  lemma Moved(n: Node, k: nat, stage: Stage)
    requires NodeInv(n) && k in n.clients
    requires Enrolled(n.clients[k].stage) ==> Enrolled(stage)
    requires stage.Awaiting? || stage.Sent? || stage.Failing? || stage.Cancelling? ==>
               n.clients[k].msg.Some? && Tracked(n, n.clients[k].msg.value.dispatch)
    ensures NodeInv(Stands(n, k, stage))
  {
    hide Inv, DispatchesUsed, TablesOk, Backed;
    StandsKeeps(n, k, stage);
    forall l | l in n.clients ensures BoundTo(n.world.st.plans, Stands(n, k, stage).clients[l]) {
      assert BoundTo(n.world.st.plans, n.clients[l]);
    }
  }

  /** A client that has no promise in the table can be put in, or given its message. */
  lemma EnterTables(n: Node, k: nat, c: Client)
    requires TablesOk(n) && !Enrolled(c.stage) && ClientOk(n, c)
    requires k in n.clients ==> !Enrolled(n.clients[k].stage)
    requires c.msg.Some? ==> forall l | l in n.clients && l != k && n.clients[l].msg.Some? ::
                               n.clients[l].msg.value.dispatch != c.msg.value.dispatch
    ensures TablesOk(n.(clients := n.clients[k := c]))
  {
    hide ClientOk, Enrolled;
    var m := n.(clients := n.clients[k := c]);
    assert forall d, l | Owner(n, d, l) :: Owner(m, d, l);
    forall d | ClientOk(n, d) ensures ClientOk(m, d) {
      ClientStaysOk(n, m, d);
    }
  }

  lemma ClientStaysOk(n: Node, m: Node, c: Client)
    requires ClientOk(n, c) && m.world == n.world && m.pending == n.pending && m.settled == n.settled
    ensures ClientOk(m, c)
  {
  }

  lemma Entered(n: Node, k: nat, c: Client)
    requires NodeInv(n) && !Enrolled(c.stage) && ClientOk(n, c) && BoundTo(n.world.st.plans, c)
    requires k in n.clients ==> !Enrolled(n.clients[k].stage)
    requires c.msg.Some? ==> forall l | l in n.clients && l != k && n.clients[l].msg.Some? ::
                               n.clients[l].msg.value.dispatch != c.msg.value.dispatch
    ensures NodeInv(n.(clients := n.clients[k := c]))
  {
    hide Inv, DispatchesUsed, Backed, TablesOk, BoundTo, ClientOk, Enrolled;
    EnterTables(n, k, c);
  }

  lemma Requested(n: Node, k: nat, p: Id)
    requires NodeInv(n) && k !in n.clients
    ensures NodeInv(n.(clients := n.clients[k := Client(p, None, Asked)]))
  {
    hide NodeInv;
    Entered(n, k, Client(p, None, Asked));
  }

  lemma Dispatched(n: Node, k: nat, msg: DispatchMsg)
    requires NodeInv(n) && k in n.clients && n.clients[k].stage == Held
    requires msg.plan == n.clients[k].plan && msg.dispatch in n.world.used.dispatches
    requires forall l | l in n.clients && n.clients[l].msg.Some? :: n.clients[l].msg.value.dispatch != msg.dispatch
    requires BoundTo(n.world.st.plans, Client(n.clients[k].plan, Some(msg), Prepared))
    ensures NodeInv(n.(clients := n.clients[k := Client(n.clients[k].plan, Some(msg), Prepared)]))
  {
    hide NodeInv, BoundTo;
    Entered(n, k, Client(n.clients[k].plan, Some(msg), Prepared));
  }

  lemma Awaited(n: Node, k: nat)
    requires NodeInv(n) && k in n.clients && n.clients[k].stage == Confirmed && n.clients[k].msg.Some?
    ensures var msg := n.clients[k].msg.value;
            NodeInv(Stands(n, k, Awaiting).(pending := n.pending[msg.dispatch := Waiter(k, msg.workerBoot)]))
  {
    hide Inv, DispatchesUsed, TablesOk, Backed;
    AwaitKeeps(n, k);
    forall l | l in n.clients ensures BoundTo(n.world.st.plans, Stands(n, k, Awaiting).clients[l]) {
      assert BoundTo(n.world.st.plans, n.clients[l]);
    }
  }

  lemma FrameSent(n: Node, k: nat, ok: bool, out: bool)
    requires NodeInv(n) && k in n.clients && n.clients[k].stage == Awaiting && n.clients[k].msg.Some?
    ensures var msg := n.clients[k].msg.value;
            NodeInv(Stands(n, k, if ok then Sent else Failing).(sent := if out then n.sent + {msg} else n.sent))
  {
    hide Inv, DispatchesUsed, Backed, BoundTo;
    assert ClientOk(n, n.clients[k]);
    Moved(n, k, if ok then Sent else Failing);
    MoreSent(Stands(n, k, if ok then Sent else Failing), n.clients[k].msg.value, out);
  }

  lemma MoreSent(n: Node, msg: DispatchMsg, out: bool)
    requires NodeInv(n) && Tracked(n, msg.dispatch)
    ensures NodeInv(n.(sent := if out then n.sent + {msg} else n.sent))
  {
    hide Inv, DispatchesUsed, Backed, BoundTo, TablesOk, Tracked;
    SentTables(n, msg, out);
  }

  lemma SentTables(n: Node, msg: DispatchMsg, out: bool)
    requires TablesOk(n) && Tracked(n, msg.dispatch)
    ensures TablesOk(n.(sent := if out then n.sent + {msg} else n.sent))
  {
    hide ClientOk, Enrolled;
    var m := n.(sent := if out then n.sent + {msg} else n.sent);
    assert forall d, l | Owner(n, d, l) :: Owner(m, d, l);
    forall c | ClientOk(n, c) ensures ClientOk(m, c) {
      ClientStaysOk(n, m, c);
    }
  }

  lemma Resolved(n: Node, d: Id, reply: ClientReplyMsg)
    requires NodeInv(n) && Backed(n.world.st, d, reply)
    ensures NodeInv(Resolve(n, d, reply)) && Resolve(n, d, reply).clients == n.clients
    ensures forall e | Tracked(n, e) :: Tracked(Resolve(n, d, reply), e)
  {
    hide Inv, DispatchesUsed, Backed, BoundTo, TablesOk;
    ResolveKeeps(n, d, reply);
  }

  lemma Forgotten(n: Node, boot: Id)
    requires NodeInv(n)
    ensures NodeInv(ResolveAll(n, boot))
  {
    hide Inv, DispatchesUsed, BoundTo, TablesOk, Backed;
    ResolveAllKeeps(n, boot);
    forall d ensures Backed(n.world.st, d, Lost()) {
      LostIsBacked(n.world.st, d);
    }
  }

  lemma LostIsBacked(s: State, d: Id)
    ensures Backed(s, d, Lost())
  {
  }

  lemma Answering(n: Node, h: nat, answer: Answer)
    requires NodeInv(n) && Backed(n.world.st, answer.dispatch, answer.reply)
    ensures NodeInv(n.(answers := n.answers[h := answer])) && NodeInv(n.(answers := n.answers - {h}))
  {
    hide Inv, DispatchesUsed, BoundTo, Backed, TablesOk;
    var m, l := n.(answers := n.answers[h := answer]), n.(answers := n.answers - {h});
    AnswerTables(n, m);
    AnswerTables(n, l);
  }

  /** The tables do not look at handlers, sockets or workers. */
  lemma AnswerTables(n: Node, m: Node)
    requires TablesOk(n) && m == n.(answers := m.answers, leaving := m.leaving, workers := m.workers)
    ensures TablesOk(m)
  {
    hide ClientOk, Enrolled;
    assert forall d, l | Owner(n, d, l) :: Owner(m, d, l);
    forall c | ClientOk(n, c) ensures ClientOk(m, c) {
      ClientStaysOk(n, m, c);
    }
  }

  lemma Unrelated(n: Node, m: Node)
    requires NodeInv(n) && m == n.(leaving := m.leaving, workers := m.workers)
    ensures NodeInv(m)
  {
    hide Inv, DispatchesUsed, BoundTo, Backed, TablesOk;
    AnswerTables(n, m);
  }

  /** A fresh dispatch is bound to the one plan it was prepared for. */
  lemma FreshBinding(old_: map<Id, Plan>, new_: map<Id, Plan>, a: Action, used: set<Id>, c: Client)
    requires Moves(old_, new_, a) && DispatchesUsed(old_, used) && a.PrepareAsked? && a.dispatch !in used
    requires c.plan == a.plan && c.msg.Some? && c.msg.value.dispatch == a.dispatch
    ensures BoundTo(new_, c)
  {
    hide Evolves, PlansEvolve;
    forall p | p in new_ && new_[p].dispatchId == Some(a.dispatch) ensures p == c.plan {
      assert p in old_ && Caused(p, old_[p], new_[p], a);
    }
  }

  /** What a completion handler will say is backed by what the completion did. */
  lemma AnswerIsBacked(s: State, m: ResultMsg, id: Id)
    requires PlansWf(s.plans)
    ensures Backed(ApplyResult(s, m, id).0, m.dispatch, ReplyTo(m, ApplyResult(s, m, id).1))
  {
    hide ResultFor, Released, PlanWf, VerdictOf;
    var r := ApplyResult(s, m, id);
    if ReplyTo(m, r.1).committed {
      AcceptedCommit(s, m, id);
      assert id in r.0.results && r.0.results[id].plan == m.plan;
    }
  }

  lemma AcceptedCommit(s: State, m: ResultMsg, id: Id)
    requires PlansWf(s.plans) && ApplyResult(s, m, id).1.Ok? && ApplyResult(s, m, id).1.value.committed
    ensures var r := ApplyResult(s, m, id);
            && id in r.0.results && r.0.results[id] == r.1.value && r.1.value.plan == m.plan
            && m.plan in r.0.plans && r.0.plans[m.plan].lifecycle == COMMITTED
            && r.0.plans[m.plan].dispatchId == Some(m.dispatch)
  {
    hide PlanWf, Released;
  }

  // ---- Every step ----

  /** The node with the coordinator already stepped. */
  function Ahead(n: Node, step: Step): Node {
    if Operates(n, step).None? then n else n.(world := Apply(n.world, Operates(n, step).value))
  }

  lemma AheadInv(n: Node, step: Step)
    requires NodeInv(n) && Ready(n, step)
    ensures NodeInv(Ahead(n, step))
  {
    hide Apply, NodeInv, Enabled;
    if Operates(n, step).Some? {
      CoordinatorStep(n, Operates(n, step).value);
    }
  }

  lemma PrepareStep(n: Node, step: Step)
    requires NodeInv(n) && Ready(n, step) && step.PrepareFor?
    requires PrepareDispatch(n.world.st, n.clients[step.client].plan, step.dispatch, step.attempt, step.payload).1.Ok?
    ensures var k := step.client;
            var msg := PrepareDispatch(n.world.st, n.clients[k].plan, step.dispatch, step.attempt,
                                       step.payload).1.value.message;
            NodeInv(Ahead(n, step).(clients := n.clients[k := Client(n.clients[k].plan, Some(msg), Prepared)]))
  {
    hide Apply, Inv, PrepareDispatch, DispatchesUsed, BoundTo, Backed, TablesOk, Moves, Bound;
    var k, s, a := step.client, n.world.st, Operates(n, step).value;
    var msg := PrepareDispatch(s, n.clients[k].plan, step.dispatch, step.attempt, step.payload).1.value.message;
    PreparedIsBound(n.world, n.clients[k].plan, step.dispatch, step.attempt, step.payload);
    AheadInv(n, step);
    KnownOf(n.world);
    StepMoves(n.world, a);
    UsedAfter(n.world, a);
    forall l | l in n.clients && n.clients[l].msg.Some? ensures n.clients[l].msg.value.dispatch != msg.dispatch {
      ClientUsed(n, l);
    }
    FreshBinding(s.plans, Apply(n.world, a).st.plans, a, n.world.used.dispatches,
                 Client(n.clients[k].plan, Some(msg), Prepared));
    Dispatched(Ahead(n, step), k, msg);
  }

  lemma ResultStep(n: Node, step: Step)
    requires NodeInv(n) && Ready(n, step) && step.ResultArrives?
    ensures var m := step.result;
            NodeInv(Ahead(n, step).(answers := n.answers[step.handler :=
              Answer(m.dispatch, ReplyTo(m, ApplyResult(n.world.st, m, step.id).1))]))
  {
    hide Apply, Inv, ApplyResult, DispatchesUsed, BoundTo, Backed, TablesOk, RepliesBacked, ClientsBound, ReplyTo,
      PlansWf;
    AheadInv(n, step);
    KnownOf(n.world);
    Applied(n.world, Operates(n, step).value);
    KnownPlans(n.world);
    AnswerIsBacked(n.world.st, step.result, step.id);
    Answering(Ahead(n, step), step.handler,
              Answer(step.result.dispatch, ReplyTo(step.result, ApplyResult(n.world.st, step.result, step.id).1)));
  }

  /** The steps of a client's handler that only move it on. */
  lemma StandStep(n: Node, step: Step)
    requires NodeInv(n) && Ready(n, step)
    requires step.ReserveFor? || step.LocateFor? || step.ConfirmFor? || step.CancelFor? || step.Collect?
             || (step.PrepareFor? && PrepareDispatch(n.world.st, n.clients[step.client].plan, step.dispatch,
                                                     step.attempt, step.payload).1.Err?)
    ensures NodeInv(Next(n, step))
  {
    hide Apply, Inv, PrepareDispatch, Reserve, ConfirmDispatched, DispatchesUsed, BoundTo, Backed, PendingOk, SettledOk,
      SentOk, DispatchesDistinct, RepliesBacked, ClientsBound, Enabled;
    AheadInv(n, step);
    var m, k := Ahead(n, step), step.client;
    assert ClientOk(n, n.clients[k]);
    Moved(m, k, Handles(n, step).clients[k].stage);
  }

  lemma TableStep(n: Node, step: Step)
    requires NodeInv(n) && Ready(n, step)
    requires step.Request? || step.AwaitFor? || step.SendFor? || step.FailFor?
    ensures NodeInv(Next(n, step))
  {
    hide Apply, Inv, DispatchesUsed, BoundTo, Backed, TablesOk, RepliesBacked, ClientsBound;
    match step
    case Request(k, p) => Requested(n, k, p);
    case AwaitFor(k) => Awaited(n, k);
    case SendFor(k, ok, out) => FrameSent(n, k, ok, out);
    case FailFor(k) => FailStep(n, k);
  }

  lemma FailStep(n: Node, k: nat)
    requires NodeInv(n) && k in n.clients && n.clients[k].stage == Failing && n.clients[k].msg.Some?
    ensures var reply := Blank(n.clients[k].plan).(ambiguous := true);
            NodeInv(Stands(Resolve(n, n.clients[k].msg.value.dispatch, reply), k, Cancelling))
  {
    hide Inv, DispatchesUsed, BoundTo, PendingOk, SettledOk, SentOk, DispatchesDistinct, RepliesBacked, ClientsBound,
      Resolve;
    var d, reply := n.clients[k].msg.value.dispatch, Blank(n.clients[k].plan).(ambiguous := true);
    assert ClientOk(n, n.clients[k]);
    Resolved(n, d, reply);
    Moved(Resolve(n, d, reply), k, Cancelling);
  }

  lemma HandlerStep(n: Node, step: Step)
    requires NodeInv(n) && Ready(n, step)
    requires step.Reply? || step.WorkerJoins? || step.WorkerLeaves? || step.Forget? || step.Other?
    ensures NodeInv(Next(n, step))
  {
    hide Apply, Inv, DispatchesUsed, BoundTo, Backed, TablesOk, ClientsBound, ResolveAll, Resolve, Enabled;
    AheadInv(n, step);
    match step
    case Reply(h) =>
      ReplyStep(n, h);
    case WorkerJoins(boot) => Unrelated(n, Next(n, step));
    case WorkerLeaves(h, boot) => Unrelated(Ahead(n, step), Next(n, step));
    case Forget(h) =>
      Forgotten(n, n.leaving[h]);
      Unrelated(ResolveAll(n, n.leaving[h]), Next(n, step));
    case Other(a) =>
  }

  lemma ReplyStep(n: Node, h: nat)
    requires NodeInv(n) && h in n.answers
    ensures NodeInv(Resolve(n, n.answers[h].dispatch, n.answers[h].reply).(answers := n.answers - {h}))
  {
    hide Inv, DispatchesUsed, BoundTo, Backed, TablesOk, ClientsBound;
    var m := Resolve(n, n.answers[h].dispatch, n.answers[h].reply);
    Resolved(n, n.answers[h].dispatch, n.answers[h].reply);
    Answering(m, h, n.answers[h]);
  }

  lemma NodeStep(n: Node, step: Step)
    requires NodeInv(n) && Ready(n, step)
    ensures NodeInv(Next(n, step))
  {
    hide NodeInv, Apply, PrepareDispatch, ApplyResult, Enabled;
    if step.PrepareFor? {
      if PrepareDispatch(n.world.st, n.clients[step.client].plan, step.dispatch, step.attempt, step.payload).1.Ok? {
        PrepareStep(n, step);
      } else {
        StandStep(n, step);
      }
    } else if step.ResultArrives? {
      ResultStep(n, step);
    } else if step.ReserveFor? || step.LocateFor? || step.ConfirmFor? || step.CancelFor? || step.Collect? {
      StandStep(n, step);
    } else if step.Request? || step.AwaitFor? || step.SendFor? || step.FailFor? {
      TableStep(n, step);
    } else {
      HandlerStep(n, step);
    }
  }

  // ---- Every interleaving ----

  /** The process after a sequence of steps; one that is not ready does not happen. */
  function NodeAfter(w: World, steps: seq<Step>): Node {
    if steps == [] then Start(w)
    else
      var n, step := NodeAfter(w, steps[..|steps| - 1]), steps[|steps| - 1];
      if Ready(n, step) then Next(n, step) else n
  }

  /** In the state and in the saved state. */
  ghost predicate AllDispatchesUsed(w: World) {
    && DispatchesUsed(w.st.plans, w.used.dispatches)
    && (w.disk.Some? ==> DispatchesUsed(w.disk.value.plans, w.used.dispatches))
  }

  lemma EpochDispatches(s: State, used: set<Id>)
    requires PlansWf(s.plans) && DispatchesUsed(s.plans, used)
    ensures DispatchesUsed(AdvanceEpoch(s).plans, used)
  {
    hide AdvanceEpoch, Moves;
    EpochMoves(s, EpochMoved);
    MovedUsed(s.plans, AdvanceEpoch(s).plans, EpochMoved, used);
    assert used + NewIds(EpochMoved).dispatches == used;
  }

  lemma LoadDispatches(w: World)
    requires Inv(w) && AllDispatchesUsed(w)
    ensures AllDispatchesUsed(Apply(w, Loaded))
  {
    hide Apply, Inv, AdvanceEpoch, DispatchesUsed;
    LoadedWorld(w);
    if w.disk.Some? {
      DiskPlansWf(w);
      EpochDispatches(w.disk.value, w.used.dispatches);
    } else {
      NoDispatches(w.st.coordinatorId, w.used.dispatches);
    }
  }

  lemma NoDispatches(c: Id, used: set<Id>)
    ensures DispatchesUsed(Initial(c).plans, used)
  {
  }

  lemma DiskAfter(w: World, a: Action)
    requires Inv(w) && !a.Loaded?
    ensures Apply(w, a).disk == if a.Saved? then Some(Project(w.st)) else w.disk
  {
    hide StateAfter, HeldAfter, Project, Recover, Inv;
  }

  lemma StepDispatches(w: World, a: Action)
    requires Inv(w) && Enabled(w, a) && AllDispatchesUsed(w) && !a.Loaded?
    ensures AllDispatchesUsed(Apply(w, a))
  {
    hide Apply, Inv, Enabled, Moves, Project, PlansWf;
    KnownOf(w);
    KnownPlans(w);
    StepMoves(w, a);
    UsedAfter(w, a);
    MovedUsed(w.st.plans, Apply(w, a).st.plans, a, w.used.dispatches);
    DiskAfter(w, a);
    ProjectKeeps(w.st);
  }

  lemma {:induction false} RunDispatches(c: Id, run: seq<Action>)
    requires Legal(c, run)
    ensures AllDispatchesUsed(After(c, run))
  {
    hide Apply, Inv, Enabled;
    if run != [] {
      var front, a := run[..|run| - 1], run[|run| - 1];
      RunDispatches(c, front);
      RunInv(c, front);
      if a.Loaded? {
        LoadDispatches(After(c, front));
      } else {
        StepDispatches(After(c, front), a);
      }
    }
  }

  lemma {:induction false} NodeRun(c: Id, run: seq<Action>, steps: seq<Step>)
    requires Legal(c, run)
    ensures NodeInv(NodeAfter(After(c, run), steps))
    decreases |steps|
  {
    hide After, Next, NodeInv, Ready;
    if steps == [] {
      RunInv(c, run);
      RunDispatches(c, run);
      StartInv(After(c, run));
    } else {
      var front := steps[..|steps| - 1];
      NodeRun(c, run, front);
      if Ready(NodeAfter(After(c, run), front), steps[|steps| - 1]) {
        NodeStep(NodeAfter(After(c, run), front), steps[|steps| - 1]);
      }
    }
  }

  lemma StartInv(w: World)
    requires Inv(w) && AllDispatchesUsed(w)
    ensures NodeInv(Start(w))
  {
    hide Inv;
  }

  /** In every interleaving no promise is given a value twice. */
  lemma PromiseSetOnce(c: Id, run: seq<Action>, steps: seq<Step>)
    requires Legal(c, run)
    ensures !NodeAfter(After(c, run), steps).broken
  {
    hide After, NodeAfter, Inv, RepliesBacked, ClientsBound;
    NodeRun(c, run, steps);
  }

  /** The reply to a dispatch that reached a worker always finds its client waiting, or already answered. */
  lemma ResultNeverEarly(c: Id, run: seq<Action>, steps: seq<Step>, msg: DispatchMsg)
    requires Legal(c, run) && msg in NodeAfter(After(c, run), steps).sent
    ensures var n := NodeAfter(After(c, run), steps); msg.dispatch in n.pending || msg.dispatch in n.settled
  {
    hide After, NodeAfter, Inv, RepliesBacked, ClientsBound;
    NodeRun(c, run, steps);
  }

  /**
   A promise settled with a committed reply belongs to the client that asked for that plan, and the coordinator
   holds the plan as committed with the digest of the reply on record.
   */
  lemma SettledReplyIsTrue(c: Id, run: seq<Action>, steps: seq<Step>, d: Id)
    requires Legal(c, run) && d in NodeAfter(After(c, run), steps).settled
    requires NodeAfter(After(c, run), steps).settled[d].reply.committed
    ensures var n := NodeAfter(After(c, run), steps);
            var s, k, reply := n.world.st, n.settled[d].client, n.settled[d].reply;
            && k in n.clients && n.clients[k].plan == reply.plan
            && reply.plan in s.plans && s.plans[reply.plan].lifecycle == COMMITTED
            && exists r :: r in s.results && s.results[r].plan == reply.plan && s.results[r].committed
                           && s.results[r].outputDigest == reply.outputDigest
  {
    hide After, NodeAfter, Inv, DispatchesUsed;
    NodeRun(c, run, steps);
    var n := NodeAfter(After(c, run), steps);
    assert Owner(n, d, n.settled[d].client) && Backed(n.world.st, d, n.settled[d].reply);
    assert BoundTo(n.world.st.plans, n.clients[n.settled[d].client]);
  }

  // ---- What clients are told ----

  /** A client that was told its plan is committed was told the truth. */
  ghost predicate Truthful(s: State, c: Client) {
    c.stage.Done? && c.stage.reply.committed ==> c.msg.Some? && Backed(s, c.msg.value.dispatch, c.stage.reply)
  }

  ghost predicate AllTruthful(n: Node) {
    forall k | k in n.clients :: Truthful(n.world.st, n.clients[k])
  }

  /** A step leaves a client as it was, or does not tell it that it committed, or hands it its settled promise. */
  predicate Tells(n: Node, step: Step, k: nat, c: Client) {
    || (k in n.clients && c == n.clients[k])
    || (c.stage.Done? ==> !c.stage.reply.committed)
    || (step.Collect? && c.msg.Some? && c.msg.value.dispatch in n.settled
        && c.stage == Done(n.settled[c.msg.value.dispatch].reply))
  }

  predicate Early(step: Step) {
    step.ReserveFor? || step.LocateFor? || step.ConfirmFor?
  }

  predicate Late(step: Step) {
    step.AwaitFor? || step.SendFor? || step.CancelFor? || step.Collect? || step.Request?
  }

  lemma EarlyTells(n: Node, step: Step, k: nat)
    requires Ready(n, step) && Early(step) && k in Handles(n, step).clients
    ensures Tells(n, step, k, Handles(n, step).clients[k])
  {
    hide Operates, Reserve, ConfirmDispatched, Enabled;
  }

  lemma PrepareTells(n: Node, step: Step, k: nat)
    requires Ready(n, step) && step.PrepareFor? && k in Handles(n, step).clients
    ensures Tells(n, step, k, Handles(n, step).clients[k])
  {
    hide Operates, PrepareDispatch, Enabled;
  }

  lemma LateTells(n: Node, step: Step, k: nat)
    requires Ready(n, step) && Late(step) && k in Handles(n, step).clients
    ensures Tells(n, step, k, Handles(n, step).clients[k])
  {
    hide Operates, Enabled;
  }

  lemma OtherStepTells(n: Node, step: Step, k: nat)
    requires Ready(n, step) && !Early(step) && !step.PrepareFor? && !Late(step) && k in Handles(n, step).clients
    ensures Tells(n, step, k, Handles(n, step).clients[k])
  {
    hide Operates, ApplyResult, Enabled, ResolveAll, Resolve, ReplyTo;
    if step.Reply? {
      ResolveClients(n, n.answers[step.handler].dispatch, n.answers[step.handler].reply);
    } else if step.FailFor? {
      var c := n.clients[step.client];
      ResolveClients(n, c.msg.value.dispatch, Blank(c.plan).(ambiguous := true));
    }
  }

  lemma StepTells(n: Node, step: Step, k: nat)
    requires Ready(n, step) && k in Next(n, step).clients
    ensures Tells(n, step, k, Next(n, step).clients[k])
  {
    hide Apply, Handles, Ready, Tells, Operates;
    if Early(step) {
      EarlyTells(n, step, k);
    } else if step.PrepareFor? {
      PrepareTells(n, step, k);
    } else if Late(step) {
      LateTells(n, step, k);
    } else {
      OtherStepTells(n, step, k);
    }
  }

  lemma ResolveClients(n: Node, d: Id, reply: ClientReplyMsg)
    ensures Resolve(n, d, reply).clients == n.clients && Resolve(n, d, reply).settled.Keys >= n.settled.Keys
  {
  }

  lemma TruthStep(n: Node, step: Step, c: Client)
    requires NodeInv(n) && Ready(n, step) && Truthful(n.world.st, c)
    ensures Truthful(Ahead(n, step).world.st, c)
  {
    hide Inv, Apply, DispatchesUsed, TablesOk, ClientsBound, RepliesBacked, Moves, Extends, Backed;
    if Operates(n, step).Some? && c.stage.Done? && c.stage.reply.committed {
      var a := Operates(n, step).value;
      KnownOf(n.world);
      ResultsUsed(n.world);
      StepMoves(n.world, a);
      ResultsAccumulate(n.world, a);
      MovedBacked(n.world.st, Apply(n.world, a).st, a, c.msg.value.dispatch, c.stage.reply);
    }
  }

  lemma TruthfulStep(n: Node, step: Step)
    requires NodeInv(n) && Ready(n, step) && AllTruthful(n)
    ensures AllTruthful(Next(n, step))
  {
    hide Inv, Apply, Handles, DispatchesUsed, TablesOk, ClientsBound, Backed, Ready;
    forall k | k in Next(n, step).clients ensures Truthful(Next(n, step).world.st, Next(n, step).clients[k]) {
      var c := Next(n, step).clients[k];
      StepTells(n, step, k);
      if Truthful(n.world.st, c) {
        TruthStep(n, step, c);
      }
    }
  }

  lemma {:induction false} NodeTruthful(c: Id, run: seq<Action>, steps: seq<Step>)
    requires Legal(c, run)
    ensures AllTruthful(NodeAfter(After(c, run), steps))
    decreases |steps|
  {
    hide After, Next, NodeInv, Ready, Truthful;
    if steps != [] {
      var front := steps[..|steps| - 1];
      NodeTruthful(c, run, front);
      NodeRun(c, run, front);
      if Ready(NodeAfter(After(c, run), front), steps[|steps| - 1]) {
        TruthfulStep(NodeAfter(After(c, run), front), steps[|steps| - 1]);
      }
    }
  }

  /**
   In every interleaving: a client that was told its work is committed asked for that very plan, and the
   coordinator holds the plan as committed with the digest it was told on record.
   */
  lemma CommittedReplyIsTrue(c: Id, run: seq<Action>, steps: seq<Step>, k: nat)
    requires Legal(c, run) && k in NodeAfter(After(c, run), steps).clients
    requires var stage := NodeAfter(After(c, run), steps).clients[k].stage; stage.Done? && stage.reply.committed
    ensures var n := NodeAfter(After(c, run), steps);
            var s, reply := n.world.st, n.clients[k].stage.reply;
            && n.clients[k].plan == reply.plan
            && reply.plan in s.plans && s.plans[reply.plan].lifecycle == COMMITTED
            && exists r :: r in s.results && s.results[r].plan == reply.plan && s.results[r].committed
                           && s.results[r].outputDigest == reply.outputDigest
  {
    hide After, NodeAfter, Inv, DispatchesUsed, TablesOk, RepliesBacked;
    NodeRun(c, run, steps);
    NodeTruthful(c, run, steps);
    var n := NodeAfter(After(c, run), steps);
    assert Truthful(n.world.st, n.clients[k]) && BoundTo(n.world.st.plans, n.clients[k]);
  }
}
