/** A run of the process that leaves a client waiting for good. */
module Stranding {
  import opened Types
  import opened Ordered
  import opened Engine
  import opened Runs
  import opened Node
  import opened NodeSafety
  import opened Waiting
  import opened Witness

  /** One client, no table entries. */
  function Desk(w: World, workers: set<Id>, c: Client, leaving: map<nat, Id>): Node {
    Node(w, workers, map[1 := c], map[], map[], false, {}, map[], leaving)
  }

  /** A plan is made; a worker connects and a client asks for the plan. */
  function Opening(): seq<Action> {
    Setup() + [Planned(10, 101)]
  }

  function Asking(): seq<Step> {
    [WorkerJoins(7)] + [Request(1, 101)] + [ReserveFor(1)] + [PrepareFor(1, 201, 202, [])] + [LocateFor(1)]
    + [ConfirmFor(1)]
  }

  /** Before the client enters the table, the worker's connection ends and is cleared away. */
  function Missing(): seq<Step> {
    Asking() + [WorkerLeaves(9, 7)] + [Forget(9)] + [AwaitFor(1)] + [SendFor(1, true, true)]
  }

  lemma OneMore(w: World, steps: seq<Step>, step: Step)
    ensures NodeAfter(w, steps + [step]) ==
            if Ready(NodeAfter(w, steps), step) then Next(NodeAfter(w, steps), step) else NodeAfter(w, steps)
  {
    hide Ready, Next;
    assert (steps + [step])[..|steps|] == steps;
  }

  lemma Joins(w: World)
    ensures NodeAfter(w, [WorkerJoins(7)] + [Request(1, 101)]) == Desk(w, {7}, Client(101, None, Asked), map[])
  {
    hide Enabled;
    assert [] + [WorkerJoins(7)] == [WorkerJoins(7)];
    OneMore(w, [], WorkerJoins(7));
    OneMore(w, [WorkerJoins(7)], Request(1, 101));
  }

  // The client's steps that ask the coordinator.

  lemma Reserves(w: World, b: Board)
    requires w.st == Scene(b) && 101 in b.plans && b.plans[101] == NewPlan(b.epoch, 10, 101)
    requires Counters(b).slots == 0 && Counters(b).workspace <= 4
    ensures var n := Desk(w, {7}, Client(101, None, Asked), map[]);
            && Ready(n, ReserveFor(1))
            && Next(n, ReserveFor(1)) == Desk(Apply(w, ReserveAsked(101)), {7}, Client(101, None, Held), map[])
            && Apply(w, ReserveAsked(101)).st == Scene(Booking(b, 10, 101))
            && Apply(w, ReserveAsked(101)).used == w.used
  {
    hide Apply, Scene, Reserve, Booking, NewPlan, Counters;
    SceneReserves(b, 10, 101);
    Applied(w, ReserveAsked(101));
    UsedAfter(w, ReserveAsked(101));
    JoinNone(w.used);
  }

  lemma Prepares(w: World, b: Board) returns (msg: DispatchMsg)
    requires w.st == Scene(b) && b.epoch == 1 && 101 in b.plans && b.plans[101] == Booked(1, 10, 101)
    requires 201 !in w.used.dispatches && 202 !in w.used.attempts
    ensures msg.dispatch == 201 && msg.workerBoot == 7
    ensures var n, step := Desk(w, {7}, Client(101, None, Held), map[]), PrepareFor(1, 201, 202, []);
            var m := Apply(w, PrepareAsked(101, 201, 202, []));
            && Ready(n, step) && Next(n, step) == Desk(m, {7}, Client(101, Some(msg), Prepared), map[])
            && m.st == Scene(b.(plans := b.plans[101 := Bound(101)]))
  {
    hide Apply, Scene, PrepareDispatch, Booked;
    ScenePrepares(b, 101);
    Applied(w, PrepareAsked(101, 201, 202, []));
    msg := PrepareDispatch(Scene(b), 101, 201, 202, []).1.value.message;
  }

  lemma Locates(w: World, msg: DispatchMsg)
    requires msg.workerBoot == 7
    ensures var n := Desk(w, {7}, Client(101, Some(msg), Prepared), map[]);
            && Ready(n, LocateFor(1))
            && Next(n, LocateFor(1)) == Desk(w, {7}, Client(101, Some(msg), Located), map[])
  {
    hide Apply;
  }

  lemma Confirms(w: World, b: Board, msg: DispatchMsg)
    requires w.st == Scene(b) && 101 in b.plans && b.plans[101] == Bound(101) && msg.dispatch == 201
    ensures var n, m := Desk(w, {7}, Client(101, Some(msg), Located), map[]), Apply(w, ConfirmAsked(101, 201));
            && Ready(n, ConfirmFor(1))
            && Next(n, ConfirmFor(1)) == Desk(m, {7}, Client(101, Some(msg), Confirmed), map[])
  {
    hide Apply, Scene, ConfirmDispatched, Bound;
    SceneConfirms(b, 101);
  }

  // The worker goes, and the client enters the table.

  lemma Leaves(w: World, msg: DispatchMsg)
    ensures var n, m := Desk(w, {7}, Client(101, Some(msg), Confirmed), map[]), Apply(w, WorkerDropped(7));
            && Ready(n, WorkerLeaves(9, 7))
            && Next(n, WorkerLeaves(9, 7)) == Desk(m, {7}, Client(101, Some(msg), Confirmed), map[9 := 7])
  {
    hide Apply;
  }

  lemma Forgets(w: World, msg: DispatchMsg)
    ensures var n := Desk(w, {7}, Client(101, Some(msg), Confirmed), map[9 := 7]);
            && Ready(n, Forget(9)) && Next(n, Forget(9)) == Desk(w, {}, Client(101, Some(msg), Confirmed), map[])
  {
    hide Apply, ResolveAll;
    NobodyOrphaned(Desk(w, {7}, Client(101, Some(msg), Confirmed), map[9 := 7]));
    assert map[9 := 7] - {9} == map[];
  }

  lemma NobodyOrphaned(n: Node)
    requires n.pending == map[] && n.settled == map[] && n.workers == {7} && !n.broken
    ensures ResolveAll(n, 7) == n.(workers := {})
  {
    hide Mapped;
    assert WaitingOn(n, 7) == {};
    assert n.pending - {} == map[] && n.pending - (n.pending.Keys - {}) == map[];
    assert Orphaned(map[]) == map[];
    assert n.settled + map[] == map[] && {7} - {7} == {};
  }

  function AtTable(w: World, msg: DispatchMsg): Node {
    Desk(w, {}, Client(101, Some(msg), Awaiting), map[]).(pending := map[201 := Waiter(1, 7)])
  }

  lemma Enters(w: World, msg: DispatchMsg)
    requires msg.dispatch == 201 && msg.workerBoot == 7
    ensures var n := Desk(w, {}, Client(101, Some(msg), Confirmed), map[]);
            Ready(n, AwaitFor(1)) && Next(n, AwaitFor(1)) == AtTable(w, msg)
  {
    hide Apply;
  }

  lemma Sends(w: World, msg: DispatchMsg)
    ensures Ready(AtTable(w, msg), SendFor(1, true, true))
    ensures Stranded(Next(AtTable(w, msg), SendFor(1, true, true)), 201)
  {
    hide Apply;
  }

  lemma AskingReaches() returns (w: World, msg: DispatchMsg)
    ensures Legal(1, Opening()) && msg.dispatch == 201 && msg.workerBoot == 7
    ensures NodeAfter(After(1, Opening()), Asking()) == Desk(w, {7}, Client(101, Some(msg), Confirmed), map[])
  {
    hide At, Scene, Setup, NodeAfter, Ready, Next, Desk, After, Legal, Apply, NewPlan;
    AtSetup();
    ThenPlans(Setup(), START, NO_IDS, {}, 10, 101);
    var b := Entering(START, 10, 101);
    assert NO_IDS.plans + {101} == {101};
    Planned101(b);
    w, msg := AskedFrom(After(1, Opening()), b);
  }

  lemma Planned101(b: Board)
    requires At(Opening(), b, PlanIds({101}), {})
    ensures Legal(1, Opening()) && After(1, Opening()).st == Scene(b) && After(1, Opening()).used == PlanIds({101})
  {
    hide Legal, After, Scene;
  }

  lemma AskedFrom(w0: World, b: Board) returns (w: World, msg: DispatchMsg)
    requires w0.st == Scene(b) && w0.used == PlanIds({101}) && b == Entering(START, 10, 101)
    ensures msg.dispatch == 201 && msg.workerBoot == 7
    ensures NodeAfter(w0, Asking()) == Desk(w, {7}, Client(101, Some(msg), Confirmed), map[])
  {
    hide Scene, NodeAfter, Ready, Next, Desk, Apply;
    Joins(w0);
    var steps := [WorkerJoins(7)] + [Request(1, 101)];
    Reserves(w0, b);
    OneMore(w0, steps, ReserveFor(1));
    var w1, b1 := Apply(w0, ReserveAsked(101)), Booking(b, 10, 101);
    steps := steps + [ReserveFor(1)];
    msg := Prepares(w1, b1);
    OneMore(w0, steps, PrepareFor(1, 201, 202, []));
    var w2, b2 := Apply(w1, PrepareAsked(101, 201, 202, [])), b1.(plans := b1.plans[101 := Bound(101)]);
    steps := steps + [PrepareFor(1, 201, 202, [])];
    Locates(w2, msg);
    OneMore(w0, steps, LocateFor(1));
    Confirms(w2, b2, msg);
    OneMore(w0, steps + [LocateFor(1)], ConfirmFor(1));
    w := Apply(w2, ConfirmAsked(101, 201));
  }

  /**
   A client looked its worker up and confirmed; the worker's connection ended and was cleared away; then the client
   entered the table, and the frame was taken by a socket nobody reads. It waits, and with no entry for its worker
   anywhere no step of the process but the three in `Helps` can end that.
   */
  lemma AClientIsStranded()
    ensures Legal(1, Opening()) && Stranded(NodeAfter(After(1, Opening()), Missing()), 201)
    ensures !AllAttended(NodeAfter(After(1, Opening()), Missing()))
  {
    hide After, Legal, Asking, Opening, NodeAfter, Ready, Next, Desk, AtTable, Stranded, Apply;
    var w, msg := AskingReaches();
    var w0, steps := After(1, Opening()), Asking();
    Leaves(w, msg);
    OneMore(w0, steps, WorkerLeaves(9, 7));
    Forgets(Apply(w, WorkerDropped(7)), msg);
    OneMore(w0, steps + [WorkerLeaves(9, 7)], Forget(9));
    Enters(Apply(w, WorkerDropped(7)), msg);
    Sends(Apply(w, WorkerDropped(7)), msg);
    steps := steps + [WorkerLeaves(9, 7)] + [Forget(9)];
    OneMore(w0, steps, AwaitFor(1));
    OneMore(w0, steps + [AwaitFor(1)], SendFor(1, true, true));
    StrandedIsUnattended(NodeAfter(w0, Missing()), 201);
  }

  lemma StrandedIsUnattended(n: Node, d: Id)
    requires Stranded(n, d)
    ensures !AllAttended(n)
  {
  }
}
