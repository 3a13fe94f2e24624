/**
 Runs that show what the side conditions of the ledger and index theorems are for: with a cancel of a plan that
 holds nothing, more plans are reserved than the target has slots; with a cancel of a plan whose outcome is
 unknown, one operation gets two live plans; with a cancel of a plan that reserved before a restart, the workspace
 another plan holds is given away.
 */
module Witness {
  import opened Types
  import opened Planning
  import opened Ordered
  import opened Engine
  import opened Runs
  import opened Ledger
  import opened Slots
  import opened Openings
  import opened Workspace
  import opened IndexScan
  import opened Selection
  import opened Digest
  import opened Completions

  // ---- One target with one slot and room for two, and two operations it can run ----

  const REGISTRATION: RegisterTargetMsg := RegisterTargetMsg(1, 1, 0, 0, true, [], [0], [0], [0], 0, 1, 1, 8, 7)
  const BEAT: HeartbeatMsg := HeartbeatMsg(1, TL_READY, true, 0, 0, 0, 0)
  const SEEN: EvidenceMsg := EvidenceMsg(1, 1, 1, 1, 1, 1, true, true, true, 7)
  const HELLO: HelloMsg := HelloMsg(5, 7, [])

  function Publication(): CapabilityMsg {
    CapabilityMsg(1, 1, [CapabilityEntry(OperationKey(0), 0)], 1, 7)
  }

  function Op(id: Id): Operation {
    Operation(id, 1, 0, 1, 1, 1, 1, Shape(0, 0, 0, 0), 0, 0, 4, 0, false, 0, 0, 0, 0, 1, 1, None, None, [])
  }

  function Staffing(): seq<Action> {
    [Registered(REGISTRATION), Published(Publication()), Observed(SEEN), Beat(BEAT), Greeted(HELLO)]
  }

  function Setup(): seq<Action> {
    Staffing() + [OperationAdded(Op(10))] + [OperationAdded(Op(11))]
  }

  function ItsRuntime(): Runtime {
    Beaten(NewRuntime(7), BEAT)
  }

  function ItsCaps(): Capabilities {
    Capabilities(1, 1, 1, EntryMap(Publication().entries), 1, 7, true)
  }

  function ItsEvidence(): Evidence {
    Evidence(1, 1, 1, 1, 1, true, true, true, true, 7)
  }

  /** The work that goes on in the scene. */
  datatype Board = Board(epoch: Gen, plans: map<Id, Plan>, active: map<Id, Id>, results: map<Id, ExecResult>,
                         reservations: map<Id, Reservation>)

  const START: Board := Board(1, map[], map[], map[], map[])

  /** The state after the set-up, with the given work. */
  function Scene(b: Board): State {
    State(1, b.epoch, map[], map[], map[], map[1 := ItsEvidence()], map[1 := TargetOf(REGISTRATION)],
          map[1 := ItsRuntime()], map[1 := ItsCaps()], map[10 := Op(10), 11 := Op(11)], map[],
          map[1 := DefaultPolicy()], b.plans, b.active, b.results, b.reservations, map[5 := Session(5, 7, [], true)])
  }

  /** One more action. */
  lemma Snoc(c: Id, run: seq<Action>, a: Action)
    ensures After(c, run + [a]) == Apply(After(c, run), a)
    ensures Legal(c, run + [a]) <==> Legal(c, run) && Enabled(After(c, run), a)
  {
    hide Apply, Enabled;
    assert (run + [a])[..|run|] == run;
  }

  lemma JoinNone(used: Ids)
    ensures Joined(used, NO_IDS) == used
  {
  }

  lemma QuietWorld(w: World, a: Action)
    requires Quiet(a) && !a.Loaded? && !a.Saved?
    ensures Enabled(w, a) && Apply(w, a) == w.(st := QuietAfter(w.st, a))
  {
    hide WorkAfter, SweepAfter, QuietAfter, Reserve, CompletionGuard, VerdictOf, CancelPlan, Project, Recover;
    JoinNone(w.used);
  }

  lemma Extended(run: seq<Action>, a: Action, w: World) returns (longer: seq<Action>)
    requires Legal(1, run) && After(1, run) == w && Quiet(a) && !a.Loaded? && !a.Saved?
    ensures longer == run + [a] && Legal(1, longer) && After(1, longer) == w.(st := QuietAfter(w.st, a))
  {
    hide Apply, Enabled, QuietAfter;
    longer := run + [a];
    Snoc(1, run, a);
    QuietWorld(w, a);
  }

  // ---- Staffing, from a state in which no worker is known ----

  predicate Bare(s: State) {
    && s.targets.Keys <= {1} && s.runtime == map[] && s.caps == map[] && s.evidence == map[] && s.workers == map[]
  }

  // The states of the staffing, one publication after another.
  function Known(s: State): State {
    s.(targets := map[1 := TargetOf(REGISTRATION)], runtime := map[1 := NewRuntime(7)])
  }

  lemma RegisteredState(s: State)
    requires Bare(s)
    ensures RegisterTarget(s, REGISTRATION).0 == Known(s)
  {
    hide TargetOf, NewRuntime;
    assert s.targets[1 := TargetOf(REGISTRATION)] == map[1 := TargetOf(REGISTRATION)];
  }

  function Able(s: State): State {
    Known(s).(caps := map[1 := ItsCaps()])
  }

  lemma PublishedState(s: State)
    requires Bare(s)
    ensures PublishCapability(Known(s), Publication()).0 == Able(s)
  {
    hide NewRuntime, EntryMap, OperationKey;
    var m, k := Publication(), Known(s);
    assert m.target == 1 && m.generation == 1 && m.evidenceGeneration == 1 && m.publisher == 7;
    assert 1 in k.targets && k.targets[1].generation == 1;
    assert PublishCapability(k, m).1.Ok?;
    assert k.caps[1 := ItsCaps()] == map[1 := ItsCaps()];
    assert PublishCapability(k, m).0 == k.(caps := k.caps[1 := ItsCaps()]);
  }

  function Observing(s: State): State {
    Able(s).(evidence := map[1 := ItsEvidence()])
  }

  lemma ObservedState(s: State)
    requires Bare(s)
    ensures PublishEvidence(Able(s), SEEN).0 == Observing(s)
  {
    hide ItsCaps, TargetOf, NewRuntime;
  }

  function Alive(s: State): State {
    Observing(s).(runtime := map[1 := ItsRuntime()])
  }

  lemma BeatenState(s: State)
    requires Bare(s)
    ensures Heartbeat(Observing(s), BEAT).0 == Alive(s)
  {
    hide TargetOf, ItsCaps, ItsEvidence, Beaten;
  }

  function Staffed(s: State): State {
    Alive(s).(workers := map[5 := Session(5, 7, [], true)])
  }

  lemma GreetedState(s: State)
    requires Bare(s)
    ensures BindWorker(Alive(s), HELLO) == Staffed(s)
  {
    hide TargetOf, ItsCaps, ItsEvidence, ItsRuntime;
  }

  lemma Publishes(run: seq<Action>, w: World) returns (r: seq<Action>)
    requires Legal(1, run) && After(1, run) == w && Bare(w.st)
    ensures r == run + [Registered(REGISTRATION)] + [Published(Publication())] + [Observed(SEEN)]
    ensures Legal(1, r) && After(1, r) == w.(st := Observing(w.st))
  {
    hide Apply, Enabled, RegisterTarget, PublishCapability, PublishEvidence, Known, Able, Observing, Publication, Bare;
    var s := w.st;
    r := Extended(run, Registered(REGISTRATION), w);
    RegisteredState(s);
    r := Extended(r, Published(Publication()), w.(st := Known(s)));
    PublishedState(s);
    r := Extended(r, Observed(SEEN), w.(st := Able(s)));
    ObservedState(s);
  }

  lemma Staffs(run: seq<Action>, w: World)
    requires Legal(1, run) && After(1, run) == w && Bare(w.st)
    ensures Legal(1, run + Staffing()) && After(1, run + Staffing()) == w.(st := Staffed(w.st))
  {
    hide Apply, Enabled, Heartbeat, BindWorker, Observing, Alive, Staffed, Publication, Bare;
    var s := w.st;
    var r := Publishes(run, w);
    r := Extended(r, Beat(BEAT), w.(st := Observing(s)));
    BeatenState(s);
    r := Extended(r, Greeted(HELLO), w.(st := Alive(s)));
    GreetedState(s);
    assert r == run + Staffing();
  }

  function Tasked(): State {
    Staffed(Initial(1)).(operations := map[10 := Op(10)])
  }

  lemma TaskedState()
    ensures CreateOperation(Staffed(Initial(1)), Op(10)).0 == Tasked()
    ensures CreateOperation(Tasked(), Op(11)).0 == Scene(START)
  {
    hide TargetOf, DefaultPolicy, ItsCaps, ItsEvidence, ItsRuntime;
    assert map[10 := Op(10)][11 := Op(11)] == map[10 := Op(10), 11 := Op(11)];
  }

  lemma SetupReaches()
    ensures Legal(1, Setup()) && After(1, Setup()) == World(Scene(START), None, NO_IDS, {})
  {
    hide Apply, Enabled, CreateOperation, Staffed, Tasked, Scene, Staffing, Op;
    var w := World(Initial(1), None, NO_IDS, {});
    assert [] + Staffing() == Staffing();
    Staffs([], w);
    TaskedState();
    var r := Extended(Staffing(), OperationAdded(Op(10)), w.(st := Staffed(w.st)));
    r := Extended(r, OperationAdded(Op(11)), w.(st := Tasked()));
  }

  // ---- Operations in the scene ----

  lemma SceneFits(b: Board, op: Id)
    ensures EligibleTarget(Scene(b), Op(op), DefaultPolicy(), 1)
    ensures NearCost(Scene(b), Op(op), 1) == 0 <= MovingCost(Op(op))
  {
    hide OperationKey, EntryMap;
    EntryFound();
  }

  lemma EntryFound()
    ensures StateOf(ItsCaps(), OperationKey(0)) == 0
  {
    hide OperationKey;
    var e := Publication().entries;
    assert e[..0] == [];
    assert EntryMap(e) == map[OperationKey(0) := 0];
  }

  function NewPlan(epoch: Gen, op: Id, id: Id): Plan {
    Plan(id, 1, Authority(Snapshot(epoch, 7, 1, 1, 1, 1, 1, 1, None, 1, 1, 1, 1), id, 1), 1, 1, op, 0, 1, 1, 1, 1,
         PLANNED, 0, 0, None, None, 0, NEAR_MEMORY_SELECTED, [])
  }

  lemma ScenePlan(b: Board, op: Id, id: Id)
    ensures PlanFor(Scene(b), Op(op), 1, id) == NewPlan(b.epoch, op, id)
  {
    hide EntryMap, OperationKey, DefaultPolicy;
  }

  function Entering(b: Board, op: Id, id: Id): Board {
    b.(plans := b.plans[id := NewPlan(b.epoch, op, id)], active := b.active[op := id])
  }

  lemma ScenePlans(b: Board, op: Id, id: Id)
    requires op in {10, 11} && op !in b.active
    ensures MakePlan(Scene(b), op, id).0 == Scene(Entering(b, op, id))
  {
    hide MakePlan, EligibleTarget, NearCost, MovingCost, PlanFor, NewPlan, ItsCaps, ItsRuntime, ItsEvidence, TargetOf,
      DefaultPolicy;
    var s := Scene(b);
    SceneFits(b, op);
    assert s.operations[op] == Op(op) && s.operations[op].id == op && s.operations[op].policy == 1;
    assert WorthUsing(s, Op(op), DefaultPolicy(), 1);
    PlansIffWorthUsing(s, op, id);
    var t := Created(s, op, id);
    assert t == 1;
    ScenePlan(b, op, id);
  }

  function Booked(epoch: Gen, op: Id, p: Id): Plan {
    NewPlan(epoch, op, p).(lifecycle := RESERVED, reservedSlots := 1, reservedWorkspace := 4)
  }

  /** The counters of the only target. */
  function Counters(b: Board): Reservation {
    if 1 in b.reservations then b.reservations[1] else Reservation(0, 0)
  }

  function Booking(b: Board, op: Id, p: Id): Board {
    b.(plans := b.plans[p := Booked(b.epoch, op, p)],
       reservations := b.reservations[1 := Reservation(1, Wrap(Counters(b).workspace + 4))])
  }

  lemma SceneAdmits(b: Board, op: Id, p: Id)
    requires op in {10, 11} && Counters(b).slots == 0 && Counters(b).workspace <= 4
    ensures AdmissionCheck(Scene(b), NewPlan(b.epoch, op, p)) == Ok(()) && OperationWorkspace(Scene(b), op) == 4
    ensures ReservationOf(Scene(b), 1) == Counters(b)
  {
    hide ItsCaps, ItsEvidence, DefaultPolicy;
  }

  lemma SceneReserves(b: Board, op: Id, p: Id)
    requires op in {10, 11} && p in b.plans && b.plans[p] == NewPlan(b.epoch, op, p)
    requires Counters(b).slots == 0 && Counters(b).workspace <= 4
    ensures Reserve(Scene(b), p) == (Scene(Booking(b, op, p)), Ok(()))
  {
    hide ItsCaps, ItsEvidence, ItsRuntime, DefaultPolicy, TargetOf, Op, AdmissionCheck, OperationWorkspace,
      ReservationOf, Counters;
    SceneAdmits(b, op, p);
  }

  function Cancelling(b: Board, p: Id): Board
    requires p in b.plans
  {
    b.(plans := b.plans[p := b.plans[p].(lifecycle := CANCELLED)], active := b.active - {b.plans[p].operation},
       reservations := b.reservations[1 := Lowered(Counters(b), b.plans[p].reservedWorkspace)])
  }

  lemma SceneCancels(b: Board, p: Id)
    requires p in b.plans && Active(b.plans[p].lifecycle) && b.plans[p].target == 1 && 1 in b.reservations
    ensures CancelPlan(Scene(b), p) == (Scene(Cancelling(b, p)), Ok(()))
  {
    hide ItsCaps, ItsEvidence, ItsRuntime, DefaultPolicy, TargetOf;
  }

  // ---- Runs of the scene ----

  /** What a run leads to: the scene, the identities handed out, and the holders. */
  predicate At(run: seq<Action>, b: Board, used: Ids, held: set<Id>) {
    Legal(1, run) && After(1, run).(disk := None) == World(Scene(b), None, used, held)
  }

  lemma Then(run: seq<Action>, a: Action, b: Board, n: Board, used: Ids, held: set<Id>)
    requires At(run, b, used, held) && Works(a) && Apart(NewIds(a), used) && WorkAfter(Scene(b), a) == Scene(n)
    ensures At(run + [a], n, Joined(used, NewIds(a)), HeldAfter(World(Scene(b), None, used, held), a))
  {
    hide Legal, After, WorkAfter, Apply, Scene, HeldAfter;
    Snoc(1, run, a);
    WorkWorld(After(1, run), a);
  }

  lemma WorkWorld(w: World, a: Action)
    requires Works(a)
    ensures Apply(w, a) == World(WorkAfter(w.st, a), w.disk, Joined(w.used, NewIds(a)), HeldAfter(w.(disk := None), a))
    ensures Enabled(w, a) <==> Apart(NewIds(a), w.used)
  {
    hide WorkAfter, SweepAfter, QuietAfter, Project, Recover, Reserve, CompletionGuard, VerdictOf, CancelPlan;
  }

  lemma AtSetup()
    ensures At(Setup(), START, NO_IDS, {})
  {
    hide Setup, Scene, Legal, After;
    SetupReaches();
  }

  lemma ThenPlans(run: seq<Action>, b: Board, used: Ids, held: set<Id>, op: Id, id: Id)
    requires At(run, b, used, held) && op in {10, 11} && op !in b.active && id !in used.plans
    ensures At(run + [Planned(op, id)], Entering(b, op, id), used.(plans := used.plans + {id}), held)
  {
    hide At, Scene, MakePlan, Entering;
    ScenePlans(b, op, id);
    Then(run, Planned(op, id), b, Entering(b, op, id), used, held);
    assert Joined(used, NewIds(Planned(op, id))) == used.(plans := used.plans + {id});
  }

  lemma ThenReserves(run: seq<Action>, b: Board, used: Ids, held: set<Id>, op: Id, p: Id)
    requires At(run, b, used, held) && op in {10, 11} && p in b.plans && b.plans[p] == NewPlan(b.epoch, op, p)
    requires Counters(b).slots == 0 && Counters(b).workspace <= 4
    ensures At(run + [ReserveAsked(p)], Booking(b, op, p), used, held + {p})
  {
    hide At, Scene, Reserve, NewPlan, Booking;
    SceneReserves(b, op, p);
    Then(run, ReserveAsked(p), b, Booking(b, op, p), used, held);
    JoinNone(used);
  }

  lemma ThenCancels(run: seq<Action>, b: Board, used: Ids, held: set<Id>, p: Id)
    requires At(run, b, used, held)
    requires p in b.plans && Active(b.plans[p].lifecycle) && b.plans[p].target == 1 && 1 in b.reservations
    ensures At(run + [CancelAsked(p)], Cancelling(b, p), used, held - {p})
  {
    hide At, Scene, CancelPlan, Active, Cancelling;
    SceneCancels(b, p);
    Then(run, CancelAsked(p), b, Cancelling(b, p), used, held);
    JoinNone(used);
  }

  // ---- Overbooking ----

  function PlanIds(plans: set<Id>): Ids {
    NO_IDS.(plans := plans)
  }

  function Overbooking(): seq<Action> {
    Setup() + [Planned(10, 101)] + [Planned(11, 102)] + [ReserveAsked(101)] + [CancelAsked(102)] + [Planned(11, 103)]
    + [ReserveAsked(103)]
  }

  function Halfway(): Board {
    Board(1, map[101 := Booked(1, 10, 101), 102 := NewPlan(1, 11, 102)], map[10 := 101, 11 := 102], map[],
          map[1 := Reservation(1, 4)])
  }

  function Overbooked(): Board {
    Board(1, map[101 := Booked(1, 10, 101), 102 := NewPlan(1, 11, 102).(lifecycle := CANCELLED),
                 103 := Booked(1, 11, 103)],
          map[10 := 101, 11 := 103], map[], map[1 := Reservation(1, 8)])
  }

  lemma OverbookingStarts()
    ensures At(Setup() + [Planned(10, 101)] + [Planned(11, 102)] + [ReserveAsked(101)], Halfway(),
               PlanIds({101, 102}), {101})
  {
    hide At, Scene, Setup;
    AtSetup();
    ThenPlans(Setup(), START, NO_IDS, {}, 10, 101);
    var b1 := Entering(START, 10, 101);
    assert {} + {101} == {101};
    ThenPlans(Setup() + [Planned(10, 101)], b1, PlanIds({101}), {}, 11, 102);
    var b2 := Entering(b1, 11, 102);
    assert {101} + {102} == {101, 102};
    ThenReserves(Setup() + [Planned(10, 101)] + [Planned(11, 102)], b2, PlanIds({101, 102}), {}, 10, 101);
    assert {} + {101} == {101};
    assert Booking(b2, 10, 101) == Halfway();
  }

  lemma OverbookingEnds(run: seq<Action>)
    requires At(run, Halfway(), PlanIds({101, 102}), {101})
    ensures At(run + [CancelAsked(102)] + [Planned(11, 103)] + [ReserveAsked(103)], Overbooked(),
               PlanIds({101, 102, 103}), {101, 103})
  {
    hide At, Scene;
    ThenCancels(run, Halfway(), PlanIds({101, 102}), {101}, 102);
    var b1 := Cancelling(Halfway(), 102);
    assert {101} - {102} == {101};
    ThenPlans(run + [CancelAsked(102)], b1, PlanIds({101, 102}), {101}, 11, 103);
    var b2 := Entering(b1, 11, 103);
    assert {101, 102} + {103} == {101, 102, 103};
    ThenReserves(run + [CancelAsked(102)] + [Planned(11, 103)], b2, PlanIds({101, 102, 103}), {101}, 11, 103);
    assert Booking(b2, 11, 103) == Overbooked();
    assert {101} + {103} == {101, 103};
  }

  lemma OverbookedCounts()
    ensures OpenOn(Scene(Overbooked()), 1) == {101, 103} && Capacity(Scene(Overbooked()), 1) == 1
  {
    hide ItsCaps, ItsEvidence, ItsRuntime, DefaultPolicy;
  }

  ghost predicate NoneRegisters(run: seq<Action>) {
    forall a | a in run :: !a.Registered?
  }

  lemma NothingElseRegisters()
    ensures Overbooking() != [] && Overbooking()[0] == Registered(REGISTRATION) && NoneRegisters(Overbooking()[1..])
  {
    hide Publication, Op;
    var rest := [Published(Publication()), Observed(SEEN), Beat(BEAT), Greeted(HELLO), OperationAdded(Op(10)),
                 OperationAdded(Op(11)), Planned(10, 101), Planned(11, 102), ReserveAsked(101), CancelAsked(102),
                 Planned(11, 103), ReserveAsked(103)];
    assert Overbooking() == [Registered(REGISTRATION)] + rest;
  }

  lemma FirstLeavesSlots()
    ensures LeavesSlots(After(1, []), Registered(REGISTRATION))
  {
  }

  lemma OverbookingKeepsCapacity()
    ensures CapacityKept(1, Overbooking())
  {
    hide After, Overbooking, RegisterTarget, SlotsOf;
    NothingElseRegisters();
    FirstLeavesSlots();
    var run := Overbooking();
    assert run[..0] == [];
    forall i | 0 < i < |run| ensures !run[i].Registered? {
      assert run[i] == run[1..][i - 1];
    }
  }

  /** Two plans are reserved on a target with one slot, although no registration took slots away. */
  lemma CapacityCanBeExceeded()
    ensures Legal(1, Overbooking()) && CapacityKept(1, Overbooking())
    ensures |OpenOn(After(1, Overbooking()).st, 1)| > Capacity(After(1, Overbooking()).st, 1)
  {
    hide After, Legal, Overbooked, Halfway, OpenOn, Capacity, Setup, CapacityKept, Scene;
    OverbookingKeepsCapacity();
    OverbookingStarts();
    OverbookingEnds(Setup() + [Planned(10, 101)] + [Planned(11, 102)] + [ReserveAsked(101)]);
    OverbookedCounts();
    assert |{101, 103}| == 2;
  }

  // ---- Dispatching ----

  function Bound(p: Id): Plan {
    Booked(1, 10, p).(dispatchId := Some(201), attemptId := Some(202))
  }

  lemma SceneSessions(b: Board)
    ensures SessionsOf(Scene(b), 7) != {}
  {
    hide ItsCaps, ItsEvidence, ItsRuntime, DefaultPolicy, TargetOf, Op;
    assert 5 in SessionsOf(Scene(b), 7);
  }

  lemma SceneFreshOperation(b: Board, p: Id)
    ensures FreshOperation(Scene(b), Booked(1, 10, p))
  {
    hide ItsCaps, ItsEvidence, ItsRuntime, TargetOf;
  }

  lemma SceneFresh(b: Board, p: Id)
    requires b.epoch == 1
    ensures Fresh(Scene(b), Booked(1, 10, p))
  {
    hide EntryMap, FreshOperation, DefaultPolicy, Op, Publication;
    SceneFreshOperation(b, p);
  }

  lemma ScenePrepares(b: Board, p: Id)
    requires b.epoch == 1 && p in b.plans && b.plans[p] == Booked(1, 10, p)
    ensures var r := PrepareDispatch(Scene(b), p, 201, 202, []);
            && r.0 == Scene(b.(plans := b.plans[p := Bound(p)])) && r.1.Ok?
            && r.1.value.message.dispatch == 201 && r.1.value.message.workerBoot == 7
  {
    hide ItsCaps, ItsEvidence, Fresh, SessionsOf, DefaultPolicy, TargetOf;
    SceneFresh(b, p);
    SceneSessions(b);
  }

  lemma SceneConfirms(b: Board, p: Id)
    requires p in b.plans && b.plans[p] == Bound(p)
    ensures ConfirmDispatched(Scene(b), p, 201) ==
            (Scene(b.(plans := b.plans[p := Bound(p).(lifecycle := DISPATCHED)])), Ok(()))
  {
    hide ItsCaps, ItsEvidence, ItsRuntime, TargetOf, DefaultPolicy;
  }

  function Dispatching(): seq<Action> {
    Setup() + [Planned(10, 101)] + [ReserveAsked(101)] + [PrepareAsked(101, 201, 202, [])] + [ConfirmAsked(101, 201)]
  }

  function Out(): Board {
    Board(1, map[101 := Bound(101).(lifecycle := DISPATCHED)], map[10 := 101], map[], map[1 := Reservation(1, 4)])
  }

  function Dispatched(used: Ids): Ids {
    Joined(used, Ids({}, {201}, {202}, {}))
  }

  lemma ThenDispatches(run: seq<Action>, b: Board, used: Ids, held: set<Id>, p: Id)
    requires At(run, b, used, held) && 201 !in used.dispatches && 202 !in used.attempts
    requires b.epoch == 1 && p in b.plans && b.plans[p] == Booked(1, 10, p)
    ensures At(run + [PrepareAsked(p, 201, 202, [])] + [ConfirmAsked(p, 201)],
               b.(plans := b.plans[p := Bound(p).(lifecycle := DISPATCHED)]), Dispatched(used), held)
  {
    hide At, Scene, PrepareDispatch, ConfirmDispatched, Booked;
    var b1 := b.(plans := b.plans[p := Bound(p)]);
    ScenePrepares(b, p);
    Then(run, PrepareAsked(p, 201, 202, []), b, b1, used, held);
    var b2 := b.(plans := b.plans[p := Bound(p).(lifecycle := DISPATCHED)]);
    SceneConfirms(b1, p);
    assert b1.(plans := b1.plans[p := Bound(p).(lifecycle := DISPATCHED)]) == b2;
    Then(run + [PrepareAsked(p, 201, 202, [])], ConfirmAsked(p, 201), b1, b2, Dispatched(used), held);
    JoinNone(Dispatched(used));
  }

  lemma DispatchingReaches()
    ensures At(Dispatching(), Out(), Dispatched(PlanIds({101})), {101})
  {
    hide At, Scene, Setup, Dispatched;
    AtSetup();
    ThenPlans(Setup(), START, NO_IDS, {}, 10, 101);
    var b1 := Entering(START, 10, 101);
    assert {} + {101} == {101};
    ThenReserves(Setup() + [Planned(10, 101)], b1, PlanIds({101}), {}, 10, 101);
    var b2 := Booking(b1, 10, 101);
    ThenDispatches(Setup() + [Planned(10, 101)] + [ReserveAsked(101)], b2, PlanIds({101}), {101}, 101);
    assert b2.(plans := b2.plans[101 := Bound(101).(lifecycle := DISPATCHED)]) == Out();
  }

  // ---- Twin plans ----

  /** The worker lost track of the execution. */
  function LostTrack(p: Id): ResultMsg {
    ResultMsg(p, 1, 201, 202, 1, 1, 7, 1, 1, 1, 1, 1, [], [], true, [])
  }

  function Losing(b: Board, p: Id, id: Id): Board {
    b.(plans := b.plans[p := Bound(p).(lifecycle := OUTCOME_UNKNOWN)], active := b.active - {10},
       results := b.results[id := ResultFor(LostTrack(p), id, Unknown)])
  }

  lemma SceneLoses(b: Board, p: Id, id: Id)
    requires b.epoch == 1 && p in b.plans && b.plans[p] == Bound(p).(lifecycle := DISPATCHED)
    ensures ApplyResult(Scene(b), LostTrack(p), id).0 == Scene(Losing(b, p, id))
    ensures !VerdictOf(LostTrack(p)).Intact?
  {
    hide ItsCaps, ItsEvidence, DefaultPolicy, ResultFor;
  }

  lemma ThenLoses(run: seq<Action>, b: Board, used: Ids, held: set<Id>, p: Id)
    requires At(run, b, used, held) && 301 !in used.results
    requires b.epoch == 1 && p in b.plans && b.plans[p] == Bound(p).(lifecycle := DISPATCHED)
    ensures At(run + [Completed(LostTrack(p), 301)], Losing(b, p, 301), used.(results := used.results + {301}), held)
  {
    hide At, Scene, ApplyResult, Bound, Losing, LostTrack, CompletionGuard, VerdictOf;
    SceneLoses(b, p, 301);
    Then(run, Completed(LostTrack(p), 301), b, Losing(b, p, 301), used, held);
    assert Joined(used, NewIds(Completed(LostTrack(p), 301))) == used.(results := used.results + {301});
  }

  function TwinRun(): seq<Action> {
    Dispatching() + [Completed(LostTrack(101), 301)] + [Planned(10, 102)] + [CancelAsked(101)] + [Planned(10, 103)]
  }

  lemma TwinsReached() returns (b: Board, used: Ids, held: set<Id>)
    ensures At(TwinRun(), b, used, held)
    ensures 102 in b.plans && b.plans[102] == NewPlan(1, 10, 102)
    ensures 103 in b.plans && b.plans[103] == NewPlan(1, 10, 103)
  {
    hide At, Scene, Dispatching, ResultFor, LostTrack;
    DispatchingReaches();
    var run := Dispatching();
    used := Dispatched(PlanIds({101}));
    ThenLoses(run, Out(), used, {101}, 101);
    run := run + [Completed(LostTrack(101), 301)];
    b, used, held := Losing(Out(), 101, 301), used.(results := used.results + {301}), {101};
    ThenPlans(run, b, used, held, 10, 102);
    run, b, used := run + [Planned(10, 102)], Entering(b, 10, 102), used.(plans := used.plans + {102});
    ThenCancels(run, b, used, held, 101);
    run, b, held := run + [CancelAsked(101)], Cancelling(b, 101), held - {101};
    ThenPlans(run, b, used, held, 10, 103);
    b, used := Entering(b, 10, 103), used.(plans := used.plans + {103});
  }

  lemma TwinsAreLive(b: Board)
    requires 102 in b.plans && b.plans[102] == NewPlan(1, 10, 102)
    requires 103 in b.plans && b.plans[103] == NewPlan(1, 10, 103)
    ensures LiveFor(Scene(b), 102, 10) && LiveFor(Scene(b), 103, 10)
  {
    hide ItsCaps, ItsEvidence, ItsRuntime, DefaultPolicy, TargetOf;
  }

  /** Cancelling a plan whose outcome is unknown lets its operation have two live plans at once. */
  lemma OneOperationTwoLivePlans()
    ensures Legal(1, TwinRun()) && !LiveUnique(After(1, TwinRun()).st)
  {
    hide After, Legal, TwinRun, LiveFor, Scene, NewPlan;
    var b, used, held := TwinsReached();
    TwinsAreLive(b);
  }

  // ---- Workspace given away ----

  function Drifting(): seq<Action> {
    Dispatching() + [Saved] + [Loaded] + Staffing() + [Planned(11, 102)] + [ReserveAsked(102)] + [CancelAsked(101)]
  }

  /** What a restart makes of the plan that was out. */
  function Back(): Board {
    var plans := map[101 := Bound(101).(lifecycle := OUTCOME_UNKNOWN)];
    Board(2, plans, Index(plans), map[], map[])
  }

  lemma RestartWorld(w: World)
    ensures Apply(Apply(w, Saved), Loaded) == World(Recover(Project(w.st)), Some(Project(w.st)), w.used, {})
    ensures Enabled(w, Saved) && Enabled(Apply(w, Saved), Loaded)
  {
    hide StateAfter, HeldAfter, Recover, Project;
  }

  lemma DurableOps(m: map<Id, Operation>)
    requires m == map[10 := Op(10), 11 := Op(11)]
    ensures Mapped(m, DurableOperation) == m
  {
  }

  lemma DurablePlans(m: map<Id, Plan>)
    requires m == map[101 := Bound(101).(lifecycle := DISPATCHED)]
    ensures Mapped(m, DurablePlan) == m
  {
  }

  lemma ProjectedOut()
    ensures Project(Scene(Out())) ==
            Scene(Out()).(evidence := map[], runtime := map[], caps := map[], active := map[], reservations := map[],
                          workers := map[])
  {
    hide TargetOf, ItsCaps, ItsEvidence, ItsRuntime, DefaultPolicy, Op, Bound, DurableOperation, DurablePlan;
    DurableOps(Scene(Out()).operations);
    DurablePlans(Scene(Out()).plans);
  }

  lemma RecoveredOut()
    ensures var n := Recover(Project(Scene(Out())));
            && Bare(n) && Staffed(n) == Scene(Back())
  {
    hide TargetOf, ItsCaps, ItsEvidence, ItsRuntime, DefaultPolicy, Index, Project, Op, Scene;
    ProjectedOut();
    ReopenedOut(Project(Scene(Out())));
  }

  lemma RecoveredBare(d: State)
    requires d.runtime == map[] && d.caps == map[] && d.evidence == map[]
    ensures Recover(d) == d.(epoch := Wrap(d.epoch + 1), plans := Mapped(d.plans, EpochClosed),
                             active := Index(Mapped(d.plans, EpochClosed)), reservations := map[], workers := map[])
  {
    hide Index, Mapped, EpochClosed;
    var n := Recover(d);
    assert n.runtime == map[] && n.caps == map[] && n.evidence == map[];
  }

  lemma ClosedOut()
    ensures Mapped(Out().plans, EpochClosed) == Back().plans
  {
    hide Index, Mapped;
  }

  lemma ReopenedOut(d: State)
    requires d == Scene(Out()).(evidence := map[], runtime := map[], caps := map[], active := map[],
                                reservations := map[], workers := map[])
    ensures Bare(Recover(d)) && Staffed(Recover(d)) == Scene(Back())
  {
    hide TargetOf, ItsCaps, ItsEvidence, ItsRuntime, DefaultPolicy, Index, Op, Mapped, Recover, EpochClosed, Bound;
    RecoveredBare(d);
    ClosedOut();
  }

  lemma BackReached()
    ensures At(Dispatching() + [Saved] + [Loaded] + Staffing(), Back(), Dispatched(PlanIds({101})), {})
  {
    hide Apply, Enabled, Scene, Dispatching, Out, Staffing, Staffed, Bare, Recover, Project, Back;
    DispatchingReaches();
    var run := Dispatching();
    var w := After(1, run);
    Snoc(1, run, Saved);
    Snoc(1, run + [Saved], Loaded);
    RestartWorld(w);
    RecoveredOut();
    Staffs(run + [Saved] + [Loaded], World(Recover(Project(w.st)), Some(Project(w.st)), w.used, {}));
  }

  lemma ElevenIsFree()
    ensures 11 !in Back().active
  {
  }

  /** What is left after the cancel: the counter is back at zero, and the second plan still holds. */
  function Drifted(): Board {
    Back().(plans := map[101 := Bound(101).(lifecycle := CANCELLED), 102 := Booked(2, 11, 102)],
            active := Back().active[11 := 102] - {10}, reservations := map[1 := Reservation(0, 0)])
  }

  lemma DriftingReaches()
    ensures At(Drifting(), Drifted(), Dispatched(PlanIds({101, 102})), {102})
  {
    hide At, Scene, Dispatching, Staffing, Index;
    BackReached();
    ElevenIsFree();
    var run := Dispatching() + [Saved] + [Loaded] + Staffing();
    ThenPlans(run, Back(), Dispatched(PlanIds({101})), {}, 11, 102);
    var b1 := Entering(Back(), 11, 102);
    var used := Dispatched(PlanIds({101, 102}));
    var was := Dispatched(PlanIds({101}));
    assert was.plans + {102} == used.plans;
    assert was.(plans := was.plans + {102}) == used;
    ThenReserves(run + [Planned(11, 102)], b1, used, {}, 11, 102);
    var b2 := Booking(b1, 11, 102);
    assert {} + {102} == {102};
    ThenCancels(run + [Planned(11, 102)] + [ReserveAsked(102)], b2, used, {102}, 101);
    assert {102} - {101} == {102};
    assert Cancelling(b2, 101) == Drifted();
  }

  lemma DriftedCounts(w: World)
    requires w.st == Scene(Drifted()) && w.held == {102}
    ensures WorkspaceOf(w, 1) == 0 && OwedOn(w, 1) == 4
  {
    hide ItsCaps, ItsEvidence, ItsRuntime, DefaultPolicy, TargetOf, Index;
    assert HeldOn(w, 1) == {102};
    assert Least({102}) == 102 && {102} - {102} == {};
    assert Owed(w.st.plans, {}) == 0;
  }

  lemma DriftsWithSmallBudgets()
    ensures forall a | a in Drifting() :: RegistersSmall(a)
  {
    hide Publication, Op;
    var staffing := [Registered(REGISTRATION), Published(Publication()), Observed(SEEN), Beat(BEAT), Greeted(HELLO)];
    assert Drifting() == staffing + [OperationAdded(Op(10)), OperationAdded(Op(11)), Planned(10, 101),
      ReserveAsked(101), PrepareAsked(101, 201, 202, []), ConfirmAsked(101, 201), Saved, Loaded] + staffing +
      [Planned(11, 102), ReserveAsked(102), CancelAsked(101)];
  }

  /**
   A plan that was out when the coordinator restarted is cancelled afterwards: the workspace that another plan
   reserved in the meantime is taken off the counter, although every budget is small.
   */
  lemma WorkspaceCanBeGivenAway()
    ensures Legal(1, Drifting()) && forall a | a in Drifting() :: RegistersSmall(a)
    ensures WorkspaceOf(After(1, Drifting()), 1) == 0 && OwedOn(After(1, Drifting()), 1) == 4
    ensures !Exact(After(1, Drifting()))
  {
    hide After, Legal, Scene, WorkspaceOf, OwedOn, Drifted, Drifting, RegistersSmall;
    DriftsWithSmallBudgets();
    DriftingReaches();
    DriftedCounts(After(1, Drifting()));
  }

  // ---- A completion that names another target ----

  const RENEWED: RegisterTargetMsg := REGISTRATION.(generation := 2)

  /** The target registered anew while the plan is out. */
  function Renewed(): State {
    Scene(Out()).(targets := map[1 := TargetOf(RENEWED)], runtime := map[1 := NewRuntime(7)])
  }

  lemma RenewedState()
    ensures RegisterTarget(Scene(Out()), RENEWED).0 == Renewed()
  {
    hide ItsCaps, ItsEvidence, DefaultPolicy, Op, Bound;
  }

  /** All that was pinned and bound, under a target nobody registered. */
  function Misnamed(): ResultMsg {
    ResultMsg(101, 1, 201, 202, 9, 1, 7, 1, 1, 1, 1, 1, [], HexDigest([]), false, [])
  }

  function Misnaming(): seq<Action> {
    Dispatching() + [Registered(RENEWED)]
  }

  lemma MisnamingReaches()
    ensures Legal(1, Misnaming()) && After(1, Misnaming()).st == Renewed()
    ensures After(1, Misnaming()).used == Dispatched(PlanIds({101}))
  {
    hide Apply, Enabled, Scene, Dispatching, Out, RegisterTarget, Renewed;
    DispatchingReaches();
    RenewedState();
    var run := Extended(Dispatching(), Registered(RENEWED), After(1, Dispatching()));
  }

  lemma MisnamedRepeats()
    ensures Repeats(Renewed(), Misnamed()) && 9 !in Renewed().targets && 9 !in Renewed().runtime
    ensures !Vouches(Renewed(), 1, Renewed().plans[101].authority.snapshot)
  {
    hide ItsCaps, ItsEvidence, ItsRuntime, DefaultPolicy, Op, HexDigest;
  }

  lemma MisnamedCommits()
    ensures CompletionGuard(Renewed(), Misnamed()).Ok? && CompletionGuard(Renewed(), Misnamed().(target := 1)).Err?
    ensures var n := ApplyResult(Renewed(), Misnamed(), 301).0;
            && n.plans == map[101 := Bound(101).(lifecycle := COMMITTED)] && n.targets == Renewed().targets
            && n.results == map[301 := ResultFor(Misnamed(), 301, Intact)]
  {
    hide Scene, CompletionGuard, Repeats, Vouches, Bound, ResultFor, HexDigest, Released;
    MisnamedRepeats();
    UnknownTargetIsAccepted(Renewed(), Misnamed(), 9);
    assert Misnamed().(target := 9) == Misnamed();
    AcceptedIff(Renewed(), Misnamed(), 1);
    RenewedPlans();
    assert VerdictOf(Misnamed()) == Intact;
  }

  lemma RenewedPlans()
    ensures Renewed().plans == Out().plans && Renewed().results == map[]
  {
    hide ItsCaps, ItsEvidence, ItsRuntime, DefaultPolicy, Op, TargetOf;
  }

  /**
   A plan is out, its target is registered anew under another generation, and the worker's completion comes in. Naming
   the target it is refused; naming one that was never registered it is committed, and stored under that name.
   */
  lemma CommitsUnderAWrongName()
    ensures var run := Misnaming() + [Completed(Misnamed(), 301)];
            var s := After(1, run).st;
            && Legal(1, run) && CompletionGuard(After(1, Misnaming()).st, Misnamed().(target := 1)).Err?
            && 101 in s.plans && s.plans[101].lifecycle == COMMITTED && s.plans[101].target == 1
            && 1 in s.targets && s.targets[1].generation != s.plans[101].authority.snapshot.targetGeneration
            && 301 in s.results && s.results[301].plan == 101 && s.results[301].committed && s.results[301].target == 9
  {
    hide Apply, After, Legal, Misnaming, Renewed, CompletionGuard, ApplyResult, Scene, HexDigest;
    MisnamingReaches();
    MisnamedCommits();
    Snoc(1, Misnaming(), Completed(Misnamed(), 301));
    WorkWorld(After(1, Misnaming()), Completed(Misnamed(), 301));
    RenewedTarget();
  }

  lemma RenewedTarget()
    ensures 1 in Renewed().targets && Renewed().targets[1].generation == 2
  {
    hide ItsCaps, ItsEvidence, ItsRuntime, DefaultPolicy, Op, Bound;
  }
}
