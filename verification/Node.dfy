/**
 The coordinator process: concurrent connection handlers share the coordinator and the table of clients waiting
 for a dispatch. Every access to the coordinator or to the table is one step; steps of different handlers
 interleave freely.
 */
module Node {
  import opened Types
  import opened Ordered
  import opened Engine
  import opened Runs

  /** Where the handler of one client dispatch request is. */
  datatype Stage =
    | Asked | Held | Prepared | Located | Confirmed | Awaiting | Sent | Failing | Cancelling | Abandoning
    | Done(reply: ClientReplyMsg)

  datatype Client = Client(plan: Id, msg: Option<DispatchMsg>, stage: Stage)

  datatype Waiter = Waiter(client: nat, boot: Id)

  datatype Settlement = Settlement(client: nat, reply: ClientReplyMsg)

  datatype Answer = Answer(dispatch: Id, reply: ClientReplyMsg)

  /**
   `pending` maps a dispatch to the promise of its client; `settled` holds the promises that have been given a
   value, and `broken` says that one was given a second value. `sent` is every dispatch frame that may have
   reached a worker. `answers` and `leaving` are the handlers between their coordinator step and their table step.
   */
  datatype Node = Node(
    world: World, workers: set<Id>, clients: map<nat, Client>,
    pending: map<Id, Waiter>, settled: map<Id, Settlement>, broken: bool,
    sent: set<DispatchMsg>, answers: map<nat, Answer>, leaving: map<nat, Id>)

  function Start(w: World): Node {
    Node(w, {}, map[], map[], map[], false, {}, map[], map[])
  }

  datatype Step =
    | Request(client: nat, plan: Id)
    | ReserveFor(client: nat)
    | PrepareFor(client: nat, dispatch: Id, attempt: Id, payload: bytes)
    | LocateFor(client: nat)
    | ConfirmFor(client: nat)
    | AwaitFor(client: nat)
    | SendFor(client: nat, ok: bool, out: bool)
    | FailFor(client: nat)
    | CancelFor(client: nat)
    | Collect(client: nat)
    | ResultArrives(handler: nat, result: ResultMsg, id: Id)
    | Reply(handler: nat)
    | WorkerJoins(boot: Id)
    | WorkerLeaves(handler: nat, boot: Id)
    | Forget(handler: nat)
    | Other(action: Action)

  /** The coordinator operation behind a step. */
  function Operates(n: Node, step: Step): Option<Action> {
    match step
    case ReserveFor(k) => if k in n.clients then Some(ReserveAsked(n.clients[k].plan)) else None
    case PrepareFor(k, d, a, payload) =>
      if k in n.clients then Some(PrepareAsked(n.clients[k].plan, d, a, payload)) else None
    case ConfirmFor(k) =>
      if k in n.clients && n.clients[k].msg.Some?
      then Some(ConfirmAsked(n.clients[k].plan, n.clients[k].msg.value.dispatch)) else None
    case CancelFor(k) => if k in n.clients then Some(CancelAsked(n.clients[k].plan)) else None
    case ResultArrives(_, m, id) => Some(Completed(m, id))
    case WorkerLeaves(_, boot) => Some(WorkerDropped(boot))
    case Other(a) => Some(a)
    case _ => None
  }

  function Blank(plan: Id): ClientReplyMsg {
    ClientReplyMsg(false, plan, REJECT, false, false, false, UNVERIFIED, 0, [], [])
  }

  /** The reply a result handler builds from the outcome of the completion. */
  function ReplyTo(m: ResultMsg, outcome: Outcome<ExecResult>): ClientReplyMsg {
    match outcome
    case Ok(x) => ClientReplyMsg(true, m.plan, REJECT, false, x.committed, x.ambiguous, x.verification,
                                 x.outputBytes, x.outputDigest, x.note)
    case Err(_) => Blank(m.plan)
  }

  function Stands(n: Node, k: nat, stage: Stage): Node
    requires k in n.clients
  {
    n.(clients := n.clients[k := n.clients[k].(stage := stage)])
  }

  /** Hand a reply to whoever waits for a dispatch, if anyone does. */
  function Resolve(n: Node, d: Id, reply: ClientReplyMsg): (r: Node)
    ensures r == n.(pending := r.pending, settled := r.settled, broken := r.broken)
  {
    if d !in n.pending then n
    else n.(pending := n.pending - {d}, settled := n.settled[d := Settlement(n.pending[d].client, reply)],
             broken := n.broken || d in n.settled)
  }

  function WaitingOn(n: Node, boot: Id): set<Id> {
    set d | d in n.pending && n.pending[d].boot == boot
  }

  function Lost(): ClientReplyMsg {
    Blank(0).(ambiguous := true)
  }

  /** Everyone who was waiting is told that the outcome is unknown. */
  function Orphaned(waits: map<Id, Waiter>): map<Id, Settlement> {
    Mapped(waits, (wait: Waiter) => Settlement(wait.client, Lost()))
  }

  function ResolveAll(n: Node, boot: Id): (r: Node)
    ensures r == n.(pending := r.pending, settled := r.settled, broken := r.broken, workers := r.workers)
  {
    var gone := WaitingOn(n, boot);
    n.(pending := n.pending - gone, settled := n.settled + Orphaned(n.pending - (n.pending.Keys - gone)),
       broken := n.broken || gone * n.settled.Keys != {}, workers := n.workers - {boot})
  }

  /** When a step can happen. */
  predicate Ready(n: Node, step: Step) {
    && (Operates(n, step).Some? ==> Enabled(n.world, Operates(n, step).value))
    && match step
       case Request(k, _) => k !in n.clients
       case ReserveFor(k) => k in n.clients && n.clients[k].stage == Asked
       case PrepareFor(k, d, a, _) => k in n.clients && n.clients[k].stage == Held
       case LocateFor(k) => k in n.clients && n.clients[k].stage == Prepared && n.clients[k].msg.Some?
       case ConfirmFor(k) => k in n.clients && n.clients[k].stage == Located && n.clients[k].msg.Some?
       case AwaitFor(k) => k in n.clients && n.clients[k].stage == Confirmed && n.clients[k].msg.Some?
       case SendFor(k, ok, out) =>
         k in n.clients && n.clients[k].stage == Awaiting && n.clients[k].msg.Some? && (ok ==> out)
       case FailFor(k) => k in n.clients && n.clients[k].stage == Failing && n.clients[k].msg.Some?
       case CancelFor(k) => k in n.clients && n.clients[k].stage in {Cancelling, Abandoning}
       case Collect(k) =>
         k in n.clients && n.clients[k].stage == Sent && n.clients[k].msg.Some?
         && n.clients[k].msg.value.dispatch in n.settled
       case ResultArrives(h, _, _) => h !in n.answers
       case Reply(h) => h in n.answers
       case WorkerJoins(_) => true
       case WorkerLeaves(h, _) => h !in n.leaving
       case Forget(h) => h in n.leaving
       case Other(a) => (Quiet(a) && !a.Loaded?) || a.Planned? || Sweeps(a)
  }

  /** What the step does to the handlers and tables. */
  function Handles(n: Node, step: Step): Node
    requires Ready(n, step)
  {
    var s := n.world.st;
    match step
    case Request(k, p) => n.(clients := n.clients[k := Client(p, None, Asked)])
    case ReserveFor(k) =>
      Stands(n, k, if Reserve(s, n.clients[k].plan).1.Ok? then Held else Done(Blank(n.clients[k].plan)))
    case PrepareFor(k, d, a, payload) =>
      var r := PrepareDispatch(s, n.clients[k].plan, d, a, payload).1;
      if r.Ok? then n.(clients := n.clients[k := Client(n.clients[k].plan, Some(r.value.message), Prepared)])
      else Stands(n, k, Done(Blank(n.clients[k].plan)))
    case LocateFor(k) => Stands(n, k, if n.clients[k].msg.value.workerBoot in n.workers then Located else Abandoning)
    case ConfirmFor(k) =>
      Stands(n, k, if ConfirmDispatched(s, n.clients[k].plan, n.clients[k].msg.value.dispatch).1.Ok?
                   then Confirmed else Abandoning)
    case AwaitFor(k) =>
      var msg := n.clients[k].msg.value;
      Stands(n, k, Awaiting).(pending := n.pending[msg.dispatch := Waiter(k, msg.workerBoot)])
    case SendFor(k, ok, out) =>
      var msg := n.clients[k].msg.value;
      Stands(n, k, if ok then Sent else Failing).(sent := if out then n.sent + {msg} else n.sent)
    case FailFor(k) =>
      Stands(Resolve(n, n.clients[k].msg.value.dispatch, Blank(n.clients[k].plan).(ambiguous := true)), k, Cancelling)
    case CancelFor(k) =>
      Stands(n, k, if n.clients[k].stage.Cancelling? then Sent else Done(Blank(n.clients[k].plan)))
    case Collect(k) => Stands(n, k, Done(n.settled[n.clients[k].msg.value.dispatch].reply))
    case ResultArrives(h, m, id) =>
      n.(answers := n.answers[h := Answer(m.dispatch, ReplyTo(m, ApplyResult(s, m, id).1))])
    case Reply(h) => Resolve(n, n.answers[h].dispatch, n.answers[h].reply).(answers := n.answers - {h})
    case WorkerJoins(boot) => n.(workers := n.workers + {boot})
    case WorkerLeaves(h, boot) => n.(leaving := n.leaving[h := boot])
    case Forget(h) => ResolveAll(n, n.leaving[h]).(leaving := n.leaving - {h})
    case Other(_) => n
  }

  function Next(n: Node, step: Step): Node
    requires Ready(n, step)
  {
    var op := Operates(n, step);
    var w := if op.None? then n.world else Apply(n.world, op.value);
    Handles(n, step).(world := w)
  }
}
