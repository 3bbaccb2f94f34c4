/** The HTTP routes as two-step protocols over both services, in every interleaving. */
module DispatchRoutes {
  import opened Collections
  import opened DomainEvents
  import opened OrderLifecycle
  import opened CourierJobs

  /** Requests with an empty courier identifier are refused, and such an answer counts as none. */
  type CourierName = s: string | s != "" witness "courier"

  /** The second half of a request in progress. ClientAnswer waits for the dispatch client. */
  datatype Continuation =
    | FollowUp(command: JobCommand, orderId: string, courierId: string)
    | ClientAnswer(orderId: string)

  datatype System = System(ledger: Ledger, jobs: Jobs, pending: multiset<Continuation>)

  const START := System(EMPTY_LEDGER, map[], multiset{})

  /** The order commands that routes issue on their own, in one call. */
  type DirectCommand = c: Command |
    c.MerchantAccept? || c.MerchantTimeout? || c.RequestDispatch? || c.RequestCancellation?
    witness MerchantAccept

  datatype Label =
    | NewOrderPlaced(id: string, checkoutId: string, checkout: Checkout, at: int)
    | Direct(id: string, direct: DirectCommand, at: int)
    | DispatchWithClient(id: string, at: int)
    | JobCall(command: JobCommand, id: string, courierId: CourierName, at: int)
    | ListJobs
    | Resume(pending: Continuation, answer: Option<CourierName>, at: int)

  /** The order call that completes a job route. */
  function SecondCall(c: JobCommand, courierId: string): Command {
    match c
    case Accept => AssignCourier(courierId)
    case Pickup => MarkPickedUp(courierId)
    case Dropoff => MarkDelivered(courierId)
  }

  /** One atomic service call. A label that is not enabled leaves the system as it is. */
  function Next(s: System, l: Label): System {
    match l
    case NewOrderPlaced(id, checkoutId, checkout, now) =>
      if id in s.ledger.orders then s else s.(ledger := Create(s.ledger, id, checkoutId, checkout, now))
    case Direct(id, command, now) => s.(ledger := Call(s.ledger, id, command, now))
    case DispatchWithClient(id, now) =>
      var reply := Reply(s.ledger, id, RequestDispatch, now);
      s.(ledger := Call(s.ledger, id, RequestDispatch, now),
         pending := s.pending +
           if reply.Ok? && reply.value.status == DispatchPending then multiset{ClientAnswer(id)} else multiset{})
    case JobCall(command, id, courierId, now) =>
      var (jobs, r) := CallJob(s.ledger.orders, s.jobs, id, command, courierId, now);
      s.(jobs := jobs,
         pending := s.pending + if r.Ok? then multiset{FollowUp(command, r.value.orderId, courierId)} else multiset{})
    case ListJobs => s.(jobs := Synced(s.ledger.orders, s.jobs))
    case Resume(k, answer, now) =>
      if k !in s.pending then s
      else
        var t := s.(pending := s.pending - multiset{k});
        match k
        case FollowUp(command, id, courierId) =>
          t.(ledger := Call(s.ledger, id, SecondCall(command, courierId), now))
        case ClientAnswer(id) =>
          if answer.None? then t else t.(ledger := Call(s.ledger, id, AssignCourier(answer.value), now))
  }

  function Run(s: System, labels: seq<Label>): System {
    if labels == [] then s else Next(Run(s, labels[..|labels| - 1]), labels[|labels| - 1])
  }

  function JobRank(status: JobStatus): nat {
    match status
    case Available => 0
    case Accepted => 1
    case JobPickedUp => 2
    case DroppedOff => 3
  }

  function CommandRank(c: JobCommand): nat {
    match c
    case Accept => 1
    case Pickup => 2
    case Dropoff => 3
  }

  /** The job of `id` is held by `courierId` and has got at least as far as `rank`. */
  ghost predicate Held(jobs: Jobs, id: string, courierId: Option<string>, rank: nat) {
    && id in jobs && courierId.Some? && jobs[id].courierId == courierId
    && JobRank(jobs[id].status) >= rank
  }

  ghost predicate JobInvariant(s: System, id: string) {
    id in s.jobs ==>
      && s.jobs[id].jobId == id && s.jobs[id].orderId == id
      && (s.jobs[id].courierId == None <==> s.jobs[id].status == Available)
      && s.jobs[id].courierId != Some("")
      && id in s.ledger.orders && s.ledger.orders[id].status !in {Created, MerchantAccepted}
  }

  ghost predicate OrderInvariant(s: System, id: string) {
    id in s.ledger.orders ==>
      var o := s.ledger.orders[id];
      && o.id == id
      && (o.status == CourierAssigned ==> o.courierId.Some? && o.courierId != Some(""))
      && (o.status == PickedUp ==> Held(s.jobs, id, o.courierId, 2))
      && (o.status == Delivered ==> Held(s.jobs, id, o.courierId, 3))
  }

  ghost predicate PendingInvariant(s: System, k: Continuation) {
    k in s.pending && k.FollowUp? ==> Held(s.jobs, k.orderId, Some(k.courierId), CommandRank(k.command))
  }

  ghost predicate Safe(s: System) {
    && (forall id :: JobInvariant(s, id))
    && (forall id :: OrderInvariant(s, id))
    && (forall k :: PendingInvariant(s, k))
  }

  /** No job disappears, changes its courier once set, or goes back. */
  ghost predicate JobsOnlyAdvance(before: Jobs, after: Jobs) {
    forall id :: id in before ==>
      && id in after
      && (before[id].courierId.Some? ==> after[id].courierId == before[id].courierId)
      && JobRank(before[id].status) <= JobRank(after[id].status)
  }

  lemma CallTouchesOneOrder(s: Ledger, id: string, c: Command, now: int)
    requires forall o :: o in s.orders ==> s.orders[o].id == o
    ensures forall other :: other != id ==>
              (other in Call(s, id, c, now).orders <==> other in s.orders)
    ensures forall other :: other != id && other in s.orders ==>
              Call(s, id, c, now).orders[other] == s.orders[other]
    ensures id in Call(s, id, c, now).orders <==> id in s.orders
    ensures id in s.orders ==>
              Call(s, id, c, now).orders[id] ==
              match Decide(s.orders[id], c, now) case Change(o, _) => o case _ => s.orders[id]
  {
  }

  lemma SyncIsSafe(s: System)
    requires Safe(s)
    ensures Safe(s.(jobs := Synced(s.ledger.orders, s.jobs)))
    ensures JobsOnlyAdvance(s.jobs, Synced(s.ledger.orders, s.jobs))
  {
    var t := s.(jobs := Synced(s.ledger.orders, s.jobs));
    forall id ensures JobInvariant(t, id) { assert JobInvariant(s, id) && OrderInvariant(s, id); }
    forall id ensures OrderInvariant(t, id) { assert OrderInvariant(s, id); }
    forall k ensures PendingInvariant(t, k) { assert PendingInvariant(s, k); }
  }

  /** Replacing one job by what a command decides for it. */
  lemma JobDecisionIsSafe(s: System, id: string, c: JobCommand, courierId: CourierName, now: int)
    requires Safe(s) && id in s.jobs && DecideJob(s.jobs[id], c, courierId, now).Ok?
    ensures var job := DecideJob(s.jobs[id], c, courierId, now).value;
            var t := s.(jobs := s.jobs[job.jobId := job],
                        pending := s.pending + multiset{FollowUp(c, job.orderId, courierId)});
            Safe(t) && JobsOnlyAdvance(s.jobs, t.jobs)
  {
    assert JobInvariant(s, id);
    var job := DecideJob(s.jobs[id], c, courierId, now).value;
    var k := FollowUp(c, job.orderId, courierId);
    var t := s.(jobs := s.jobs[job.jobId := job], pending := s.pending + multiset{k});
    forall other ensures JobInvariant(t, other) { assert JobInvariant(s, other); }
    forall other ensures OrderInvariant(t, other) { assert OrderInvariant(s, other); }
    forall j ensures PendingInvariant(t, j) { assert PendingInvariant(s, j); }
  }

  lemma JobCallIsSafe(s: System, c: JobCommand, id: string, courierId: CourierName, now: int)
    requires Safe(s)
    ensures Safe(Next(s, JobCall(c, id, courierId, now)))
    ensures JobsOnlyAdvance(s.jobs, Next(s, JobCall(c, id, courierId, now)).jobs)
  {
    var t := s.(jobs := Synced(s.ledger.orders, s.jobs));
    SyncIsSafe(s);
    if id in t.jobs && DecideJob(t.jobs[id], c, courierId, now).Ok? {
      JobDecisionIsSafe(t, id, c, courierId, now);
    } else {
      assert Next(s, JobCall(c, id, courierId, now)) == t;
    }
  }

  /** An order call that never outruns the job. */
  ghost predicate Backed(s: System, id: string, c: Command) {
    match c
    case AssignCourier(courier) => courier != ""
    case MarkPickedUp(courier) => Held(s.jobs, id, Some(courier), 2)
    case MarkDelivered(courier) => Held(s.jobs, id, Some(courier), 3)
    case _ => true
  }

  lemma OrderCallKeepsOrder(s: System, id: string, c: Command, now: int, other: string)
    requires Safe(s) && Backed(s, id, c)
    ensures OrderInvariant(System(Call(s.ledger, id, c, now), s.jobs, s.pending), other)
    ensures JobInvariant(System(Call(s.ledger, id, c, now), s.jobs, s.pending), other)
  {
    forall o | o in s.ledger.orders ensures s.ledger.orders[o].id == o { assert OrderInvariant(s, o); }
    CallTouchesOneOrder(s.ledger, id, c, now);
    assert OrderInvariant(s, other) && JobInvariant(s, other);
  }

  lemma OrderCallIsSafe(s: System, id: string, c: Command, now: int, pending: multiset<Continuation>)
    requires Safe(s) && Backed(s, id, c)
    requires forall k :: k in pending && k.FollowUp? ==> k in s.pending
    ensures Safe(System(Call(s.ledger, id, c, now), s.jobs, pending))
  {
    var t := System(Call(s.ledger, id, c, now), s.jobs, pending);
    forall other ensures JobInvariant(t, other) && OrderInvariant(t, other) {
      OrderCallKeepsOrder(s, id, c, now, other);
    }
    forall k ensures PendingInvariant(t, k) { assert PendingInvariant(s, k); }
  }

  lemma PlacingIsSafe(s: System, id: string, checkoutId: string, checkout: Checkout, now: int)
    requires Safe(s) && id !in s.ledger.orders
    ensures Safe(s.(ledger := Create(s.ledger, id, checkoutId, checkout, now)))
  {
    var t := s.(ledger := Create(s.ledger, id, checkoutId, checkout, now));
    forall other ensures JobInvariant(t, other) { assert JobInvariant(s, other); }
    forall other ensures OrderInvariant(t, other) { assert OrderInvariant(s, other) && JobInvariant(s, other); }
    forall k ensures PendingInvariant(t, k) { assert PendingInvariant(s, k); }
  }

  lemma NextIsSafe(s: System, l: Label)
    requires Safe(s)
    ensures Safe(Next(s, l)) && JobsOnlyAdvance(s.jobs, Next(s, l).jobs)
  {
    match l
    case NewOrderPlaced(id, checkoutId, checkout, now) =>
      if id !in s.ledger.orders { PlacingIsSafe(s, id, checkoutId, checkout, now); }
    case Direct(id, command, now) => OrderCallIsSafe(s, id, command, now, s.pending);
    case DispatchWithClient(id, now) =>
      OrderCallIsSafe(s, id, RequestDispatch, now, Next(s, l).pending);
    case JobCall(command, id, courierId, now) => JobCallIsSafe(s, command, id, courierId, now);
    case ListJobs => SyncIsSafe(s);
    case Resume(k, answer, now) =>
      assert PendingInvariant(s, k);
      var rest := s.pending - multiset{k};
      if k in s.pending {
        match k
        case FollowUp(command, id, courierId) =>
          assert JobInvariant(s, id);
          OrderCallIsSafe(s, id, SecondCall(command, courierId), now, rest);
        case ClientAnswer(id) =>
          OrderCallIsSafe(s, id, AssignCourier(if answer.Some? then answer.value else "courier"), now, rest);
          if answer.None? { DroppingIsSafe(s, rest); }
      }
  }

  lemma DroppingIsSafe(s: System, pending: multiset<Continuation>)
    requires Safe(s) && pending <= s.pending
    ensures Safe(s.(pending := pending))
  {
    var t := s.(pending := pending);
    forall id ensures JobInvariant(t, id) { assert JobInvariant(s, id); }
    forall id ensures OrderInvariant(t, id) { assert OrderInvariant(s, id); }
    forall k ensures PendingInvariant(t, k) { assert PendingInvariant(s, k); }
  }

  lemma {:induction false} RunIsSafe(s: System, labels: seq<Label>)
    requires Safe(s)
    ensures Safe(Run(s, labels)) && JobsOnlyAdvance(s.jobs, Run(s, labels).jobs)
  {
    if labels != [] {
      RunIsSafe(s, labels[..|labels| - 1]);
      NextIsSafe(Run(s, labels[..|labels| - 1]), labels[|labels| - 1]);
    }
  }

  lemma StartIsSafe()
    ensures Safe(START)
  {
  }

  /** A picked-up (delivered) order has a job held by the same courier that is picked up or
      dropped off (dropped off). */
  ghost predicate TrailsItsJob(s: System, id: string) {
    id in s.ledger.orders ==>
      var o := s.ledger.orders[id];
      && (o.status == PickedUp ==>
            && id in s.jobs && o.courierId.Some? && s.jobs[id].courierId == o.courierId
            && s.jobs[id].status in {JobPickedUp, DroppedOff})
      && (o.status == Delivered ==>
            && id in s.jobs && o.courierId.Some? && s.jobs[id].courierId == o.courierId
            && s.jobs[id].status == DroppedOff)
  }

  lemma SafeOrdersTrail(s: System, id: string)
    requires OrderInvariant(s, id)
    ensures TrailsItsJob(s, id)
  {
  }

  /** Under every interleaving no order gets ahead of its job. */
  lemma {:induction false} OrdersNeverOutrunTheirJobs(labels: seq<Label>, id: string)
    ensures TrailsItsJob(Run(START, labels), id)
  {
    StartIsSafe();
    RunIsSafe(START, labels);
    SafeOrdersTrail(Run(START, labels), id);
  }

  lemma {:induction false} RunConcat(s: System, a: seq<Label>, b: seq<Label>)
    ensures Run(s, a + b) == Run(Run(s, a), b)
  {
    if b == [] {
      assert a + b == a;
    } else {
      assert (a + b)[..|a + b| - 1] == a + b[..|b| - 1];
      RunConcat(s, a, b[..|b| - 1]);
    }
  }

  /** Between any two points of a run no job is lost, taken over or set back. */
  lemma JobsAreNeverTakenOver(labels: seq<Label>, later: seq<Label>)
    ensures JobsOnlyAdvance(Run(START, labels).jobs, Run(START, labels + later).jobs)
  {
    StartIsSafe();
    RunIsSafe(START, labels);
    RunIsSafe(Run(START, labels), later);
    RunConcat(START, labels, later);
  }
}

/** Whole routes without a dispatch client: orders and jobs move in lock-step. */
module RouteSimulation {
  import opened Collections
  import opened DomainEvents
  import opened OrderLifecycle
  import opened CourierJobs
  import opened DispatchRoutes

  type SimpleLabel = l: Label | l.NewOrderPlaced? || l.Direct? || l.ListJobs?
    witness ListJobs

  /** A request handled from start to end. */
  datatype Route =
    | Simple(call: SimpleLabel)
    | JobRoute(command: JobCommand, id: string, courierId: CourierName, at: int, finishedAt: int)

  function Whole(s: System, r: Route): System {
    match r
    case Simple(l) => Next(s, l)
    case JobRoute(c, id, courierId, now, finishedAt) =>
      var t := Next(s, JobCall(c, id, courierId, now));
      var reply := CallJob(s.ledger.orders, s.jobs, id, c, courierId, now).1;
      if reply.Err? then t
      else Next(t, Resume(FollowUp(c, reply.value.orderId, courierId), None, finishedAt))
  }

  function RunWhole(s: System, routes: seq<Route>): System {
    if routes == [] then s else Whole(RunWhole(s, routes[..|routes| - 1]), routes[|routes| - 1])
  }

  /** An order, unless cancelled, and its job are in matching states. */
  ghost predicate InStep(o: Order, job: Option<Job>) {
    match o.status
    case Created | MerchantAccepted => job.None?
    case DispatchPending => job.Some? ==> job.value.status == Available
    case CourierAssigned => Matches(o, job, Accepted)
    case PickedUp => Matches(o, job, JobPickedUp)
    case Delivered => Matches(o, job, DroppedOff)
    case Cancelled => true
  }

  ghost predicate Matches(o: Order, job: Option<Job>, status: JobStatus) {
    job.Some? && job.value.status == status && job.value.courierId.Some? && job.value.courierId == o.courierId
  }

  function JobOf(s: System, id: string): Option<Job> {
    if id in s.jobs then Some(s.jobs[id]) else None
  }

  ghost predicate LockStep(s: System, id: string) {
    && (id in s.jobs ==> id in s.ledger.orders && s.jobs[id].jobId == id && s.jobs[id].orderId == id)
    && (id in s.ledger.orders ==> s.ledger.orders[id].id == id && InStep(s.ledger.orders[id], JobOf(s, id)))
  }

  ghost predicate AllInStep(s: System) {
    s.pending == multiset{} && forall id :: LockStep(s, id)
  }

  lemma SimpleKeepsStep(s: System, l: SimpleLabel)
    requires AllInStep(s)
    ensures AllInStep(Next(s, l))
  {
    forall o | o in s.ledger.orders ensures s.ledger.orders[o].id == o { assert LockStep(s, o); }
    if l.Direct? { CallTouchesOneOrder(s.ledger, l.id, l.direct, l.at); }
    var t := Next(s, l);
    forall id ensures LockStep(t, id) { assert LockStep(s, id); }
  }

  /** The effect of a whole job route, with the follow-up consumed. */
  lemma WholeJobRoute(s: System, c: JobCommand, id: string, courierId: CourierName, now: int, finishedAt: int)
    ensures var (jobs, r) := CallJob(s.ledger.orders, s.jobs, id, c, courierId, now);
            Whole(s, JobRoute(c, id, courierId, now, finishedAt)) ==
            System(if r.Err? then s.ledger else Call(s.ledger, r.value.orderId, SecondCall(c, courierId), finishedAt),
                   jobs, s.pending)
  {
    var r := CallJob(s.ledger.orders, s.jobs, id, c, courierId, now).1;
    if r.Ok? {
      var k := FollowUp(c, r.value.orderId, courierId);
      assert s.pending + multiset{k} - multiset{k} == s.pending;
    } else {
      assert s.pending + multiset{} == s.pending;
    }
  }

  /** One order and one job under one route. */
  lemma RouteKeepsPairInStep(o: Order, job: Job, c: JobCommand, courierId: string, now: int, finishedAt: int)
    requires InStep(o, Some(job)) && DecideJob(job, c, courierId, now).Ok?
    ensures var d := Decide(o, SecondCall(c, courierId), finishedAt);
            InStep(if d.Change? then d.order else o, Some(DecideJob(job, c, courierId, now).value))
  {
  }

  lemma JobRouteKeepsStep(s: System, c: JobCommand, id: string, courierId: CourierName, now: int, finishedAt: int)
    requires AllInStep(s)
    ensures AllInStep(Whole(s, JobRoute(c, id, courierId, now, finishedAt)))
  {
    var u := Next(s, ListJobs);
    SimpleKeepsStep(s, ListJobs);
    WholeJobRoute(s, c, id, courierId, now, finishedAt);
    if id in u.jobs && DecideJob(u.jobs[id], c, courierId, now).Ok? {
      assert LockStep(u, id);
      PairKeepsStep(u, id, c, courierId, now, finishedAt);
    }
  }

  lemma PairKeepsStep(u: System, id: string, c: JobCommand, courierId: string, now: int, finishedAt: int)
    requires AllInStep(u) && id in u.jobs && id in u.ledger.orders && DecideJob(u.jobs[id], c, courierId, now).Ok?
    ensures AllInStep(System(Call(u.ledger, id, SecondCall(c, courierId), finishedAt),
                             u.jobs[id := DecideJob(u.jobs[id], c, courierId, now).value], u.pending))
  {
    var job := DecideJob(u.jobs[id], c, courierId, now).value;
    var ledger := Call(u.ledger, id, SecondCall(c, courierId), finishedAt);
    var t := System(ledger, u.jobs[id := job], u.pending);
    forall o | o in u.ledger.orders ensures u.ledger.orders[o].id == o { assert LockStep(u, o); }
    CallTouchesOneOrder(u.ledger, id, SecondCall(c, courierId), finishedAt);
    assert LockStep(u, id);
    RouteKeepsPairInStep(u.ledger.orders[id], u.jobs[id], c, courierId, now, finishedAt);
    forall other ensures LockStep(t, other) { assert LockStep(u, other); }
  }

  lemma {:induction false} RunKeepsStep(routes: seq<Route>)
    ensures AllInStep(RunWhole(START, routes))
  {
    if routes != [] {
      var s := RunWhole(START, routes[..|routes| - 1]);
      RunKeepsStep(routes[..|routes| - 1]);
      match routes[|routes| - 1]
      case Simple(l) => SimpleKeepsStep(s, l);
      case JobRoute(c, id, courierId, now, finishedAt) => JobRouteKeepsStep(s, c, id, courierId, now, finishedAt);
    }
  }

  /** In every run of whole routes, an order that is not cancelled is waiting for dispatch
      exactly when it has passed acceptance and its job is missing or available, and is with
      courier c, picked up or delivered by c exactly when its job is. */
  lemma WholeRoutesRunInLockStep(routes: seq<Route>, id: string, c: string)
    requires var s := RunWhole(START, routes);
             id in s.ledger.orders && s.ledger.orders[id].status != Cancelled
    ensures var s := RunWhole(START, routes);
            var o := s.ledger.orders[id];
            && (o.status == DispatchPending <==>
                  o.status !in {Created, MerchantAccepted} && (id !in s.jobs || s.jobs[id].status == Available))
            && (o.status in {Created, MerchantAccepted} ==> id !in s.jobs)
            && (o.status == CourierAssigned && o.courierId == Some(c) <==>
                  id in s.jobs && s.jobs[id].status == Accepted && s.jobs[id].courierId == Some(c))
            && (o.status == PickedUp && o.courierId == Some(c) <==>
                  id in s.jobs && s.jobs[id].status == JobPickedUp && s.jobs[id].courierId == Some(c))
            && (o.status == Delivered && o.courierId == Some(c) <==>
                  id in s.jobs && s.jobs[id].status == DroppedOff && s.jobs[id].courierId == Some(c))
  {
    RunKeepsStep(routes);
    assert LockStep(RunWhole(START, routes), id);
  }

  /** The dispatch route. `client` is absent without a dispatch client or assignment input;
      otherwise it is the courier the client will answer with, or None without one. */
  function WholeDispatch(s: System, id: string, client: Option<Option<CourierName>>, now: int, finishedAt: int)
    : System
  {
    if client.None? then Next(s, Direct(id, RequestDispatch, now))
    else
      var asked := Next(s, DispatchWithClient(id, now));
      if asked.pending == s.pending then asked else Next(asked, Resume(ClientAnswer(id), client.value, finishedAt))
  }

  /** Its effect, with the client's answer consumed. */
  lemma WholeDispatchRoute(s: System, id: string, client: Option<Option<CourierName>>, now: int, finishedAt: int)
    requires s.pending == multiset{}
    ensures var ledger := Call(s.ledger, id, RequestDispatch, now);
            var reply := Reply(s.ledger, id, RequestDispatch, now);
            WholeDispatch(s, id, client, now, finishedAt) ==
            System(if reply.Ok? && reply.value.status == DispatchPending && client.Some? && client.value.Some?
                   then Call(ledger, id, AssignCourier(client.value.value), finishedAt) else ledger,
                   s.jobs, s.pending)
  {
    var asked := Next(s, DispatchWithClient(id, now));
    if asked.pending != multiset{} {
      assert asked.pending == multiset{ClientAnswer(id)};
      assert asked.pending - multiset{ClientAnswer(id)} == multiset{};
    }
  }

  /** Orders stay filed under their identifier, and the answer is the order as stored. */
  lemma ReplyIsStored(s: Ledger, id: string, c: Command, now: int)
    requires forall o :: o in s.orders ==> s.orders[o].id == o
    requires !c.RequestCancellation?
    ensures forall o :: o in Call(s, id, c, now).orders ==> Call(s, id, c, now).orders[o].id == o
    ensures Reply(s, id, c, now) ==
              if id in Call(s, id, c, now).orders then Ok(Call(s, id, c, now).orders[id]) else Err(OrderNotFound)
  {
  }

  /** The handlers themselves. */
  class Server {
    const orderService: OrderService
    const jobService: CourierJobService

    constructor (orderService: OrderService, jobService: CourierJobService)
      ensures this.orderService == orderService && this.jobService == jobService
    {
      this.orderService, this.jobService := orderService, jobService;
    }

    /** Both services use one order repository, keyed by identifier. */
    ghost predicate Valid()
      reads orderService.orders, jobService.orders, jobService.jobs
    {
      orderService.orders == jobService.orders && jobService.WellKeyed()
    }

    ghost function State(): System
      reads orderService.orders, orderService.bus, orderService.timeline.repository, jobService.jobs
    {
      System(orderService.State(), jobService.jobs.jobs, multiset{})
    }

    method AcceptJobRoute(jobId: string, courierId: CourierName, now: int, finishedAt: int)
      returns (r: Result<Job, JobError>)
      requires Valid() && forall id :: id in jobService.jobs.jobs ==> jobService.jobs.jobs[id].orderId == id
      modifies jobService.jobs, orderService.orders, orderService.bus, orderService.timeline.repository
      ensures State() == Whole(old(State()), JobRoute(Accept, jobId, courierId, now, finishedAt)) && Valid()
      ensures r == CallJob(old(jobService.orders.orders), old(jobService.jobs.jobs), jobId, Accept, courierId, now).1
    {
      WholeJobRoute(State(), Accept, jobId, courierId, now, finishedAt);
      r := jobService.AcceptJob(jobId, courierId, now);
      if r.Ok? {
        var _ := orderService.AssignCourierTo(r.value.orderId, courierId, finishedAt);
      }
    }

    method PickupJobRoute(jobId: string, courierId: CourierName, now: int, finishedAt: int)
      returns (r: Result<Job, JobError>)
      requires Valid() && forall id :: id in jobService.jobs.jobs ==> jobService.jobs.jobs[id].orderId == id
      modifies jobService.jobs, orderService.orders, orderService.bus, orderService.timeline.repository
      ensures State() == Whole(old(State()), JobRoute(Pickup, jobId, courierId, now, finishedAt)) && Valid()
      ensures r == CallJob(old(jobService.orders.orders), old(jobService.jobs.jobs), jobId, Pickup, courierId, now).1
    {
      WholeJobRoute(State(), Pickup, jobId, courierId, now, finishedAt);
      r := jobService.PickupJob(jobId, courierId, now);
      if r.Ok? {
        var _ := orderService.MarkOrderPickedUp(r.value.orderId, courierId, finishedAt);
      }
    }

    method DropoffJobRoute(jobId: string, courierId: CourierName, now: int, finishedAt: int)
      returns (r: Result<Job, JobError>)
      requires Valid() && forall id :: id in jobService.jobs.jobs ==> jobService.jobs.jobs[id].orderId == id
      modifies jobService.jobs, orderService.orders, orderService.bus, orderService.timeline.repository
      ensures State() == Whole(old(State()), JobRoute(Dropoff, jobId, courierId, now, finishedAt)) && Valid()
      ensures r == CallJob(old(jobService.orders.orders), old(jobService.jobs.jobs), jobId, Dropoff, courierId, now).1
    {
      WholeJobRoute(State(), Dropoff, jobId, courierId, now, finishedAt);
      r := jobService.DropoffJob(jobId, courierId, now);
      if r.Ok? {
        var _ := orderService.MarkOrderDelivered(r.value.orderId, courierId, finishedAt);
      }
    }

    method RequestDispatchRoute(id: string, client: Option<Option<CourierName>>, now: int, finishedAt: int)
      returns (r: Result<Order, OrderError>)
      requires Valid()
      modifies orderService.orders, orderService.bus, orderService.timeline.repository
      ensures State() == WholeDispatch(old(State()), id, client, now, finishedAt)
      ensures r == if id in orderService.orders.orders then Ok(orderService.orders.orders[id]) else Err(OrderNotFound)
      ensures Valid()
    {
      WholeDispatchRoute(State(), id, client, now, finishedAt);
      ReplyIsStored(orderService.State(), id, RequestDispatch, now);
      r := orderService.RequestDispatchFor(id, now);
      if r.Ok? && r.value.status == DispatchPending && client.Some? && client.value.Some? {
        ReplyIsStored(orderService.State(), id, AssignCourier(client.value.value), finishedAt);
        r := orderService.AssignCourierTo(id, client.value.value, finishedAt);
      }
    }
  }
}
