/** Which orders can still be delivered, and how the others come about. */
module Deliverability {
  import opened Collections
  import opened DomainEvents
  import opened OrderLifecycle
  import opened CourierJobs
  import opened DispatchRoutes

  /** A pick-up call on the job has been made whose order call is still to come. */
  predicate PickupAwaits(s: System, id: string, courierId: Option<string>) {
    courierId.Some? && FollowUp(Pickup, id, courierId.value) in s.pending
  }

  /** What a look at the order, its job and the requests in progress tells. */
  predicate Deliverable(s: System, id: string)
    requires id in s.ledger.orders
  {
    var o := s.ledger.orders[id];
    match o.status
    case Cancelled => false
    case CourierAssigned =>
      && id in s.jobs
      && (|| s.jobs[id].status == Available
          || (s.jobs[id].courierId == o.courierId
              && (s.jobs[id].status in {Accepted, JobPickedUp} || PickupAwaits(s, id, o.courierId))))
    case DispatchPending =>
      id in s.jobs && s.jobs[id].status == DroppedOff ==> PickupAwaits(s, id, s.jobs[id].courierId)
    case _ => true
  }

  ghost predicate DeliveredBy(s: System, later: seq<Label>, id: string) {
    var t := Run(s, later);
    id in t.ledger.orders && t.ledger.orders[id].status == Delivered
  }

  ghost predicate CanBeDelivered(s: System, id: string) {
    exists later :: DeliveredBy(s, later, id)
  }

  // ----- an order that is not deliverable stays so -----

  ghost predicate Stranded(s: System, id: string) {
    id in s.ledger.orders && !Deliverable(s, id)
  }

  /** A stranded order remains so, and an assigned one can only be cancelled. */
  ghost predicate StaysStranded(s: System, t: System, id: string)
    requires id in s.ledger.orders
  {
    && Stranded(t, id)
    && (s.ledger.orders[id].status in {CourierAssigned, Cancelled} ==>
          t.ledger.orders[id].status in {CourierAssigned, Cancelled})
  }

  /** Nothing a call may do to the other parts helps a stranded order: jobs only advance,
      and no pick-up of a dropped-off job succeeds any more. */
  lemma JobsKeepStranded(s: System, jobs: Jobs, pending: multiset<Continuation>, id: string)
    requires Stranded(s, id) && JobsOnlyAdvance(s.jobs, jobs) && JobInvariant(s, id)
    requires id !in s.jobs && s.ledger.orders[id].status != DispatchPending ==> id !in jobs
    requires forall courier :: FollowUp(Pickup, id, courier) in pending ==>
               || FollowUp(Pickup, id, courier) in s.pending
               || (id in s.jobs && s.jobs[id].status != DroppedOff)
    ensures StaysStranded(s, System(s.ledger, jobs, pending), id)
  {
    if id in s.jobs && s.jobs[id].status != Available { assert s.jobs[id].courierId.Some?; }
  }

  lemma JobCallKeepsStranded(s: System, c: JobCommand, job: string, courierId: CourierName, now: int, id: string)
    requires Safe(s) && Stranded(s, id)
    ensures StaysStranded(s, Next(s, JobCall(c, job, courierId, now)), id)
  {
    var t := Next(s, JobCall(c, job, courierId, now));
    NextIsSafe(s, JobCall(c, job, courierId, now));
    assert JobInvariant(s, id) && JobInvariant(s, job);
    JobsKeepStranded(s, t.jobs, t.pending, id);
  }

  /** An order call keeps a stranded order stranded: no assignment, and no pick-up its job
      does not back, makes it deliverable. */
  lemma OrderCallKeepsStranded(s: System, other: string, c: Command, now: int, pending: multiset<Continuation>,
                               id: string)
    requires Safe(s) && Stranded(s, id) && Backed(s, other, c)
    requires c.MarkPickedUp? && s.ledger.orders[id].courierId == Some(c.courierId) && other == id ==>
               PickupAwaits(s, id, Some(c.courierId))
    requires forall k :: k in pending && k.FollowUp? ==> k in s.pending
    ensures StaysStranded(s, System(Call(s.ledger, other, c, now), s.jobs, pending), id)
  {
    forall o | o in s.ledger.orders ensures s.ledger.orders[o].id == o { assert OrderInvariant(s, o); }
    assert JobInvariant(s, id);
    CallTouchesOneOrder(s.ledger, other, c, now);
  }

  lemma ResumeKeepsStranded(s: System, k: Continuation, answer: Option<CourierName>, now: int, id: string)
    requires Safe(s) && Stranded(s, id) && k in s.pending
    ensures StaysStranded(s, Next(s, Resume(k, answer, now)), id)
  {
    assert PendingInvariant(s, k);
    var rest := s.pending - multiset{k};
    match k
    case FollowUp(c, other, courierId) =>
      assert JobInvariant(s, other);
      OrderCallKeepsStranded(s, other, SecondCall(c, courierId), now, rest, id);
    case ClientAnswer(other) =>
      if answer.Some? {
        OrderCallKeepsStranded(s, other, AssignCourier(answer.value), now, rest, id);
      } else {
        JobsKeepStranded(s, s.jobs, rest, id);
      }
  }

  lemma ListingKeepsStranded(s: System, id: string)
    requires Safe(s) && Stranded(s, id)
    ensures StaysStranded(s, Next(s, ListJobs), id)
  {
    NextIsSafe(s, ListJobs);
    JobsKeepStranded(s, Next(s, ListJobs).jobs, s.pending, id);
  }

  lemma PlacingKeepsStranded(s: System, other: string, checkoutId: string, checkout: Checkout, now: int, id: string)
    requires Stranded(s, id)
    ensures StaysStranded(s, Next(s, NewOrderPlaced(other, checkoutId, checkout, now)), id)
  {
  }

  lemma NextKeepsStranded(s: System, l: Label, id: string)
    requires Safe(s) && Stranded(s, id)
    ensures StaysStranded(s, Next(s, l), id)
  {
    match l
    case NewOrderPlaced(other, checkoutId, checkout, now) =>
      PlacingKeepsStranded(s, other, checkoutId, checkout, now, id);
    case Direct(other, command, now) => OrderCallKeepsStranded(s, other, command, now, s.pending, id);
    case DispatchWithClient(other, now) =>
      OrderCallKeepsStranded(s, other, RequestDispatch, now, Next(s, l).pending, id);
    case JobCall(c, job, courierId, now) => JobCallKeepsStranded(s, c, job, courierId, now, id);
    case ListJobs => ListingKeepsStranded(s, id);
    case Resume(k, answer, now) => if k in s.pending { ResumeKeepsStranded(s, k, answer, now, id); }
  }

  lemma {:induction false} RunKeepsStranded(s: System, labels: seq<Label>, id: string)
    requires Safe(s) && Stranded(s, id)
    ensures StaysStranded(s, Run(s, labels), id)
  {
    if labels != [] {
      RunKeepsStranded(s, labels[..|labels| - 1], id);
      RunIsSafe(s, labels[..|labels| - 1]);
      NextKeepsStranded(Run(s, labels[..|labels| - 1]), labels[|labels| - 1], id);
    }
  }

  // ----- a deliverable order can be brought to its door -----

  lemma OneStep(s: System, l: Label)
    ensures Run(s, [l]) == Next(s, l)
  {
    assert [l][..0] == [];
  }

  /** If delivery is possible after a call, it was possible before. */
  lemma PossibleBefore(s: System, l: Label, id: string)
    requires CanBeDelivered(Next(s, l), id)
    ensures CanBeDelivered(s, id)
  {
    var later :| DeliveredBy(Next(s, l), later, id);
    OneStep(s, l);
    RunConcat(s, [l], later);
    assert DeliveredBy(s, [l] + later, id);
  }

  /** A state in which the order of `id` has the given status and courier. */
  ghost predicate Stands(s: System, id: string, status: OrderStatus, courierId: Option<string>) {
    && Safe(s) && id in s.ledger.orders
    && s.ledger.orders[id].status == status && s.ledger.orders[id].courierId == courierId
  }

  /** A job call that succeeds: the job is as decided and the order call is to come. */
  lemma JobCallMakes(s: System, c: JobCommand, id: string, courierId: CourierName, now: int)
    requires id in s.jobs && s.jobs[id].jobId == s.jobs[id].orderId == id
    requires DecideJob(s.jobs[id], c, courierId, now).Ok?
    ensures var t := Next(s, JobCall(c, id, courierId, now));
            && t.ledger == s.ledger && id in t.jobs
            && t.jobs[id] == DecideJob(s.jobs[id], c, courierId, now).value
            && t.pending == s.pending + multiset{FollowUp(c, id, courierId)}
  {
  }

  /** An order call that is still to come, once made. */
  lemma FollowUpMakes(s: System, c: JobCommand, id: string, courierId: string, now: int)
    requires FollowUp(c, id, courierId) in s.pending && id in s.ledger.orders && s.ledger.orders[id].id == id
    ensures var t := Next(s, Resume(FollowUp(c, id, courierId), None, now));
            var d := Decide(s.ledger.orders[id], SecondCall(c, courierId), now);
            && id in t.ledger.orders && t.ledger.orders[id] == (if d.Change? then d.order else s.ledger.orders[id])
            && t.jobs == s.jobs && t.pending == s.pending - multiset{FollowUp(c, id, courierId)}
  {
  }

  /** The dispatch client's answer on an order that still waits. */
  lemma AnswerAssigns(s: System, id: string, a: CourierName, now: int)
    requires ClientAnswer(id) in s.pending && id in s.ledger.orders
    requires s.ledger.orders[id].id == id && s.ledger.orders[id].status == DispatchPending
    ensures var t := Next(s, Resume(ClientAnswer(id), Some(a), now));
            && id in t.ledger.orders && t.ledger.orders[id].id == id
            && t.ledger.orders[id].status == CourierAssigned && t.ledger.orders[id].courierId == Some(a)
            && t.jobs == s.jobs && t.pending == s.pending - multiset{ClientAnswer(id)}
  {
  }

  lemma FromDropped(s: System, id: string, a: CourierName)
    requires Stands(s, id, PickedUp, Some(a)) && FollowUp(Dropoff, id, a) in s.pending
    ensures CanBeDelivered(s, id)
  {
    var done := Resume(FollowUp(Dropoff, id, a), None, 0);
    assert OrderInvariant(s, id);
    FollowUpMakes(s, Dropoff, id, a, 0);
    OneStep(s, done);
    assert DeliveredBy(s, [done], id);
  }

  lemma FromPickedUp(s: System, id: string, a: CourierName)
    requires Stands(s, id, PickedUp, Some(a))
    ensures CanBeDelivered(s, id)
  {
    var drop := JobCall(Dropoff, id, a, 0);
    assert OrderInvariant(s, id) && JobInvariant(s, id);
    JobCallMakes(s, Dropoff, id, a, 0);
    NextIsSafe(s, drop);
    FromDropped(Next(s, drop), id, a);
    PossibleBefore(s, drop, id);
  }

  lemma FromPickupAwaiting(s: System, id: string, a: CourierName)
    requires Stands(s, id, CourierAssigned, Some(a)) && PickupAwaits(s, id, Some(a))
    ensures CanBeDelivered(s, id)
  {
    var pick := Resume(FollowUp(Pickup, id, a), None, 0);
    assert OrderInvariant(s, id);
    FollowUpMakes(s, Pickup, id, a, 0);
    NextIsSafe(s, pick);
    FromPickedUp(Next(s, pick), id, a);
    PossibleBefore(s, pick, id);
  }

  lemma FromAcceptedJob(s: System, id: string, a: CourierName)
    requires Stands(s, id, CourierAssigned, Some(a)) && id in s.jobs
    requires s.jobs[id].courierId == Some(a) && s.jobs[id].status in {Accepted, JobPickedUp}
    ensures CanBeDelivered(s, id)
  {
    var pick := JobCall(Pickup, id, a, 0);
    assert JobInvariant(s, id);
    JobCallMakes(s, Pickup, id, a, 0);
    NextIsSafe(s, pick);
    FromPickupAwaiting(Next(s, pick), id, a);
    PossibleBefore(s, pick, id);
  }

  lemma FromAssigned(s: System, id: string, a: CourierName)
    requires Stands(s, id, CourierAssigned, Some(a)) && Deliverable(s, id)
    ensures CanBeDelivered(s, id)
  {
    if PickupAwaits(s, id, Some(a)) {
      FromPickupAwaiting(s, id, a);
    } else if s.jobs[id].status == Available {
      var accept := JobCall(Accept, id, a, 0);
      assert JobInvariant(s, id);
      JobCallMakes(s, Accept, id, a, 0);
      NextIsSafe(s, accept);
      FromAcceptedJob(Next(s, accept), id, a);
      PossibleBefore(s, accept, id);
    } else {
      FromAcceptedJob(s, id, a);
    }
  }

  lemma FromAsked(s: System, id: string, a: CourierName)
    requires id in s.ledger.orders && Stands(s, id, DispatchPending, s.ledger.orders[id].courierId)
    requires ClientAnswer(id) in s.pending
    requires id in s.jobs && (s.jobs[id].status == Available || s.jobs[id].courierId == Some(a))
    requires s.jobs[id].status == DroppedOff ==> PickupAwaits(s, id, Some(a))
    ensures CanBeDelivered(s, id)
  {
    var answer := Resume(ClientAnswer(id), Some(a), 0);
    assert OrderInvariant(s, id);
    AnswerAssigns(s, id, a, 0);
    NextIsSafe(s, answer);
    FromAssigned(Next(s, answer), id, a);
    PossibleBefore(s, answer, id);
  }

  /** With a job in place, the dispatch client may name the courier who holds it. */
  lemma FromPendingWithJob(s: System, id: string)
    requires Safe(s) && id in s.ledger.orders && s.ledger.orders[id].status == DispatchPending
    requires Deliverable(s, id) && id in s.jobs
    ensures CanBeDelivered(s, id)
  {
    assert JobInvariant(s, id);
    var a: CourierName := if s.jobs[id].courierId.Some? then s.jobs[id].courierId.value else "courier";
    var ask := DispatchWithClient(id, 0);
    AskingAPendingOrder(s, id);
    NextIsSafe(s, ask);
    FromAsked(Next(s, ask), id, a);
    PossibleBefore(s, ask, id);
  }

  lemma AskingAPendingOrder(s: System, id: string)
    requires id in s.ledger.orders && s.ledger.orders[id].status == DispatchPending
    ensures var t := Next(s, DispatchWithClient(id, 0));
            t.ledger == s.ledger && t.jobs == s.jobs && t.pending == s.pending + multiset{ClientAnswer(id)}
  {
  }

  lemma FromPending(s: System, id: string)
    requires Safe(s) && id in s.ledger.orders && s.ledger.orders[id].status == DispatchPending
    requires Deliverable(s, id)
    ensures CanBeDelivered(s, id)
  {
    if id in s.jobs {
      FromPendingWithJob(s, id);
    } else {
      NextIsSafe(s, ListJobs);
      FromPendingWithJob(Next(s, ListJobs), id);
      PossibleBefore(s, ListJobs, id);
    }
  }

  lemma FromAccepted(s: System, id: string)
    requires Safe(s) && id in s.ledger.orders && s.ledger.orders[id].status == MerchantAccepted
    ensures CanBeDelivered(s, id)
  {
    assert JobInvariant(s, id) && OrderInvariant(s, id);
    NextIsSafe(s, Direct(id, RequestDispatch, 0));
    FromPending(Next(s, Direct(id, RequestDispatch, 0)), id);
    PossibleBefore(s, Direct(id, RequestDispatch, 0), id);
  }

  lemma FromCreated(s: System, id: string)
    requires Safe(s) && id in s.ledger.orders && s.ledger.orders[id].status == Created
    ensures CanBeDelivered(s, id)
  {
    assert JobInvariant(s, id) && OrderInvariant(s, id);
    NextIsSafe(s, Direct(id, MerchantAccept, 0));
    FromAccepted(Next(s, Direct(id, MerchantAccept, 0)), id);
    PossibleBefore(s, Direct(id, MerchantAccept, 0), id);
  }

  lemma DeliverableIsDelivered(s: System, id: string)
    requires Safe(s) && id in s.ledger.orders && Deliverable(s, id)
    ensures CanBeDelivered(s, id)
  {
    assert OrderInvariant(s, id) && JobInvariant(s, id);
    var o := s.ledger.orders[id];
    match o.status
    case Created => FromCreated(s, id);
    case MerchantAccepted => FromAccepted(s, id);
    case DispatchPending => FromPending(s, id);
    case CourierAssigned => FromAssigned(s, id, o.courierId.value);
    case PickedUp => FromPickedUp(s, id, o.courierId.value);
    case Delivered => assert DeliveredBy(s, [], id);
  }

  /** In every reachable state, some continuation delivers an order exactly when the order is
      deliverable. */
  lemma DeliveryIsPossibleIff(labels: seq<Label>, id: string)
    requires id in Run(START, labels).ledger.orders
    ensures CanBeDelivered(Run(START, labels), id) <==> Deliverable(Run(START, labels), id)
  {
    StartIsSafe();
    RunIsSafe(START, labels);
    var s := Run(START, labels);
    if Deliverable(s, id) {
      DeliverableIsDelivered(s, id);
    } else if CanBeDelivered(s, id) {
      var later :| DeliveredBy(s, later, id);
      RunKeepsStranded(s, later, id);
    }
  }

  /** An order assigned to `a` can still be delivered exactly when its job is available, or
      is `a`'s own and not dropped off, or the order half of `a`'s pick-up is still to come;
      otherwise it stays assigned or is cancelled, whatever happens. */
  lemma AssignedOrdersAreDeliveredIff(labels: seq<Label>, later: seq<Label>, id: string, a: string)
    requires var s := Run(START, labels);
             id in s.ledger.orders && s.ledger.orders[id].status == CourierAssigned
             && s.ledger.orders[id].courierId == Some(a)
    ensures var s := Run(START, labels);
            CanBeDelivered(s, id) <==>
              id in s.jobs &&
              (|| s.jobs[id].status == Available
               || (s.jobs[id].courierId == Some(a)
                   && (s.jobs[id].status in {Accepted, JobPickedUp} || FollowUp(Pickup, id, a) in s.pending)))
    ensures var s, t := Run(START, labels), Run(START, labels + later);
            !CanBeDelivered(s, id) ==>
              id in t.ledger.orders && t.ledger.orders[id].status in {CourierAssigned, Cancelled}
  {
    DeliveryIsPossibleIff(labels, id);
    var s := Run(START, labels);
    if !CanBeDelivered(s, id) {
      StartIsSafe();
      RunIsSafe(START, labels);
      RunConcat(START, labels, later);
      RunKeepsStranded(s, later, id);
    }
  }

  // ----- the three ways an assigned order gets stranded -----

  ghost predicate Shape(s: System, id: string, status: OrderStatus, courier: Option<string>, job: Option<Job>) {
    && id in s.ledger.orders && s.ledger.orders[id].id == id
    && s.ledger.orders[id].status == status && s.ledger.orders[id].courierId == courier
    && (job.None? ==> id !in s.jobs)
    && (job.Some? ==> id in s.jobs && s.jobs[id] == job.value && job.value.jobId == id)
  }

  /** An order placed, accepted by its merchant and sent to dispatch, with or without a client. */
  function Placed(id: string, checkout: Checkout, client: bool): seq<Label> {
    [NewOrderPlaced(id, "", checkout, 0), Direct(id, MerchantAccept, 1),
     if client then DispatchWithClient(id, 2) else Direct(id, RequestDispatch, 2)]
  }

  lemma OneMore(s: System, labels: seq<Label>, l: Label)
    ensures Run(s, labels + [l]) == Next(Run(s, labels), l)
  {
    assert (labels + [l])[..|labels|] == labels;
  }

  lemma PlacingShapes(id: string, checkout: Checkout)
    ensures var s := Next(START, NewOrderPlaced(id, "", checkout, 0));
            Shape(s, id, Created, None, None) && s.pending == multiset{}
  {
  }

  lemma AcceptingShapes(s: System, id: string)
    requires Shape(s, id, Created, None, None)
    ensures var t := Next(s, Direct(id, MerchantAccept, 1));
            Shape(t, id, MerchantAccepted, None, None) && t.pending == s.pending
  {
  }

  lemma AskingShapes(s: System, id: string, client: bool)
    requires Shape(s, id, MerchantAccepted, None, None) && s.pending == multiset{}
    ensures var t := Next(s, if client then DispatchWithClient(id, 2) else Direct(id, RequestDispatch, 2));
            && Shape(t, id, DispatchPending, None, None)
            && t.pending == if client then multiset{ClientAnswer(id)} else multiset{}
  {
  }

  lemma PlacedIsPending(id: string, checkout: Checkout, client: bool)
    ensures var s := Run(START, Placed(id, checkout, client));
            && Shape(s, id, DispatchPending, None, None)
            && s.pending == if client then multiset{ClientAnswer(id)} else multiset{}
  {
    var labels := Placed(id, checkout, client);
    assert labels == [labels[0]] + [labels[1]] + [labels[2]];
    OneStep(START, labels[0]);
    OneMore(START, [labels[0]], labels[1]);
    OneMore(START, [labels[0]] + [labels[1]], labels[2]);
    PlacingShapes(id, checkout);
    AcceptingShapes(Run(START, [labels[0]]), id);
    AskingShapes(Run(START, [labels[0]] + [labels[1]]), id, client);
  }

  /** The dispatch client answers before anyone lists the jobs: no job is ever made. */
  lemma NoJobIsReachable(id: string, a: CourierName, checkout: Checkout)
    ensures var s := Run(START, Placed(id, checkout, true) + [Resume(ClientAnswer(id), Some(a), 3)]);
            && Shape(s, id, CourierAssigned, Some(a), None)
            && !Deliverable(s, id)
  {
    PlacedIsPending(id, checkout, true);
    AnswerAssigns(Run(START, Placed(id, checkout, true)), id, a, 3);
    OneMore(START, Placed(id, checkout, true), Resume(ClientAnswer(id), Some(a), 3));
  }

  function JobAt(id: string, b: CourierName, status: JobStatus): Job {
    Job(id, id, status, Some(b), Some(3), if status == Accepted then None else Some(4),
        if status == DroppedOff then Some(5) else None)
  }

  function AcceptedBy(id: string, b: CourierName, checkout: Checkout, client: bool): seq<Label> {
    Placed(id, checkout, client) + [JobCall(Accept, id, b, 3)]
  }

  lemma AcceptingAPlacedOrder(id: string, b: CourierName, checkout: Checkout, client: bool)
    ensures var s := Run(START, AcceptedBy(id, b, checkout, client));
            && Shape(s, id, DispatchPending, None, Some(JobAt(id, b, Accepted)))
            && FollowUp(Accept, id, b) in s.pending && FollowUp(Pickup, id, b) !in s.pending
            && (client ==> ClientAnswer(id) in s.pending)
  {
    PlacedIsPending(id, checkout, client);
    OneMore(START, Placed(id, checkout, client), JobCall(Accept, id, b, 3));
  }

  /** The dispatch client assigns `a` while courier `b` accepts the job. */
  lemma SplitIsReachable(id: string, a: CourierName, b: CourierName, checkout: Checkout)
    requires a != b
    ensures var s := Run(START, AcceptedBy(id, b, checkout, true) + [Resume(ClientAnswer(id), Some(a), 4)]);
            && Shape(s, id, CourierAssigned, Some(a), Some(JobAt(id, b, Accepted)))
            && !Deliverable(s, id)
  {
    AcceptingAPlacedOrder(id, b, checkout, true);
    AnswerAssigns(Run(START, AcceptedBy(id, b, checkout, true)), id, a, 4);
    OneMore(START, AcceptedBy(id, b, checkout, true), Resume(ClientAnswer(id), Some(a), 4));
  }

  /** All three job calls of one courier, with every order call still to come. */
  function JobsFirst(id: string, a: CourierName, checkout: Checkout): seq<Label> {
    AcceptedBy(id, a, checkout, false) + [JobCall(Pickup, id, a, 4)] + [JobCall(Dropoff, id, a, 5)]
  }

  lemma CarryToTheEnd(s: System, id: string, a: CourierName)
    requires Shape(s, id, DispatchPending, None, Some(JobAt(id, a, Accepted)))
    requires FollowUp(Accept, id, a) in s.pending && FollowUp(Pickup, id, a) !in s.pending
    ensures var t := Next(Next(s, JobCall(Pickup, id, a, 4)), JobCall(Dropoff, id, a, 5));
            && Shape(t, id, DispatchPending, None, Some(JobAt(id, a, DroppedOff)))
            && FollowUp(Accept, id, a) in t.pending && t.pending[FollowUp(Pickup, id, a)] == 1
  {
    JobCallMakes(s, Pickup, id, a, 4);
    JobCallMakes(Next(s, JobCall(Pickup, id, a, 4)), Dropoff, id, a, 5);
  }

  lemma JobsFirstDropsOff(id: string, a: CourierName, checkout: Checkout)
    ensures var s := Run(START, JobsFirst(id, a, checkout));
            && Shape(s, id, DispatchPending, None, Some(JobAt(id, a, DroppedOff)))
            && FollowUp(Accept, id, a) in s.pending && s.pending[FollowUp(Pickup, id, a)] == 1
  {
    var accepted := AcceptedBy(id, a, checkout, false);
    AcceptingAPlacedOrder(id, a, checkout, false);
    CarryToTheEnd(Run(START, accepted), id, a);
    OneMore(START, accepted, JobCall(Pickup, id, a, 4));
    OneMore(START, accepted + [JobCall(Pickup, id, a, 4)], JobCall(Dropoff, id, a, 5));
  }

  /** The order half of a pick-up overtakes that of the acceptance. */
  lemma Overtake(s: System, id: string, a: CourierName)
    requires Shape(s, id, DispatchPending, None, Some(JobAt(id, a, DroppedOff)))
    requires FollowUp(Accept, id, a) in s.pending && s.pending[FollowUp(Pickup, id, a)] == 1
    ensures var t := Next(s, Resume(FollowUp(Pickup, id, a), None, 6));
            var u := Next(t, Resume(FollowUp(Accept, id, a), None, 7));
            && Shape(u, id, CourierAssigned, Some(a), Some(JobAt(id, a, DroppedOff)))
            && !Deliverable(u, id)
  {
    var t := Next(s, Resume(FollowUp(Pickup, id, a), None, 6));
    FollowUpMakes(s, Pickup, id, a, 6);
    FollowUpMakes(t, Accept, id, a, 7);
  }

  /** That overtaking takes one courier and no dispatch client. */
  lemma OvertakenAcceptanceIsReachable(id: string, a: CourierName, checkout: Checkout)
    ensures var s := Run(START, JobsFirst(id, a, checkout) + [Resume(FollowUp(Pickup, id, a), None, 6)]
                                + [Resume(FollowUp(Accept, id, a), None, 7)]);
            && Shape(s, id, CourierAssigned, Some(a), Some(JobAt(id, a, DroppedOff)))
            && !Deliverable(s, id)
  {
    var pick, accept := Resume(FollowUp(Pickup, id, a), None, 6), Resume(FollowUp(Accept, id, a), None, 7);
    JobsFirstDropsOff(id, a, checkout);
    Overtake(Run(START, JobsFirst(id, a, checkout)), id, a);
    OneMore(START, JobsFirst(id, a, checkout), pick);
    OneMore(START, JobsFirst(id, a, checkout) + [pick], accept);
  }
}
