/** The order state machine: what each command decides, and the service that carries the
    decision out on the order repository, the event bus and the timeline. */
module OrderLifecycle {
  import opened Collections
  import opened DomainEvents
  import opened OrderTimeline

  datatype Order = Order(
    id: string, checkoutId: string, quoteHash: string,
    consumerId: Option<string>, merchantId: Option<string>, courierId: Option<string>,
    status: OrderStatus, cancellationReason: Option<string>, cancelledBy: Option<Canceller>,
    createdAt: int, updatedAt: int)

  /** A checkout joined with its basket, as order creation looks it up. */
  datatype Checkout = Checkout(quoteHash: string, consumerId: Option<string>, merchantId: Option<string>)

  datatype OrderError = InvalidCheckout | QuoteHashMismatch | OrderNotFound | CancellationNotAllowed

  datatype Command =
    | MerchantAccept | MerchantTimeout | RequestDispatch
    | AssignCourier(courierId: string) | MarkPickedUp(courierId: string) | MarkDelivered(courierId: string)
    | RequestCancellation(actor: Actor, reasonCode: string)

  /** Keep: the call is an accepted no-op. Refuse: it throws. */
  datatype Decision = Keep | Refuse | Change(order: Order, emitted: seq<DomainEvent>)

  const MERCHANT_TIMEOUT := "MERCHANT_TIMEOUT"

  predicate MayCancel(actor: Actor, status: OrderStatus) {
    match actor
    case Consumer => status in {Created, MerchantAccepted}
    case _ => status in {Created, MerchantAccepted, DispatchPending, CourierAssigned}
  }

  function EventFor(t: EventType, now: int, id: string): DomainEvent {
    DomainEvent(t, now, Payload(Some(id), None, None, None))
  }

  function CourierEvent(t: EventType, now: int, id: string, courierId: string): DomainEvent {
    DomainEvent(t, now, Payload(Some(id), Some(courierId), None, None))
  }

  function CancelEvent(t: EventType, now: int, id: string, reason: string, who: Canceller): DomainEvent {
    DomainEvent(t, now, Payload(Some(id), None, Some(reason), Some(who)))
  }

  function NewOrder(id: string, checkoutId: string, checkout: Checkout, now: int): Order {
    Order(id, checkoutId, checkout.quoteHash, checkout.consumerId, checkout.merchantId, None,
          Created, None, None, now, now)
  }

  /** What a command does to an order at time `now`. */
  function Decide(o: Order, c: Command, now: int): Decision {
    match c
    case MerchantAccept =>
      if o.status != Created then Keep
      else Change(o.(status := MerchantAccepted, courierId := None, cancellationReason := None,
                     cancelledBy := None, updatedAt := now),
                  [EventFor(OrderConfirmed, now, o.id)])
    case MerchantTimeout =>
      if o.status != Created then Keep
      else Change(o.(status := Cancelled, cancellationReason := Some(MERCHANT_TIMEOUT),
                     cancelledBy := Some(BySystem), updatedAt := now),
                  [CancelEvent(OrderCancelled, now, o.id, MERCHANT_TIMEOUT, BySystem)])
    case RequestDispatch =>
      if o.status != MerchantAccepted then Keep
      else Change(o.(status := DispatchPending, courierId := None, updatedAt := now),
                  [EventFor(AssignmentRequested, now, o.id)])
    case AssignCourier(courier) =>
      if o.status != DispatchPending then Keep
      else Change(o.(courierId := Some(courier), status := CourierAssigned, updatedAt := now),
                  [CourierEvent(AssignmentCompleted, now, o.id, courier)])
    case MarkPickedUp(courier) =>
      if o.status != CourierAssigned || o.courierId != Some(courier) then Keep
      else Change(o.(status := PickedUp, updatedAt := now),
                  [CourierEvent(OrderPickedUp, now, o.id, courier)])
    case MarkDelivered(courier) =>
      if o.status != PickedUp || o.courierId != Some(courier) then Keep
      else Change(o.(status := Delivered, updatedAt := now),
                  [CourierEvent(OrderDelivered, now, o.id, courier)])
    case RequestCancellation(actor, reason) =>
      if o.status == Cancelled then Keep
      else if !MayCancel(actor, o.status) then Refuse
      else Change(o.(status := Cancelled, cancellationReason := Some(reason),
                     cancelledBy := Some(ByActor(actor)), updatedAt := now),
                  [CancelEvent(CancelRequested, now, o.id, reason, ByActor(actor)),
                   CancelEvent(OrderCancelled, now, o.id, reason, ByActor(actor))])
  }

  /** Everything the order service owns. */
  datatype Ledger = Ledger(orders: map<string, Order>, events: seq<DomainEvent>, timelines: Timelines)

  const EMPTY_LEDGER := Ledger(map[], [], map[])

  function Emit(s: Ledger, emitted: seq<DomainEvent>): Ledger {
    s.(events := s.events + emitted, timelines := ProjectAll(s.timelines, emitted))
  }

  /** Saves the changed order and publishes its events. */
  function CarryOut(s: Ledger, d: Decision): Ledger {
    match d
    case Change(updated, emitted) => Emit(s.(orders := s.orders[updated.id := updated]), emitted)
    case _ => s
  }

  function Call(s: Ledger, id: string, c: Command, now: int): Ledger {
    if id !in s.orders then s else CarryOut(s, Decide(s.orders[id], c, now))
  }

  function Reply(s: Ledger, id: string, c: Command, now: int): Result<Order, OrderError> {
    if id !in s.orders then Err(OrderNotFound)
    else
      match Decide(s.orders[id], c, now)
      case Keep => Ok(s.orders[id])
      case Refuse => Err(CancellationNotAllowed)
      case Change(updated, _) => Ok(updated)
  }

  function Create(s: Ledger, id: string, checkoutId: string, checkout: Checkout, now: int): Ledger {
    Emit(s.(orders := s.orders[id := NewOrder(id, checkoutId, checkout, now)]),
         [EventFor(OrderCreated, now, id)])
  }

  class InMemoryOrderRepository {
    var orders: map<string, Order>

    constructor ()
      ensures orders == map[]
    {
      orders := map[];
    }

    method Save(order: Order)
      modifies this
      ensures orders == old(orders)[order.id := order]
    {
      orders := orders[order.id := order];
    }

    method FindById(id: string) returns (found: Option<Order>)
      ensures found == if id in orders then Some(orders[id]) else None
    {
      found := if id in orders then Some(orders[id]) else None;
    }
  }

  class OrderService {
    const orders: InMemoryOrderRepository
    const bus: InMemoryEventBus
    const timeline: OrderTimelineService

    constructor (orders: InMemoryOrderRepository, bus: InMemoryEventBus, timeline: OrderTimelineService)
      ensures this.orders == orders && this.bus == bus && this.timeline == timeline
    {
      this.orders, this.bus, this.timeline := orders, bus, timeline;
    }

    ghost function State(): Ledger
      reads orders, bus, timeline.repository
    {
      Ledger(orders.orders, bus.events, timeline.repository.entriesByOrder)
    }

    method PublishEvent(event: DomainEvent)
      modifies bus, timeline.repository
      ensures State() == Emit(old(State()), [event])
    {
      bus.Publish(event);
      timeline.ProjectEvent(event);
      ProjectOne(old(timeline.repository.entriesByOrder), event);
    }

    /** `id` is the random identifier drawn for the order. */
    method CreateOrder(id: string, checkoutId: string, quoteHash: string, checkout: Option<Checkout>, now: int)
      returns (r: Result<Order, OrderError>)
      modifies orders, bus, timeline.repository
      ensures checkout.None? ==> r == Err(InvalidCheckout)
      ensures checkout.Some? && checkout.value.quoteHash != quoteHash ==> r == Err(QuoteHashMismatch)
      ensures checkout.Some? && checkout.value.quoteHash == quoteHash ==>
                && r == Ok(NewOrder(id, checkoutId, checkout.value, now))
                && State() == Create(old(State()), id, checkoutId, checkout.value, now)
      ensures r.Err? ==> State() == old(State())
    {
      if checkout.None? {
        return Err(InvalidCheckout);
      }
      if checkout.value.quoteHash != quoteHash {
        return Err(QuoteHashMismatch);
      }
      var order := Order(id, checkoutId, quoteHash, checkout.value.consumerId, checkout.value.merchantId,
                         None, Created, None, None, now, now);
      orders.Save(order);
      PublishEvent(EventFor(OrderCreated, now, id));
      return Ok(order);
    }

    method MerchantAcceptOrder(id: string, now: int) returns (r: Result<Order, OrderError>)
      modifies orders, bus, timeline.repository
      ensures State() == Call(old(State()), id, MerchantAccept, now)
      ensures r == Reply(old(State()), id, MerchantAccept, now)
    {
      var found := orders.FindById(id);
      if found.None? {
        return Err(OrderNotFound);
      }
      var order := found.value;
      if order.status != Created {
        return Ok(order);
      }
      var updated := order.(status := MerchantAccepted, courierId := None, cancellationReason := None,
                            cancelledBy := None, updatedAt := now);
      orders.Save(updated);
      PublishEvent(EventFor(OrderConfirmed, now, updated.id));
      return Ok(updated);
    }

    method HandleMerchantDecisionTimeout(id: string, now: int) returns (r: Result<Order, OrderError>)
      modifies orders, bus, timeline.repository
      ensures State() == Call(old(State()), id, MerchantTimeout, now)
      ensures r == Reply(old(State()), id, MerchantTimeout, now)
    {
      var found := orders.FindById(id);
      if found.None? {
        return Err(OrderNotFound);
      }
      var order := found.value;
      if order.status != Created {
        return Ok(order);
      }
      var updated := order.(status := Cancelled, cancellationReason := Some(MERCHANT_TIMEOUT),
                            cancelledBy := Some(BySystem), updatedAt := now);
      orders.Save(updated);
      PublishEvent(CancelEvent(OrderCancelled, now, updated.id, MERCHANT_TIMEOUT, BySystem));
      return Ok(updated);
    }

    method RequestDispatchFor(id: string, now: int) returns (r: Result<Order, OrderError>)
      modifies orders, bus, timeline.repository
      ensures State() == Call(old(State()), id, RequestDispatch, now)
      ensures r == Reply(old(State()), id, RequestDispatch, now)
    {
      var found := orders.FindById(id);
      if found.None? {
        return Err(OrderNotFound);
      }
      var order := found.value;
      if order.status != MerchantAccepted {
        return Ok(order);
      }
      var updated := order.(status := DispatchPending, courierId := None, updatedAt := now);
      orders.Save(updated);
      PublishEvent(EventFor(AssignmentRequested, now, updated.id));
      return Ok(updated);
    }

    method AssignCourierTo(id: string, courierId: string, now: int) returns (r: Result<Order, OrderError>)
      modifies orders, bus, timeline.repository
      ensures State() == Call(old(State()), id, AssignCourier(courierId), now)
      ensures r == Reply(old(State()), id, AssignCourier(courierId), now)
    {
      var found := orders.FindById(id);
      if found.None? {
        return Err(OrderNotFound);
      }
      var order := found.value;
      if order.status == CourierAssigned && order.courierId == Some(courierId) {
        return Ok(order);
      }
      if order.status != DispatchPending {
        return Ok(order);
      }
      var updated := order.(courierId := Some(courierId), status := CourierAssigned, updatedAt := now);
      orders.Save(updated);
      PublishEvent(CourierEvent(AssignmentCompleted, now, updated.id, courierId));
      return Ok(updated);
    }

    method MarkOrderPickedUp(id: string, courierId: string, now: int) returns (r: Result<Order, OrderError>)
      modifies orders, bus, timeline.repository
      ensures State() == Call(old(State()), id, MarkPickedUp(courierId), now)
      ensures r == Reply(old(State()), id, MarkPickedUp(courierId), now)
    {
      var found := orders.FindById(id);
      if found.None? {
        return Err(OrderNotFound);
      }
      var order := found.value;
      if order.status == PickedUp && order.courierId == Some(courierId) {
        return Ok(order);
      }
      if order.status != CourierAssigned || order.courierId != Some(courierId) {
        return Ok(order);
      }
      var updated := order.(status := PickedUp, updatedAt := now);
      orders.Save(updated);
      PublishEvent(CourierEvent(OrderPickedUp, now, updated.id, courierId));
      return Ok(updated);
    }

    method MarkOrderDelivered(id: string, courierId: string, now: int) returns (r: Result<Order, OrderError>)
      modifies orders, bus, timeline.repository
      ensures State() == Call(old(State()), id, MarkDelivered(courierId), now)
      ensures r == Reply(old(State()), id, MarkDelivered(courierId), now)
    {
      var found := orders.FindById(id);
      if found.None? {
        return Err(OrderNotFound);
      }
      var order := found.value;
      if order.status == Delivered && order.courierId == Some(courierId) {
        return Ok(order);
      }
      if order.status != PickedUp || order.courierId != Some(courierId) {
        return Ok(order);
      }
      var updated := order.(status := Delivered, updatedAt := now);
      orders.Save(updated);
      PublishEvent(CourierEvent(OrderDelivered, now, updated.id, courierId));
      return Ok(updated);
    }

    /** The request is published before the order is saved, the cancellation after it. */
    method RequestOrderCancellation(id: string, actor: Actor, reason: string, now: int)
      returns (r: Result<Order, OrderError>)
      modifies orders, bus, timeline.repository
      ensures State() == Call(old(State()), id, RequestCancellation(actor, reason), now)
      ensures r == Reply(old(State()), id, RequestCancellation(actor, reason), now)
    {
      var found := orders.FindById(id);
      if found.None? {
        return Err(OrderNotFound);
      }
      var order := found.value;
      if order.status == Cancelled {
        return Ok(order);
      }
      if !MayCancel(actor, order.status) {
        return Err(CancellationNotAllowed);
      }
      ghost var before := timeline.repository.entriesByOrder;
      var requested := CancelEvent(CancelRequested, now, order.id, reason, ByActor(actor));
      var cancelled := CancelEvent(OrderCancelled, now, order.id, reason, ByActor(actor));
      PublishEvent(requested);
      var updated := order.(status := Cancelled, cancellationReason := Some(reason),
                            cancelledBy := Some(ByActor(actor)), updatedAt := now);
      orders.Save(updated);
      PublishEvent(cancelled);
      ProjectAllConcat(before, [requested], [cancelled]);
      assert [requested] + [cancelled] == [requested, cancelled];
      return Ok(updated);
    }
  }

  lemma ProjectOne(t: Timelines, e: DomainEvent)
    ensures ProjectAll(t, [e]) == Project(t, e)
  {
    assert [e][..0] == [];
  }
}
