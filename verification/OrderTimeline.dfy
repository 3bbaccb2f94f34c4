/** Domain events, the in-memory event bus and the per-order timeline projected from it. */
module DomainEvents {
  import opened Collections

  datatype OrderStatus =
    | Created | MerchantAccepted | DispatchPending | CourierAssigned
    | PickedUp | Delivered | Cancelled

  datatype Actor = Consumer | MerchantOperator | SupportAgent | SystemAdmin

  /** Who is recorded as having cancelled: an actor, or the timeout ("system"). */
  datatype Canceller = ByActor(actor: Actor) | BySystem

  /** The event types of the timeline map, and every type outside it. */
  datatype EventType =
    | OrderCreated | OrderConfirmed | AssignmentRequested | AssignmentCompleted
    | OrderPickedUp | OrderDelivered | CancelRequested | OrderCancelled
    | Unmapped(name: string)

  /** A payload field is None when it is absent or not of the expected type. */
  datatype Payload = Payload(
    orderId: Option<string>, courierId: Option<string>,
    reasonCode: Option<string>, cancelledBy: Option<Canceller>)

  /** Timestamps are milliseconds. */
  datatype DomainEvent = DomainEvent(eventType: EventType, occurredAt: int, payload: Payload)

  class InMemoryEventBus {
    var events: seq<DomainEvent>

    constructor ()
      ensures events == []
    {
      events := [];
    }

    method Publish(event: DomainEvent)
      modifies this
      ensures events == old(events) + [event]
    {
      events := events + [event];
    }
  }
}

module OrderTimeline {
  import opened Collections
  import opened DomainEvents

  datatype TimelineStatus = Reached(status: OrderStatus) | CancellationRequested

  datatype TimelineEntry = TimelineEntry(
    orderId: string, eventType: EventType, status: TimelineStatus, occurredAt: int,
    reasonCode: Option<string>, cancelledBy: Option<Canceller>)

  type Timelines = map<string, seq<TimelineEntry>>

  function EventStatus(t: EventType): Option<TimelineStatus> {
    match t
    case OrderCreated => Some(Reached(Created))
    case OrderConfirmed => Some(Reached(MerchantAccepted))
    case AssignmentRequested => Some(Reached(DispatchPending))
    case AssignmentCompleted => Some(Reached(CourierAssigned))
    case OrderPickedUp => Some(Reached(PickedUp))
    case OrderDelivered => Some(Reached(Delivered))
    case CancelRequested => Some(CancellationRequested)
    case OrderCancelled => Some(Reached(Cancelled))
    case Unmapped(_) => None
  }

  function ToTimelineEntry(e: DomainEvent): Option<TimelineEntry> {
    if EventStatus(e.eventType).None? || e.payload.orderId.None? then None
    else Some(TimelineEntry(e.payload.orderId.value, e.eventType, EventStatus(e.eventType).value,
                            e.occurredAt, e.payload.reasonCode, e.payload.cancelledBy))
  }

  function AppendEntry(t: Timelines, entry: TimelineEntry): Timelines {
    t[entry.orderId := (if entry.orderId in t then t[entry.orderId] else []) + [entry]]
  }

  function Project(t: Timelines, e: DomainEvent): Timelines {
    match ToTimelineEntry(e)
    case None => t
    case Some(entry) => AppendEntry(t, entry)
  }

  function ProjectAll(t: Timelines, log: seq<DomainEvent>): Timelines {
    if log == [] then t else Project(ProjectAll(t, log[..|log| - 1]), log[|log| - 1])
  }

  /** All projected entries of a log, in log order. */
  function AllEntries(log: seq<DomainEvent>): seq<TimelineEntry> {
    if log == [] then []
    else
      var rest := AllEntries(log[..|log| - 1]);
      match ToTimelineEntry(log[|log| - 1])
      case None => rest
      case Some(entry) => rest + [entry]
  }

  /** The entries of one order. */
  function Only(entries: seq<TimelineEntry>, orderId: string): seq<TimelineEntry> {
    if entries == [] then []
    else
      var last := entries[|entries| - 1];
      Only(entries[..|entries| - 1], orderId) + if last.orderId == orderId then [last] else []
  }

  /** The projectable events of one order, in log order. */
  function EventsOf(log: seq<DomainEvent>, orderId: string): seq<DomainEvent> {
    if log == [] then []
    else
      var last := log[|log| - 1];
      EventsOf(log[..|log| - 1], orderId) +
      if ToTimelineEntry(last).Some? && last.payload.orderId == Some(orderId) then [last] else []
  }

  /** The orders some projectable event of the log names. */
  function OrdersNamed(log: seq<DomainEvent>): set<string> {
    set e | e in log && ToTimelineEntry(e).Some? :: e.payload.orderId.value
  }

  class InMemoryOrderTimelineRepository {
    var entriesByOrder: Timelines

    constructor ()
      ensures entriesByOrder == map[]
    {
      entriesByOrder := map[];
    }

    method Append(entry: TimelineEntry)
      modifies this
      ensures entriesByOrder == AppendEntry(old(entriesByOrder), entry)
    {
      var current := if entry.orderId in entriesByOrder then entriesByOrder[entry.orderId] else [];
      entriesByOrder := entriesByOrder[entry.orderId := current + [entry]];
    }

    method GetByOrderId(orderId: string) returns (entries: seq<TimelineEntry>)
      ensures entries == if orderId in entriesByOrder then entriesByOrder[orderId] else []
    {
      entries := if orderId in entriesByOrder then entriesByOrder[orderId] else [];
    }

    method Clear()
      modifies this
      ensures entriesByOrder == map[]
    {
      entriesByOrder := map[];
    }

    method OrderCount() returns (count: nat)
      ensures count == |entriesByOrder.Keys|
    {
      count := |entriesByOrder|;
    }
  }

  class OrderTimelineService {
    const bus: InMemoryEventBus
    const repository: InMemoryOrderTimelineRepository

    constructor (bus: InMemoryEventBus, repository: InMemoryOrderTimelineRepository)
      ensures this.bus == bus && this.repository == repository
    {
      this.bus, this.repository := bus, repository;
    }

    method ProjectEvent(event: DomainEvent)
      modifies repository
      ensures repository.entriesByOrder == Project(old(repository.entriesByOrder), event)
    {
      var entry := ToTimelineEntry(event);
      if entry.Some? {
        repository.Append(entry.value);
      }
    }

    /** Replays the whole log: the timelines afterwards depend on the log alone. */
    method RebuildFromEventLog() returns (entriesRebuilt: nat, ordersRebuilt: nat)
      modifies repository
      ensures repository.entriesByOrder == ProjectAll(map[], bus.events)
      ensures entriesRebuilt == |AllEntries(bus.events)|
      ensures ordersRebuilt == |OrdersNamed(bus.events)|
    {
      repository.Clear();
      entriesRebuilt := 0;
      var events := bus.events;
      for i := 0 to |events|
        invariant bus.events == events
        invariant repository.entriesByOrder == ProjectAll(map[], events[..i])
        invariant entriesRebuilt == |AllEntries(events[..i])|
      {
        assert events[..i + 1][..i] == events[..i];
        var entry := ToTimelineEntry(events[i]);
        if entry.None? {
          continue;
        }
        repository.Append(entry.value);
        entriesRebuilt := entriesRebuilt + 1;
      }
      assert events[..|events|] == events;
      TimelineDomain(events);
      ordersRebuilt := repository.OrderCount();
    }
  }

  lemma {:induction false} TimelineDomain(log: seq<DomainEvent>)
    ensures ProjectAll(map[], log).Keys == OrdersNamed(log)
  {
    if log != [] {
      TimelineDomain(log[..|log| - 1]);
      assert forall e :: e in log <==> e in log[..|log| - 1] || e == log[|log| - 1];
    }
  }

  /** A projected timeline is the order's own events, entry by entry, and nothing else. */
  lemma {:induction false} TimelineIsTheOrdersEvents(log: seq<DomainEvent>, id: string)
    ensures id in ProjectAll(map[], log) <==> EventsOf(log, id) != []
    ensures id in ProjectAll(map[], log) ==>
              && |ProjectAll(map[], log)[id]| == |EventsOf(log, id)|
              && (forall i :: 0 <= i < |EventsOf(log, id)| ==>
                    Some(ProjectAll(map[], log)[id][i]) == ToTimelineEntry(EventsOf(log, id)[i]))
  {
    if log != [] {
      TimelineIsTheOrdersEvents(log[..|log| - 1], id);
    }
  }

  /** One entry more, seen by filtering and by projecting. */
  lemma FilterOneMore(entries: seq<TimelineEntry>, t: Timelines, entry: TimelineEntry, id: string)
    requires Only(entries, id) == if id in t then t[id] else []
    ensures Only(entries + [entry], id) ==
              if id in AppendEntry(t, entry) then AppendEntry(t, entry)[id] else []
  {
    assert (entries + [entry])[..|entries|] == entries;
  }

  /** The timeline of an order is what filtering all entries by that order gives. */
  lemma {:induction false} TimelineIsFilteredEntries(log: seq<DomainEvent>, id: string)
    ensures Only(AllEntries(log), id) ==
              if id in ProjectAll(map[], log) then ProjectAll(map[], log)[id] else []
  {
    if log != [] {
      var init, last := log[..|log| - 1], ToTimelineEntry(log[|log| - 1]);
      TimelineIsFilteredEntries(init, id);
      if last.Some? { FilterOneMore(AllEntries(init), ProjectAll(map[], init), last.value, id); }
    }
  }

  /** Projecting a longer log is projecting its first part and then the rest. */
  lemma {:induction false} ProjectAllConcat(t: Timelines, a: seq<DomainEvent>, b: seq<DomainEvent>)
    ensures ProjectAll(t, a + b) == ProjectAll(ProjectAll(t, a), b)
  {
    if b == [] {
      assert a + b == a;
    } else {
      assert (a + b)[..|a + b| - 1] == a + b[..|b| - 1];
      ProjectAllConcat(t, a, b[..|b| - 1]);
    }
  }

  lemma {:induction false} EventsOfConcat(a: seq<DomainEvent>, b: seq<DomainEvent>, id: string)
    ensures EventsOf(a + b, id) == EventsOf(a, id) + EventsOf(b, id)
  {
    if b == [] {
      assert a + b == a;
    } else {
      assert (a + b)[..|a + b| - 1] == a + b[..|b| - 1];
      EventsOfConcat(a, b[..|b| - 1], id);
    }
  }
}
