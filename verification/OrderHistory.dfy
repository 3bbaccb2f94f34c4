/** Runs of the order service: the event log is a word of the lifecycle grammar per order,
    determines the stored order, and determines the timelines. */
module OrderHistory {
  import opened Collections
  import opened DomainEvents
  import opened OrderTimeline
  import opened OrderLifecycle

  /** An event of another service: one the timeline ignores. */
  type ForeignEvent = e: DomainEvent | ToTimelineEntry(e).None?
    witness DomainEvent(Unmapped(""), 0, Payload(None, None, None, None))

  datatype Step =
    | Place(id: string, checkoutId: string, checkout: Checkout, at: int)
    | Invoke(id: string, command: Command, at: int)
    | Foreign(event: ForeignEvent)

  /** A random order identifier that is already taken is never drawn. */
  function Advance(s: Ledger, step: Step): Ledger {
    match step
    case Place(id, checkoutId, checkout, now) =>
      if id in s.orders then s else Create(s, id, checkoutId, checkout, now)
    case Invoke(id, command, now) => Call(s, id, command, now)
    case Foreign(event) => s.(events := s.events + [event])
  }

  function Exec(s: Ledger, steps: seq<Step>): Ledger {
    if steps == [] then s else Advance(Exec(s, steps[..|steps| - 1]), steps[|steps| - 1])
  }

  // ----- the lifecycle grammar -----

  const BACKBONE: seq<EventType> :=
    [OrderCreated, OrderConfirmed, AssignmentRequested, AssignmentCompleted, OrderPickedUp, OrderDelivered]

  function Rank(status: OrderStatus): nat
    requires status != Cancelled
  {
    match status
    case Created => 1
    case MerchantAccepted => 2
    case DispatchPending => 3
    case CourierAssigned => 4
    case PickedUp => 5
    case Delivered => 6
  }

  /** The words that leave an order in a status: a stretch of the backbone, and for a
      cancelled order a stretch ending before the pick-up followed by the cancellation. */
  ghost predicate WordFor(status: OrderStatus, w: seq<EventType>) {
    if status != Cancelled then w == BACKBONE[..Rank(status)]
    else
      || w == [OrderCreated, OrderCancelled]
      || w == [OrderCreated, CancelRequested, OrderCancelled]
      || w == [OrderCreated, OrderConfirmed, CancelRequested, OrderCancelled]
      || w == [OrderCreated, OrderConfirmed, AssignmentRequested, CancelRequested, OrderCancelled]
      || w == [OrderCreated, OrderConfirmed, AssignmentRequested, AssignmentCompleted, CancelRequested, OrderCancelled]
  }

  function Types(evs: seq<DomainEvent>): seq<EventType> {
    seq(|evs|, i requires 0 <= i < |evs| => evs[i].eventType)
  }

  // ----- event sourcing -----

  datatype View = View(status: OrderStatus, courierId: Option<string>,
                       cancellationReason: Option<string>, cancelledBy: Option<Canceller>)

  function ViewOf(o: Order): View {
    View(o.status, o.courierId, o.cancellationReason, o.cancelledBy)
  }

  function Fold(v: Option<View>, e: DomainEvent): Option<View> {
    match (e.eventType, v)
    case (OrderCreated, _) => Some(View(Created, None, None, None))
    case (_, None) => None
    case (OrderConfirmed, Some(view)) => Some(view.(status := MerchantAccepted))
    case (AssignmentRequested, Some(view)) => Some(view.(status := DispatchPending))
    case (AssignmentCompleted, Some(view)) =>
      Some(view.(status := CourierAssigned, courierId := e.payload.courierId))
    case (OrderPickedUp, Some(view)) => Some(view.(status := PickedUp))
    case (OrderDelivered, Some(view)) => Some(view.(status := Delivered))
    case (OrderCancelled, Some(view)) =>
      Some(view.(status := Cancelled, cancellationReason := e.payload.reasonCode,
                 cancelledBy := e.payload.cancelledBy))
    case (_, Some(view)) => Some(view)
  }

  function Replay(evs: seq<DomainEvent>): Option<View> {
    if evs == [] then None else Fold(Replay(evs[..|evs| - 1]), evs[|evs| - 1])
  }

  /** Every event that names a courier names the courier stored on the order. */
  ghost predicate NamesTheCourier(o: Order, evs: seq<DomainEvent>) {
    forall i :: 0 <= i < |evs| && evs[i].payload.courierId.Some? ==> evs[i].payload.courierId == o.courierId
  }

  /** An order and its events tell the same story. */
  ghost predicate Recorded(o: Order, evs: seq<DomainEvent>) {
    && WordFor(o.status, Types(evs))
    && Replay(evs) == Some(ViewOf(o))
    && NamesTheCourier(o, evs)
    && (o.status in {Created, MerchantAccepted, DispatchPending} ==> o.courierId == None)
    && (o.status != Cancelled ==> o.cancellationReason == None && o.cancelledBy == None)
  }

  /** What the log says about one identifier is what the repository stores under it. */
  ghost predicate Told(s: Ledger, id: string) {
    if id in s.orders then s.orders[id].id == id && Recorded(s.orders[id], EventsOf(s.events, id))
    else EventsOf(s.events, id) == []
  }

  ghost predicate Consistent(s: Ledger) {
    && (forall id :: Told(s, id))
    && s.timelines == ProjectAll(map[], s.events)
  }

  lemma WordGrows(status: OrderStatus, w: seq<EventType>)
    requires WordFor(status, w) && status !in {Cancelled, Delivered}
    ensures var k := Rank(status);
            forall next :: next != Cancelled && Rank(next) == k + 1 ==> WordFor(next, w + [BACKBONE[k]])
  {
    var k := Rank(status);
    assert BACKBONE[..k] + [BACKBONE[k]] == BACKBONE[..k + 1];
  }

  lemma WordCancels(status: OrderStatus, w: seq<EventType>)
    requires WordFor(status, w) && status in {Created, MerchantAccepted, DispatchPending, CourierAssigned}
    ensures WordFor(Cancelled, w + [CancelRequested] + [OrderCancelled])
    ensures status == Created ==> WordFor(Cancelled, w + [OrderCancelled])
  {
    assert BACKBONE[..1] == [OrderCreated];
    assert BACKBONE[..2] == [OrderCreated, OrderConfirmed];
    assert BACKBONE[..3] == [OrderCreated, OrderConfirmed, AssignmentRequested];
    assert BACKBONE[..4] == [OrderCreated, OrderConfirmed, AssignmentRequested, AssignmentCompleted];
  }

  lemma {:induction false} AppendEvent(evs: seq<DomainEvent>, e: DomainEvent)
    ensures Types(evs + [e]) == Types(evs) + [e.eventType]
    ensures Replay(evs + [e]) == Fold(Replay(evs), e)
  {
    assert (evs + [e])[..|evs|] == evs;
  }

  lemma {:induction false} OwnEvents(emitted: seq<DomainEvent>, id: string, other: string)
    requires forall e :: e in emitted ==> ToTimelineEntry(e).Some? && e.payload.orderId == Some(id)
    ensures EventsOf(emitted, other) == if other == id then emitted else []
  {
    if emitted != [] {
      var n := |emitted| - 1;
      OwnEvents(emitted[..n], id, other);
      assert emitted == emitted[..n] + [emitted[n]];
    }
  }

  /** One more event that tells one more change. */
  lemma StepIsRecorded(o: Order, p: Order, evs: seq<DomainEvent>, e: DomainEvent)
    requires Recorded(o, evs) && WordFor(p.status, Types(evs) + [e.eventType])
    requires Fold(Some(ViewOf(o)), e) == Some(ViewOf(p))
    requires o.courierId.None? || o.courierId == p.courierId
    requires e.payload.courierId.Some? ==> e.payload.courierId == p.courierId
    requires p.status in {Created, MerchantAccepted, DispatchPending} ==> p.courierId == None
    requires p.status != Cancelled ==> p.cancellationReason == None && p.cancelledBy == None
    ensures Recorded(p, evs + [e])
  {
    AppendEvent(evs, e);
    forall i | 0 <= i < |evs + [e]| && (evs + [e])[i].payload.courierId.Some?
      ensures (evs + [e])[i].payload.courierId == p.courierId
    {
      if i < |evs| { assert (evs + [e])[i] == evs[i]; }
    }
  }

  lemma CancellationIsRecorded(o: Order, c: Command, now: int, evs: seq<DomainEvent>)
    requires c.RequestCancellation? && Recorded(o, evs) && Decide(o, c, now).Change?
    ensures Recorded(Decide(o, c, now).order, evs + Decide(o, c, now).emitted)
  {
    var emitted := Decide(o, c, now).emitted;
    WordCancels(o.status, Types(evs));
    AppendEvent(evs, emitted[0]);
    AppendEvent(evs + [emitted[0]], emitted[1]);
    assert evs + [emitted[0]] + [emitted[1]] == evs + emitted;
  }

  lemma DecisionIsRecorded(o: Order, c: Command, now: int, evs: seq<DomainEvent>)
    requires Recorded(o, evs) && Decide(o, c, now).Change?
    ensures Recorded(Decide(o, c, now).order, evs + Decide(o, c, now).emitted)
  {
    if c.RequestCancellation? {
      CancellationIsRecorded(o, c, now, evs);
    } else {
      var d := Decide(o, c, now);
      assert d.emitted == [d.emitted[0]];
      if c.MerchantTimeout? { WordCancels(o.status, Types(evs)); } else { WordGrows(o.status, Types(evs)); }
      StepIsRecorded(o, d.order, evs, d.emitted[0]);
    }
  }

  lemma EmissionIsOwn(o: Order, c: Command, now: int)
    requires Decide(o, c, now).Change?
    ensures Decide(o, c, now).order.id == o.id
    ensures forall e :: e in Decide(o, c, now).emitted ==> ToTimelineEntry(e).Some? && e.payload.orderId == Some(o.id)
  {
  }

  /** Saving an order together with events that tell its change keeps the log truthful. */
  lemma EmitKeepsConsistent(s: Ledger, o: Order, emitted: seq<DomainEvent>)
    requires Consistent(s)
    requires forall e :: e in emitted ==> ToTimelineEntry(e).Some? && e.payload.orderId == Some(o.id)
    requires Recorded(o, EventsOf(s.events, o.id) + emitted)
    ensures Consistent(Emit(s.(orders := s.orders[o.id := o]), emitted))
  {
    var t := Emit(s.(orders := s.orders[o.id := o]), emitted);
    forall id ensures Told(t, id) {
      assert Told(s, id);
      EventsOfConcat(s.events, emitted, id);
      OwnEvents(emitted, o.id, id);
      if id != o.id { assert EventsOf(t.events, id) == EventsOf(s.events, id); }
    }
    ProjectAllConcat(map[], s.events, emitted);
  }

  /** A decision whose order and events agree with what was logged before. */
  ghost predicate Truthful(d: Decision, id: string, evs: seq<DomainEvent>) {
    d.Change? ==>
      && d.order.id == id && Recorded(d.order, evs + d.emitted)
      && (forall e :: e in d.emitted ==> ToTimelineEntry(e).Some? && e.payload.orderId == Some(id))
  }

  lemma DecisionIsTruthful(o: Order, c: Command, now: int, evs: seq<DomainEvent>)
    requires Recorded(o, evs)
    ensures Truthful(Decide(o, c, now), o.id, evs)
  {
    if Decide(o, c, now).Change? {
      EmissionIsOwn(o, c, now);
      DecisionIsRecorded(o, c, now, evs);
    }
  }

  lemma CarryingOutKeepsConsistent(s: Ledger, id: string, d: Decision)
    requires Consistent(s) && Truthful(d, id, EventsOf(s.events, id))
    ensures Consistent(CarryOut(s, d))
  {
    if d.Change? { EmitKeepsConsistent(s, d.order, d.emitted); }
  }

  lemma CallKeepsConsistent(s: Ledger, id: string, c: Command, now: int)
    requires Consistent(s)
    ensures Consistent(Call(s, id, c, now))
  {
    if id in s.orders {
      assert Told(s, id);
      DecisionIsTruthful(s.orders[id], c, now, EventsOf(s.events, id));
      CarryingOutKeepsConsistent(s, id, Decide(s.orders[id], c, now));
    }
  }

  lemma CreateKeepsConsistent(s: Ledger, id: string, checkoutId: string, checkout: Checkout, now: int)
    requires Consistent(s) && id !in s.orders
    ensures Consistent(Create(s, id, checkoutId, checkout, now))
  {
    var e := EventFor(OrderCreated, now, id);
    assert Told(s, id);
    assert EventsOf(s.events, id) + [e] == [e];
    AppendEvent([], e);
    assert [] + [e] == [e] && BACKBONE[..1] == [OrderCreated];
    EmitKeepsConsistent(s, NewOrder(id, checkoutId, checkout, now), [e]);
  }

  lemma ForeignKeepsConsistent(s: Ledger, e: ForeignEvent)
    requires Consistent(s)
    ensures Consistent(s.(events := s.events + [e]))
  {
    var t := s.(events := s.events + [e]);
    assert t.events[..|s.events|] == s.events;
    forall id ensures Told(t, id) {
      assert Told(s, id);
      assert EventsOf(t.events, id) == EventsOf(s.events, id);
    }
  }

  lemma AdvanceKeepsConsistent(s: Ledger, step: Step)
    requires Consistent(s)
    ensures Consistent(Advance(s, step))
  {
    match step
    case Place(id, checkoutId, checkout, now) =>
      if id !in s.orders { CreateKeepsConsistent(s, id, checkoutId, checkout, now); }
    case Invoke(id, command, now) => CallKeepsConsistent(s, id, command, now);
    case Foreign(e) => ForeignKeepsConsistent(s, e);
  }

  lemma {:induction false} ExecKeepsConsistent(s: Ledger, steps: seq<Step>)
    requires Consistent(s)
    ensures Consistent(Exec(s, steps))
  {
    if steps != [] {
      ExecKeepsConsistent(s, steps[..|steps| - 1]);
      AdvanceKeepsConsistent(Exec(s, steps[..|steps| - 1]), steps[|steps| - 1]);
    }
  }

  lemma WordsDoNotRepeat(status: OrderStatus, w: seq<EventType>)
    requires WordFor(status, w)
    ensures Distinct(w) && w != [] && EventStatus(w[|w| - 1]) == Some(Reached(status))
  {
  }

  /** In every run, each order's events form a lifecycle word for its stored status with no
      type repeated, replaying them gives back the stored order, every courier they name is
      the stored one, and no event names an order that does not exist. */
  lemma EveryRunIsRecorded(steps: seq<Step>, id: string)
    ensures var s := Exec(EMPTY_LEDGER, steps);
            if id in s.orders then
              && WordFor(s.orders[id].status, Types(EventsOf(s.events, id)))
              && Distinct(Types(EventsOf(s.events, id)))
              && Replay(EventsOf(s.events, id)) == Some(ViewOf(s.orders[id]))
              && NamesTheCourier(s.orders[id], EventsOf(s.events, id))
            else EventsOf(s.events, id) == []
  {
    ExecKeepsConsistent(EMPTY_LEDGER, steps);
    var s := Exec(EMPTY_LEDGER, steps);
    assert Told(s, id);
    if id in s.orders {
      WordsDoNotRepeat(s.orders[id].status, Types(EventsOf(s.events, id)));
    }
  }

  lemma TimelineEndsWithTheLastEvent(log: seq<DomainEvent>, id: string, status: OrderStatus)
    requires WordFor(status, Types(EventsOf(log, id)))
    ensures var t := ProjectAll(map[], log);
            id in t && t[id] != [] && t[id][|t[id]| - 1].status == Reached(status)
  {
    var evs := EventsOf(log, id);
    WordsDoNotRepeat(status, Types(evs));
    assert Types(evs)[|evs| - 1] == evs[|evs| - 1].eventType;
    TimelineIsTheOrdersEvents(log, id);
  }

  lemma TimelinesAreProjected(steps: seq<Step>)
    ensures Exec(EMPTY_LEDGER, steps).timelines == ProjectAll(map[], Exec(EMPTY_LEDGER, steps).events)
  {
    ExecKeepsConsistent(EMPTY_LEDGER, steps);
  }

  /** Between calls the last timeline entry shows the order's status. */
  lemma TimelineShowsTheStatus(steps: seq<Step>, id: string)
    requires id in Exec(EMPTY_LEDGER, steps).orders
    ensures var s := Exec(EMPTY_LEDGER, steps);
            && id in s.timelines && s.timelines[id] != []
            && s.timelines[id][|s.timelines[id]| - 1].status == Reached(s.orders[id].status)
  {
    EveryRunIsRecorded(steps, id);
    TimelinesAreProjected(steps);
    var s := Exec(EMPTY_LEDGER, steps);
    TimelineEndsWithTheLastEvent(s.events, id, s.orders[id].status);
  }

  lemma NamedOrdersHaveEvents(log: seq<DomainEvent>, id: string)
    ensures id in OrdersNamed(log) <==> EventsOf(log, id) != []
  {
    TimelineDomain(log);
    TimelineIsTheOrdersEvents(log, id);
  }

  /** After any run a rebuild from the log finds the very timelines the run left, one
      timeline per order ever placed, and one entry per projectable event. */
  lemma RebuildChangesNothing(steps: seq<Step>)
    ensures var s := Exec(EMPTY_LEDGER, steps);
            && ProjectAll(map[], s.events) == s.timelines
            && OrdersNamed(s.events) == s.orders.Keys
            && |AllEntries(s.events)| == |ProjectableAt(s.events)|
  {
    ExecKeepsConsistent(EMPTY_LEDGER, steps);
    var s := Exec(EMPTY_LEDGER, steps);
    forall id ensures id in OrdersNamed(s.events) <==> id in s.orders.Keys {
      NamedOrdersHaveEvents(s.events, id);
      assert Told(s, id);
      if id in s.orders { WordsDoNotRepeat(s.orders[id].status, Types(EventsOf(s.events, id))); }
    }
    EntriesCountProjectableEvents(s.events);
  }

  ghost function ProjectableAt(log: seq<DomainEvent>): set<int> {
    set i | 0 <= i < |log| && ToTimelineEntry(log[i]).Some?
  }

  lemma {:induction false} EntriesCountProjectableEvents(log: seq<DomainEvent>)
    ensures |AllEntries(log)| == |ProjectableAt(log)|
  {
    if log != [] {
      var n := |log| - 1;
      EntriesCountProjectableEvents(log[..n]);
      assert ProjectableAt(log) ==
        ProjectableAt(log[..n]) + if ToTimelineEntry(log[n]).Some? then {n} else {};
    }
  }
}
