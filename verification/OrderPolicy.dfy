/** What an order's own events say about every call on it: which calls take effect, who may
    cancel until when, and what the order and its timeline show. */
module OrderPolicy {
  import opened Collections
  import opened DomainEvents
  import opened OrderTimeline
  import opened OrderLifecycle
  import opened OrderHistory

  /** The events of an order so far, by type. */
  function Past(s: Ledger, id: string): seq<EventType> {
    Types(EventsOf(s.events, id))
  }

  /** The courier the last event names. */
  function NamedLast(s: Ledger, id: string): Option<string> {
    var evs := EventsOf(s.events, id);
    if evs == [] then None else evs[|evs| - 1].payload.courierId
  }

  /** Whether a cancellation may go through: nobody cancels after the pick-up, and the consumer
      not after dispatch was requested. */
  predicate StillCancellable(past: seq<EventType>, actor: Actor) {
    OrderPickedUp !in past && (actor == Consumer ==> AssignmentRequested !in past)
  }

  /** The events a call adds to an order with the given past. */
  function Added(past: seq<EventType>, named: Option<string>, c: Command): seq<EventType> {
    match c
    case MerchantAccept => if past == [OrderCreated] then [OrderConfirmed] else []
    case MerchantTimeout => if past == [OrderCreated] then [OrderCancelled] else []
    case RequestDispatch => if past == [OrderCreated, OrderConfirmed] then [AssignmentRequested] else []
    case AssignCourier(_) =>
      if past == [OrderCreated, OrderConfirmed, AssignmentRequested] then [AssignmentCompleted] else []
    case MarkPickedUp(courier) =>
      if past == [OrderCreated, OrderConfirmed, AssignmentRequested, AssignmentCompleted] && named == Some(courier)
      then [OrderPickedUp] else []
    case MarkDelivered(courier) =>
      if past == [OrderCreated, OrderConfirmed, AssignmentRequested, AssignmentCompleted, OrderPickedUp]
         && named == Some(courier)
      then [OrderDelivered] else []
    case RequestCancellation(actor, _) =>
      if OrderCancelled !in past && StillCancellable(past, actor) then [CancelRequested, OrderCancelled] else []
  }

  // ----- the past of an order in a given status -----

  lemma BackboneIs()
    ensures BACKBONE[..1] == [OrderCreated]
    ensures BACKBONE[..2] == [OrderCreated, OrderConfirmed]
    ensures BACKBONE[..3] == [OrderCreated, OrderConfirmed, AssignmentRequested]
    ensures BACKBONE[..4] == [OrderCreated, OrderConfirmed, AssignmentRequested, AssignmentCompleted]
    ensures BACKBONE[..5] == [OrderCreated, OrderConfirmed, AssignmentRequested, AssignmentCompleted, OrderPickedUp]
    ensures BACKBONE[..6] == BACKBONE
  {
  }

  /** The past tells the status. */
  lemma PastTells(status: OrderStatus, w: seq<EventType>)
    requires WordFor(status, w)
    ensures status == Created <==> w == [OrderCreated]
    ensures status == MerchantAccepted <==> w == [OrderCreated, OrderConfirmed]
    ensures status == DispatchPending <==> w == [OrderCreated, OrderConfirmed, AssignmentRequested]
    ensures status == CourierAssigned <==>
              w == [OrderCreated, OrderConfirmed, AssignmentRequested, AssignmentCompleted]
    ensures status == PickedUp <==>
              w == [OrderCreated, OrderConfirmed, AssignmentRequested, AssignmentCompleted, OrderPickedUp]
  {
    BackboneIs();
  }

  lemma PastTellsMembers(status: OrderStatus, w: seq<EventType>)
    requires WordFor(status, w)
    ensures status == Cancelled <==> OrderCancelled in w
    ensures status != Cancelled ==>
              (OrderPickedUp in w <==> status in {PickedUp, Delivered})
              && (AssignmentRequested in w <==> status !in {Created, MerchantAccepted})
    ensures status == Cancelled ==> OrderPickedUp !in w
  {
    BackboneIs();
  }

  // ----- calls -----

  ghost predicate StoredAs(s: Ledger, id: string) {
    id in s.orders ==> s.orders[id].id == id && Recorded(s.orders[id], EventsOf(s.events, id))
  }

  lemma StoredAsTold(s: Ledger, id: string)
    requires Consistent(s)
    ensures StoredAs(s, id)
  {
    assert Told(s, id);
  }

  /** The last event of an order that is with a courier names that courier. */
  ghost predicate CourierNamedLast(s: Ledger, id: string) {
    id in s.orders && s.orders[id].status in {CourierAssigned, PickedUp, Delivered} ==>
      s.orders[id].courierId.Some? && NamedLast(s, id) == s.orders[id].courierId
  }

  lemma CancellationAdds(o: Order, past: seq<EventType>, named: Option<string>, c: Command, now: int)
    requires WordFor(o.status, past) && c.RequestCancellation?
    ensures var d := Decide(o, c, now);
            Added(past, named, c) == if d.Change? then Types(d.emitted) else []
  {
    PastTellsMembers(o.status, past);
    var d := Decide(o, c, now);
    if d.Change? { assert Types(d.emitted) == [CancelRequested, OrderCancelled]; }
  }

  lemma ProgressAdds(o: Order, past: seq<EventType>, named: Option<string>, c: Command, now: int)
    requires WordFor(o.status, past) && !c.RequestCancellation?
    requires o.status in {CourierAssigned, PickedUp} ==> named == o.courierId
    ensures var d := Decide(o, c, now);
            Added(past, named, c) == if d.Change? then Types(d.emitted) else []
  {
    PastTells(o.status, past);
    var d := Decide(o, c, now);
    if d.Change? { assert Types(d.emitted) == [d.emitted[0].eventType]; }
  }

  lemma DecisionAdds(s: Ledger, id: string, c: Command, now: int)
    requires id in s.orders && StoredAs(s, id) && CourierNamedLast(s, id)
    ensures var d := Decide(s.orders[id], c, now);
            Added(Past(s, id), NamedLast(s, id), c) == if d.Change? then Types(d.emitted) else []
  {
    if c.RequestCancellation? {
      CancellationAdds(s.orders[id], Past(s, id), NamedLast(s, id), c, now);
    } else {
      ProgressAdds(s.orders[id], Past(s, id), NamedLast(s, id), c, now);
    }
  }

  lemma CallEvents(s: Ledger, id: string, c: Command, now: int, other: string)
    requires id in s.orders && s.orders[id].id == id
    ensures var d := Decide(s.orders[id], c, now);
            EventsOf(Call(s, id, c, now).events, other) ==
            EventsOf(s.events, other) + if other == id && d.Change? then d.emitted else []
  {
    var d := Decide(s.orders[id], c, now);
    if d.Change? {
      EmissionIsOwn(s.orders[id], c, now);
      EventsOfConcat(s.events, d.emitted, other);
      OwnEvents(d.emitted, id, other);
    }
    assert EventsOf(s.events, other) + [] == EventsOf(s.events, other);
  }

  lemma CallChangesOne(s: Ledger, id: string, c: Command, now: int, other: string)
    requires id in s.orders && s.orders[id].id == id
    ensures var d, t := Decide(s.orders[id], c, now), Call(s, id, c, now);
            && (other in t.orders <==> other in s.orders)
            && (other in s.orders ==> t.orders[other] == if other == id && d.Change? then d.order else s.orders[other])
  {
  }

  lemma OneEvent(e: DomainEvent, id: string)
    ensures EventsOf([e], id) == if ToTimelineEntry(e).Some? && e.payload.orderId == Some(id) then [e] else []
  {
    assert [e][..0] == [];
  }

  // ----- one step, seen from one order -----

  ghost predicate Untouched(s: Ledger, t: Ledger, id: string) {
    && EventsOf(t.events, id) == EventsOf(s.events, id)
    && (id in t.orders <==> id in s.orders)
    && (id in s.orders ==> t.orders[id] == s.orders[id])
  }

  ghost predicate Placed(s: Ledger, t: Ledger, step: Step, id: string) {
    && step.Place? && step.id == id && id !in s.orders && id in t.orders
    && t.orders[id] == NewOrder(id, step.checkoutId, step.checkout, step.at)
    && EventsOf(t.events, id) == [EventFor(OrderCreated, step.at, id)]
  }

  ghost predicate Called(s: Ledger, t: Ledger, step: Step, id: string) {
    && step.Invoke? && step.id == id && id in s.orders && id in t.orders
    && StoredAs(s, id)
    && var d := Decide(s.orders[id], step.command, step.at);
       d.Change? && t.orders[id] == d.order && EventsOf(t.events, id) == EventsOf(s.events, id) + d.emitted
  }

  lemma CallTouches(s: Ledger, step: Step, id: string)
    requires Consistent(s) && step.Invoke?
    ensures Untouched(s, Advance(s, step), id) || Called(s, Advance(s, step), step, id)
  {
    if step.id in s.orders {
      StoredAsTold(s, step.id);
      CallEvents(s, step.id, step.command, step.at, id);
      CallChangesOne(s, step.id, step.command, step.at, id);
      assert EventsOf(s.events, id) + [] == EventsOf(s.events, id);
    }
  }

  lemma PlacingAdds(s: Ledger, step: Step, id: string)
    requires step.Place? && step.id !in s.orders
    ensures EventsOf(Advance(s, step).events, id) ==
              EventsOf(s.events, id) + if id == step.id then [EventFor(OrderCreated, step.at, id)] else []
  {
    var e := EventFor(OrderCreated, step.at, step.id);
    EventsOfConcat(s.events, [e], id);
    OneEvent(e, id);
  }

  lemma PlacingTouches(s: Ledger, step: Step, id: string)
    requires Consistent(s) && step.Place?
    ensures Untouched(s, Advance(s, step), id) || Placed(s, Advance(s, step), step, id)
  {
    if step.id !in s.orders {
      PlacingAdds(s, step, id);
      assert Told(s, id);
    }
  }

  lemma StepTouches(s: Ledger, step: Step, id: string)
    requires Consistent(s)
    ensures var t := Advance(s, step);
            Untouched(s, t, id) || Placed(s, t, step, id) || Called(s, t, step, id)
  {
    match step
    case Place(_, _, _, _) => PlacingTouches(s, step, id);
    case Invoke(_, _, _) => CallTouches(s, step, id);
    case Foreign(e) =>
      EventsOfConcat(s.events, [e], id);
      OneEvent(e, id);
      assert EventsOf(s.events, id) + [] == EventsOf(s.events, id);
  }

  lemma DecisionNamesCourier(o: Order, c: Command, now: int)
    requires Decide(o, c, now).Change?
    ensures var d := Decide(o, c, now);
            && d.emitted != []
            && (d.order.status in {CourierAssigned, PickedUp, Delivered} ==>
                  && d.order.courierId.Some?
                  && d.emitted[|d.emitted| - 1].payload.courierId == d.order.courierId)
  {
  }

  lemma CalledNamesCourier(s: Ledger, t: Ledger, step: Step, id: string)
    requires Called(s, t, step, id)
    ensures CourierNamedLast(t, id)
  {
    DecisionNamesCourier(s.orders[id], step.command, step.at);
    var emitted := Decide(s.orders[id], step.command, step.at).emitted;
    var evs := EventsOf(t.events, id);
    assert evs[|evs| - 1] == emitted[|emitted| - 1];
  }

  lemma {:induction false} RunNamesCourier(steps: seq<Step>, id: string)
    ensures CourierNamedLast(Exec(EMPTY_LEDGER, steps), id)
  {
    if steps != [] {
      var init, step := steps[..|steps| - 1], steps[|steps| - 1];
      var s := Exec(EMPTY_LEDGER, init);
      RunNamesCourier(init, id);
      ExecKeepsConsistent(EMPTY_LEDGER, init);
      StepTouches(s, step, id);
      if Called(s, Advance(s, step), step, id) { CalledNamesCourier(s, Advance(s, step), step, id); }
    }
  }

  lemma CallAdds(s: Ledger, id: string, c: Command, now: int)
    requires id in s.orders && StoredAs(s, id) && CourierNamedLast(s, id)
    ensures Past(Call(s, id, c, now), id) == Past(s, id) + Added(Past(s, id), NamedLast(s, id), c)
  {
    DecisionAdds(s, id, c, now);
    CallEvents(s, id, c, now, id);
    var d := Decide(s.orders[id], c, now);
    TypesConcat(EventsOf(s.events, id), if d.Change? then d.emitted else []);
  }

  lemma TypesConcat(a: seq<DomainEvent>, b: seq<DomainEvent>)
    ensures Types(a + b) == Types(a) + Types(b)
  {
  }

  /** In every run, the events a call adds to an order are determined by the order's past: the
      next step of the lifecycle when the past ends just before it and the same courier acts,
      or the cancellation while the actor may still cancel. */
  lemma {:induction false} CallsTakeEffectInTurn(steps: seq<Step>, id: string, c: Command, now: int)
    requires id in Exec(EMPTY_LEDGER, steps).orders
    ensures var s := Exec(EMPTY_LEDGER, steps);
            Past(Call(s, id, c, now), id) == Past(s, id) + Added(Past(s, id), NamedLast(s, id), c)
  {
    var s := Exec(EMPTY_LEDGER, steps);
    ExecKeepsConsistent(EMPTY_LEDGER, steps);
    StoredAsTold(s, id);
    RunNamesCourier(steps, id);
    CallAdds(s, id, c, now);
  }

  /** Placing an order under a fresh identifier creates it, with that one event. */
  lemma {:induction false} PlacingCreates(steps: seq<Step>, id: string, checkoutId: string, checkout: Checkout,
                                          now: int)
    requires id !in Exec(EMPTY_LEDGER, steps).orders
    ensures var t := Create(Exec(EMPTY_LEDGER, steps), id, checkoutId, checkout, now);
            && id in t.orders && t.orders[id].id == id && t.orders[id].status == Created
            && Past(t, id) == [OrderCreated]
  {
    var s := Exec(EMPTY_LEDGER, steps);
    ExecKeepsConsistent(EMPTY_LEDGER, steps);
    PlacingTouches(s, Place(id, checkoutId, checkout, now), id);
    assert Told(s, id);
  }

  lemma RefusedExactly(s: Ledger, id: string, c: Command, now: int)
    requires StoredAs(s, id)
    ensures Reply(s, id, c, now).Ok? <==>
              && id in s.orders
              && (c.RequestCancellation? ==> OrderCancelled in Past(s, id) || StillCancellable(Past(s, id), c.actor))
    ensures Reply(s, id, c, now) == Err(OrderNotFound) <==> id !in s.orders
    ensures Reply(s, id, c, now).Ok? ==>
              id in Call(s, id, c, now).orders && Reply(s, id, c, now).value == Call(s, id, c, now).orders[id]
  {
    if id in s.orders {
      PastTells(s.orders[id].status, Past(s, id));
      PastTellsMembers(s.orders[id].status, Past(s, id));
      CallChangesOne(s, id, c, now, id);
    }
  }

  /** In every run a cancellation of a stored order succeeds exactly when it is cancelled
      already or may still be cancelled by that actor; every other call on a stored order
      succeeds, and no call on an unknown one. The answer is the order as stored then. */
  lemma {:induction false} CallsAreRefusedExactly(steps: seq<Step>, id: string, c: Command, now: int)
    ensures var s := Exec(EMPTY_LEDGER, steps);
            && (Reply(s, id, c, now).Ok? <==>
                  && id in s.orders
                  && (c.RequestCancellation? ==>
                        OrderCancelled in Past(s, id) || StillCancellable(Past(s, id), c.actor)))
            && (Reply(s, id, c, now) == Err(OrderNotFound) <==> id !in s.orders)
            && (Reply(s, id, c, now).Ok? ==>
                  id in Call(s, id, c, now).orders && Reply(s, id, c, now).value == Call(s, id, c, now).orders[id])
  {
    ExecKeepsConsistent(EMPTY_LEDGER, steps);
    StoredAsTold(Exec(EMPTY_LEDGER, steps), id);
    RefusedExactly(Exec(EMPTY_LEDGER, steps), id, c, now);
  }

  // ----- who cancelled what -----

  /** What the record of a cancellation implies about the past. */
  ghost predicate CancelledLawfully(o: Order, evs: seq<DomainEvent>) {
    && (o.cancelledBy == Some(ByActor(Consumer)) ==> AssignmentRequested !in Types(evs))
    && (o.cancelledBy.Some? ==> OrderPickedUp !in Types(evs) && OrderCancelled in Types(evs))
    && (o.cancelledBy == Some(BySystem) ==>
          Types(evs) == [OrderCreated, OrderCancelled] && o.cancellationReason == Some("MERCHANT_TIMEOUT"))
    && (o.cancelledBy.Some? && o.cancelledBy != Some(BySystem) ==>
          |evs| > 1 && evs[|evs| - 2].eventType == CancelRequested
          && evs[|evs| - 2].payload.reasonCode == o.cancellationReason
          && evs[|evs| - 2].payload.cancelledBy == o.cancelledBy)
    && (OrderCancelled in Types(evs) <==> o.cancelledBy.Some?)
  }

  lemma CancellingIsLawful(o: Order, c: Command, now: int, evs: seq<DomainEvent>)
    requires c.RequestCancellation? && Recorded(o, evs) && Decide(o, c, now).Change?
    ensures CancelledLawfully(Decide(o, c, now).order, evs + Decide(o, c, now).emitted)
  {
    var emitted := Decide(o, c, now).emitted;
    PastTellsMembers(o.status, Types(evs));
    assert Types(evs + emitted) == Types(evs) + [CancelRequested, OrderCancelled];
    assert (evs + emitted)[|evs|] == emitted[0] && |evs + emitted| == |evs| + 2;
    assert Types(evs + emitted)[|evs| + 1] == OrderCancelled;
  }

  lemma DecisionIsLawful(o: Order, c: Command, now: int, evs: seq<DomainEvent>)
    requires Recorded(o, evs) && CancelledLawfully(o, evs) && Decide(o, c, now).Change?
    ensures CancelledLawfully(Decide(o, c, now).order, evs + Decide(o, c, now).emitted)
  {
    if c.RequestCancellation? {
      CancellingIsLawful(o, c, now, evs);
    } else {
      var e := Decide(o, c, now).emitted[0];
      assert Decide(o, c, now).emitted == [e];
      PastTells(o.status, Types(evs));
      PastTellsMembers(o.status, Types(evs));
      assert Types(evs + [e]) == Types(evs) + [e.eventType];
      assert Types(evs + [e])[|evs|] == e.eventType;
    }
  }

  lemma {:induction false} CancellationsAreLawful(steps: seq<Step>, id: string)
    ensures var s := Exec(EMPTY_LEDGER, steps);
            id in s.orders ==> CancelledLawfully(s.orders[id], EventsOf(s.events, id))
  {
    if steps != [] {
      var init, step := steps[..|steps| - 1], steps[|steps| - 1];
      var s := Exec(EMPTY_LEDGER, init);
      CancellationsAreLawful(init, id);
      ExecKeepsConsistent(EMPTY_LEDGER, init);
      StepTouches(s, step, id);
      if Called(s, Advance(s, step), step, id) {
        DecisionIsLawful(s.orders[id], step.command, step.at, EventsOf(s.events, id));
      } else if Placed(s, Advance(s, step), step, id) {
        assert Types([EventFor(OrderCreated, step.at, id)]) == [OrderCreated];
      }
    }
  }

  // ----- what stays from the placing, and what the clock leaves -----

  /** The order carries the data it was placed with. */
  ghost predicate PlacedBy(o: Order, step: Step) {
    && step.Place? && o.id == step.id && o.checkoutId == step.checkoutId && o.createdAt == step.at
    && o.quoteHash == step.checkout.quoteHash
    && o.consumerId == step.checkout.consumerId && o.merchantId == step.checkout.merchantId
  }

  ghost predicate Dated(o: Order, evs: seq<DomainEvent>) {
    evs != [] && o.createdAt == evs[0].occurredAt && o.updatedAt == evs[|evs| - 1].occurredAt
  }

  lemma DecisionKeepsPlacement(o: Order, c: Command, now: int, evs: seq<DomainEvent>)
    requires Decide(o, c, now).Change? && evs != []
    ensures var d := Decide(o, c, now);
            && Dated(o, evs) ==> Dated(d.order, evs + d.emitted)
    ensures var p := Decide(o, c, now).order;
            && p.id == o.id && p.checkoutId == o.checkoutId && p.createdAt == o.createdAt
            && p.quoteHash == o.quoteHash && p.consumerId == o.consumerId && p.merchantId == o.merchantId
  {
  }

  ghost predicate Kept(steps: seq<Step>, s: Ledger, id: string) {
    id in s.orders ==>
      && (exists i :: 0 <= i < |steps| && PlacedBy(s.orders[id], steps[i]))
      && Dated(s.orders[id], EventsOf(s.events, id))
  }

  lemma {:induction false} PlacementStays(steps: seq<Step>, step: Step, o: Order, p: Order)
    requires exists i :: 0 <= i < |steps| && PlacedBy(o, steps[i])
    requires p.id == o.id && p.checkoutId == o.checkoutId && p.createdAt == o.createdAt
    requires p.quoteHash == o.quoteHash && p.consumerId == o.consumerId && p.merchantId == o.merchantId
    ensures exists i :: 0 <= i < |steps + [step]| && PlacedBy(p, (steps + [step])[i])
  {
    var i :| 0 <= i < |steps| && PlacedBy(o, steps[i]);
    assert PlacedBy(p, (steps + [step])[i]);
  }

  lemma {:induction false} StepKeepsPlacement(steps: seq<Step>, s: Ledger, step: Step, id: string)
    requires Consistent(s) && Kept(steps, s, id)
    ensures Kept(steps + [step], Advance(s, step), id)
  {
    var t := Advance(s, step);
    StepTouches(s, step, id);
    if Called(s, t, step, id) {
      DecisionKeepsPlacement(s.orders[id], step.command, step.at, EventsOf(s.events, id));
      PlacementStays(steps, step, s.orders[id], t.orders[id]);
    } else if Placed(s, t, step, id) {
      assert PlacedBy(t.orders[id], (steps + [step])[|steps|]);
    } else if id in s.orders {
      PlacementStays(steps, step, s.orders[id], t.orders[id]);
    }
  }

  lemma {:induction false} RunKeepsPlacement(steps: seq<Step>, id: string)
    requires steps != [] && Kept(steps[..|steps| - 1], Exec(EMPTY_LEDGER, steps[..|steps| - 1]), id)
    ensures Kept(steps, Exec(EMPTY_LEDGER, steps), id)
  {
    var init, step := steps[..|steps| - 1], steps[|steps| - 1];
    var s := Exec(EMPTY_LEDGER, init);
    assert init + [step] == steps && Exec(EMPTY_LEDGER, steps) == Advance(s, step);
    ExecKeepsConsistent(EMPTY_LEDGER, init);
    StepKeepsPlacement(init, s, step, id);
  }

  /** In every run each order still carries the data of the step that placed it, was created
      at the time of its first event and last updated at the time of its last. */
  lemma {:induction false} OrdersKeepTheirPlacement(steps: seq<Step>, id: string)
    ensures Kept(steps, Exec(EMPTY_LEDGER, steps), id)
  {
    if steps != [] {
      OrdersKeepTheirPlacement(steps[..|steps| - 1], id);
      RunKeepsPlacement(steps, id);
    }
  }

  // ----- what the timeline shows -----

  /** The status an entry shows: a request for cancellation as such, any other event as the
      status the order had reached with it. */
  ghost predicate ShowsReplay(shown: TimelineStatus, evs: seq<DomainEvent>, i: nat)
    requires i < |evs|
  {
    if evs[i].eventType == CancelRequested then shown == CancellationRequested
    else Replay(evs[..i + 1]).Some? && shown == Reached(Replay(evs[..i + 1]).value.status)
  }

  lemma {:induction false} ReplayReaches(evs: seq<DomainEvent>, i: nat)
    requires i < |evs| && evs[0].eventType == OrderCreated
    requires forall j :: 0 <= j < |evs| ==> EventStatus(evs[j].eventType).Some?
    ensures Replay(evs[..i + 1]).Some?
    ensures ShowsReplay(EventStatus(evs[i].eventType).value, evs, i)
  {
    assert evs[..i + 1][..i] == evs[..i];
    if i > 0 { ReplayReaches(evs, i - 1); }
  }

  lemma {:induction false} OwnEventsShow(log: seq<DomainEvent>, id: string)
    ensures forall j :: 0 <= j < |EventsOf(log, id)| ==> ToTimelineEntry(EventsOf(log, id)[j]).Some?
  {
    if log != [] { OwnEventsShow(log[..|log| - 1], id); }
  }

  lemma WordsBeginWithCreation(status: OrderStatus, w: seq<EventType>)
    requires WordFor(status, w)
    ensures w != [] && w[0] == OrderCreated
  {
    BackboneIs();
  }

  /** The entry shows the event's type, time, reason and canceller, and the status reached. */
  ghost predicate Shows(entry: TimelineEntry, id: string, evs: seq<DomainEvent>, i: nat)
    requires i < |evs|
  {
    && entry.orderId == id && entry.eventType == evs[i].eventType && entry.occurredAt == evs[i].occurredAt
    && ShowsReplay(entry.status, evs, i)
    && entry.reasonCode == evs[i].payload.reasonCode && entry.cancelledBy == evs[i].payload.cancelledBy
  }

  lemma EntryShows(s: Ledger, id: string, i: nat)
    requires id in s.orders && StoredAs(s, id) && i < |EventsOf(s.events, id)|
    ensures var t := ProjectAll(map[], s.events);
            id in t && i < |t[id]| && Shows(t[id][i], id, EventsOf(s.events, id), i)
  {
    var evs := EventsOf(s.events, id);
    WordsBeginWithCreation(s.orders[id].status, Types(evs));
    TimelineIsTheOrdersEvents(s.events, id);
    OwnEventsShow(s.events, id);
    assert Types(evs)[0] == evs[0].eventType;
    ReplayReaches(evs, i);
    OwnEventsAreOwn(s.events, id, i);
  }

  /** In every run the timeline of an order has one entry per event, in order: each shows the
      event's type and time, and the status the order had reached with it. */
  lemma {:induction false} TimelineShowsTheWholeStory(steps: seq<Step>, id: string, i: nat)
    requires id in Exec(EMPTY_LEDGER, steps).orders
    ensures var s := Exec(EMPTY_LEDGER, steps);
            var evs := EventsOf(s.events, id);
            && id in s.timelines && |s.timelines[id]| == |evs| > 0
            && (i < |evs| ==> Shows(s.timelines[id][i], id, evs, i))
  {
    var s := Exec(EMPTY_LEDGER, steps);
    ExecKeepsConsistent(EMPTY_LEDGER, steps);
    StoredAsTold(s, id);
    WordsBeginWithCreation(s.orders[id].status, Past(s, id));
    TimelineIsTheOrdersEvents(s.events, id);
    if i < |EventsOf(s.events, id)| { EntryShows(s, id, i); }
  }

  lemma {:induction false} OwnEventsAreOwn(log: seq<DomainEvent>, id: string, i: nat)
    requires i < |EventsOf(log, id)|
    ensures EventsOf(log, id)[i].payload.orderId == Some(id)
  {
    var init := log[..|log| - 1];
    if i < |EventsOf(init, id)| { OwnEventsAreOwn(init, id, i); }
  }

  /** The cancellation is the last event, with the reason and the canceller of the order. */
  lemma CancellationIsLast(o: Order, evs: seq<DomainEvent>)
    requires Recorded(o, evs) && o.status == Cancelled
    ensures evs != [] && evs[|evs| - 1].eventType == OrderCancelled
    ensures evs[|evs| - 1].payload.reasonCode == o.cancellationReason
    ensures evs[|evs| - 1].payload.cancelledBy == o.cancelledBy
  {
    WordsDoNotRepeat(o.status, Types(evs));
    assert Types(evs)[|evs| - 1] == evs[|evs| - 1].eventType;
    assert Replay(evs) == Fold(Replay(evs[..|evs| - 1]), evs[|evs| - 1]);
  }

  /** What the last entry tells of the order. */
  ghost predicate TellsTheEnd(last: TimelineEntry, o: Order) {
    && last.occurredAt == o.updatedAt
    && (o.status == Cancelled ==> last.reasonCode == o.cancellationReason && last.cancelledBy == o.cancelledBy)
  }

  lemma LastEntryTells(last: TimelineEntry, o: Order, evs: seq<DomainEvent>, id: string)
    requires Recorded(o, evs) && Dated(o, evs) && Shows(last, id, evs, |evs| - 1)
    ensures TellsTheEnd(last, o)
  {
    if o.status == Cancelled { CancellationIsLast(o, evs); }
  }

  lemma LastEntryOf(s: Ledger, id: string)
    requires id in s.orders && Consistent(s) && Dated(s.orders[id], EventsOf(s.events, id))
    ensures var t := s.timelines;
            id in t && t[id] != [] && TellsTheEnd(t[id][|t[id]| - 1], s.orders[id])
  {
    var evs := EventsOf(s.events, id);
    StoredAsTold(s, id);
    TimelineIsTheOrdersEvents(s.events, id);
    EntryShows(s, id, |evs| - 1);
    LastEntryTells(ProjectAll(map[], s.events)[id][|evs| - 1], s.orders[id], evs, id);
  }

  /** In every run the last entry of a timeline is of the order's last update, and of a
      cancelled order it tells why and by whom. */
  lemma {:induction false} TimelineTellsTheCancellation(steps: seq<Step>, id: string)
    requires id in Exec(EMPTY_LEDGER, steps).orders
    ensures var s := Exec(EMPTY_LEDGER, steps);
            && id in s.timelines && s.timelines[id] != []
            && TellsTheEnd(s.timelines[id][|s.timelines[id]| - 1], s.orders[id])
  {
    ExecKeepsConsistent(EMPTY_LEDGER, steps);
    OrdersKeepTheirPlacement(steps, id);
    LastEntryOf(Exec(EMPTY_LEDGER, steps), id);
  }
}
