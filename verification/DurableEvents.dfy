/** The in-memory document store: namespaces of insertion-ordered documents. */
module DocumentStore {
  import opened Collections

  class InMemoryDocumentStore<V> {
    var namespaces: map<string, OrderedMap<string, V>>

    constructor ()
      ensures namespaces == map[]
    {
      namespaces := map[];
    }

    /** The documents of a namespace; a namespace never written to is empty. */
    ghost function Documents(namespace: string): OrderedMap<string, V>
      reads this
    {
      if namespace in namespaces then namespaces[namespace] else EmptyMap()
    }

    method Put(namespace: string, key: string, value: V)
      modifies this
      ensures Documents(namespace) == old(Documents(namespace)).Put(key, value)
      ensures forall other :: other != namespace ==> Documents(other) == old(Documents(other))
    {
      var entries := if namespace in namespaces then namespaces[namespace] else EmptyMap();
      namespaces := namespaces[namespace := entries.Put(key, value)];
    }

    method Get(namespace: string, key: string) returns (found: Option<V>)
      ensures found == Documents(namespace).Get(key)
    {
      if namespace !in namespaces {
        return None;
      }
      found := namespaces[namespace].Get(key);
    }

    method List(namespace: string) returns (values: seq<V>)
      requires Documents(namespace).Valid()
      ensures values == Documents(namespace).Values()
    {
      if namespace !in namespaces {
        return [];
      }
      values := namespaces[namespace].Values();
    }

    method ListEntries(namespace: string) returns (keys: seq<string>, values: seq<V>)
      requires Documents(namespace).Valid()
      ensures keys == Documents(namespace).keys && values == Documents(namespace).Values()
    {
      if namespace !in namespaces {
        return [], [];
      }
      keys, values := namespaces[namespace].keys, namespaces[namespace].Values();
    }
  }
}

/** The durable event bus: hydration, queued publishes and the outbox. */
module DurableEvents {
  import opened Collections
  import opened DomainEvents
  import opened DocumentStore

  /** The outbox outlives the process; the rest is the state of one bus. `pending` are the
      publishes queued behind hydration, oldest first. */
  datatype Bus = Bus(
    outbox: OrderedMap<string, DomainEvent>,
    events: seq<DomainEvent>, hydrated: bool, pending: seq<DomainEvent>)

  datatype BusStep =
    | Publish(event: DomainEvent)
    | Hydrate
    | Deliver(key: string)
    | Restart

  /** Deliver runs the oldest queued publish under a fresh random key, once hydration is
      done. A step that is not enabled changes nothing. */
  function Take(b: Bus, step: BusStep): Bus
    requires b.outbox.Valid()
  {
    match step
    case Publish(e) => b.(pending := b.pending + [e])
    case Hydrate => if b.hydrated then b else b.(events := b.events + b.outbox.Values(), hydrated := true)
    case Deliver(key) =>
      if !b.hydrated || b.pending == [] || key in b.outbox.data then b
      else b.(outbox := b.outbox.Put(key, b.pending[0]), events := b.events + [b.pending[0]], pending := b.pending[1..])
    case Restart => Bus(b.outbox, [], false, [])
  }

  function Fresh(outbox: OrderedMap<string, DomainEvent>): Bus {
    Bus(outbox, [], false, [])
  }

  /** What a bus knows is what its outbox holds. */
  ghost predicate Mirrored(b: Bus) {
    b.outbox.Valid() && b.events == if b.hydrated then b.outbox.Values() else []
  }

  lemma TakeKeepsMirrored(b: Bus, step: BusStep)
    requires Mirrored(b)
    ensures Mirrored(Take(b, step))
    ensures step == Restart || Take(b, step).outbox.Values() + Take(b, step).pending ==
              b.outbox.Values() + b.pending + if step.Publish? then [step.event] else []
  {
    if step.Deliver? && b.hydrated && b.pending != [] && step.key !in b.outbox.data {
      PutFreshAppends(b.outbox, step.key, b.pending[0]);
      assert b.pending == [b.pending[0]] + b.pending[1..];
    }
  }

  /** Runs keep Mirrored, which every further step needs. */
  ghost function TakeAll(b: Bus, steps: seq<BusStep>): (r: Bus)
    requires Mirrored(b)
    ensures Mirrored(r)
  {
    if steps == [] then b
    else
      var before := TakeAll(b, steps[..|steps| - 1]);
      TakeKeepsMirrored(before, steps[|steps| - 1]);
      Take(before, steps[|steps| - 1])
  }

  function PublishedBy(steps: seq<BusStep>): seq<DomainEvent> {
    if steps == [] then []
    else PublishedBy(steps[..|steps| - 1]) +
         if steps[|steps| - 1].Publish? then [steps[|steps| - 1].event] else []
  }

  /** Stored events then queued ones. */
  function InOrder(b: Bus): seq<DomainEvent>
    requires b.outbox.Valid()
  {
    b.outbox.Values() + b.pending
  }

  lemma TakeKeepsOrder(b: Bus, step: BusStep)
    requires Mirrored(b) && step != Restart
    ensures Mirrored(Take(b, step))
    ensures InOrder(Take(b, step)) == InOrder(b) + if step.Publish? then [step.event] else []
  {
    TakeKeepsMirrored(b, step);
    if step.Publish? {
      assert b.outbox.Values() + (b.pending + [step.event]) == InOrder(b) + [step.event];
    }
  }

  lemma {:induction false} OrderIsKept(b: Bus, steps: seq<BusStep>)
    requires Mirrored(b) && Restart !in steps
    ensures InOrder(TakeAll(b, steps)) == InOrder(b) + PublishedBy(steps)
  {
    if steps == [] {
      assert InOrder(b) + [] == InOrder(b);
    } else {
      var n := |steps| - 1;
      OrderIsKept(b, steps[..n]);
      TakeKeepsOrder(TakeAll(b, steps[..n]), steps[n]);
    }
  }

  /** However publishes, hydration and deliveries interleave, nothing is lost, duplicated or
      reordered: stored events then queued ones are the events found at start followed by the
      published ones, in publish order. */
  lemma PublishOrderIsKept(b: Bus, steps: seq<BusStep>)
    requires Mirrored(b) && b.pending == [] && Restart !in steps
    ensures var r := TakeAll(b, steps);
            && r.outbox.Values() + r.pending == b.outbox.Values() + PublishedBy(steps)
            && (r.hydrated && r.pending == [] ==> r.events == b.outbox.Values() + PublishedBy(steps))
  {
    OrderIsKept(b, steps);
    var r := TakeAll(b, steps);
    assert InOrder(b) == b.outbox.Values();
    if r.pending == [] { assert InOrder(r) == r.outbox.Values(); }
  }

  /** After any run, restarts included, a new bus over the same outbox hydrates to exactly the
      stored events, which are the events the old bus knew if it had hydrated. */
  lemma RestartHydratesToTheSameEvents(b: Bus, steps: seq<BusStep>)
    requires Mirrored(b)
    ensures var r := TakeAll(b, steps);
            var again := TakeAll(r, [Restart, Hydrate]);
            && again.events == r.outbox.Values()
            && (r.hydrated ==> again.events == r.events)
  {
    var r := TakeAll(b, steps);
    var two: seq<BusStep> := [Restart, Hydrate];
    assert two[..1] == [Restart] && two[..1][..0] == [];
    assert TakeAll(r, two[..1]) == Take(TakeAll(r, []), Restart);
    assert [] + r.outbox.Values() == r.outbox.Values();
  }

  class DurableEventBus {
    const store: InMemoryDocumentStore<DomainEvent>
    const outboxNamespace: string
    var events: seq<DomainEvent>
    var hydrated: bool
    var pendingPublishes: seq<DomainEvent>

    ghost function State(): Bus
      reads this, store
    {
      Bus(store.Documents(outboxNamespace), events, hydrated, pendingPublishes)
    }

    constructor (store: InMemoryDocumentStore<DomainEvent>, outboxNamespace: string)
      ensures this.store == store && this.outboxNamespace == outboxNamespace
      ensures State() == Fresh(store.Documents(outboxNamespace))
    {
      this.store, this.outboxNamespace := store, outboxNamespace;
      events, hydrated, pendingPublishes := [], false, [];
    }

    /** The hydration task, run once. */
    method HydrateFromOutbox()
      requires State().outbox.Valid() && !hydrated
      modifies this
      ensures State() == Take(old(State()), Hydrate)
    {
      var persisted := store.List(outboxNamespace);
      ghost var before := events;
      for i := 0 to |persisted|
        invariant events == before + persisted[..i] && !hydrated && pendingPublishes == old(pendingPublishes)
      {
        events := events + [persisted[i]];
      }
      hydrated := true;
    }

    /** Only queues the work; nothing is visible before hydration. */
    method PublishLater(event: DomainEvent)
      requires State().outbox.Valid()
      modifies this
      ensures State() == Take(old(State()), Publish(event))
    {
      pendingPublishes := pendingPublishes + [event];
    }

    /** One queued publish task; `key` is the random document key. */
    method RunPublishTask(key: string)
      requires State().outbox.Valid() && hydrated && pendingPublishes != [] && key !in State().outbox.data
      modifies this, store
      ensures State() == Take(old(State()), Deliver(key))
    {
      var event := pendingPublishes[0];
      events := events + [event];
      store.Put(outboxNamespace, key, event);
      pendingPublishes := pendingPublishes[1..];
    }

    /** Waits for hydration and every queued publish. */
    method Flush(keys: seq<string>)
      requires Mirrored(State())
      requires |keys| == |pendingPublishes| && Distinct(keys) && forall k :: k in keys ==> k !in State().outbox.data
      modifies this, store
      ensures Mirrored(State()) && hydrated && pendingPublishes == []
      ensures events == old(State().outbox.Values()) + old(pendingPublishes)
      ensures State().outbox.Values() == events
    {
      if !hydrated {
        TakeKeepsMirrored(State(), Hydrate);
        HydrateFromOutbox();
      }
      ghost var all := State().outbox.Values() + pendingPublishes;
      ghost var queued := |pendingPublishes|;
      var next := 0;
      while pendingPublishes != []
        invariant Mirrored(State()) && hydrated && next + |pendingPublishes| == queued == |keys|
        invariant State().outbox.Values() + pendingPublishes == all
        invariant forall i :: next <= i < |keys| ==> keys[i] !in State().outbox.data
        decreases |pendingPublishes|
      {
        TakeKeepsMirrored(State(), Deliver(keys[next]));
        RunPublishTask(keys[next]);
        next := next + 1;
      }
    }
  }
}
