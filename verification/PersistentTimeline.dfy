/** The timeline kept as keyed documents: a key never hides another entry, and the stored
    view is the in-memory timeline in time order. */
module PersistentTimeline {
  import opened Collections
  import opened Sorting
  import opened DomainEvents
  import opened OrderTimeline
  import opened OrderLifecycle
  import opened OrderHistory

  /** The parts of the key text `orderId:occurredAt:eventType`. */
  datatype TimelineKey = TimelineKey(orderId: string, occurredAt: int, eventType: EventType)

  type Documents = OrderedMap<TimelineKey, TimelineEntry>

  function KeyOf(e: TimelineEntry): TimelineKey {
    TimelineKey(e.orderId, e.occurredAt, e.eventType)
  }

  function PutEntry(docs: Documents, e: TimelineEntry): Documents {
    docs.Put(KeyOf(e), e)
  }

  function PutAll(docs: Documents, entries: seq<TimelineEntry>): Documents {
    if entries == [] then docs
    else PutEntry(PutAll(docs, entries[..|entries| - 1]), entries[|entries| - 1])
  }

  predicate ByTime(a: TimelineEntry, b: TimelineEntry) {
    a.occurredAt <= b.occurredAt
  }

  /** What the repository answers for an order: its documents, stably sorted by time. */
  function StoredView(docs: Documents, orderId: string): seq<TimelineEntry>
    requires docs.Valid()
  {
    SortBy(ByTime, Only(docs.Values(), orderId))
  }

  /** `base` is the inherited in-memory list, which this class fills and never reads. */
  class PersistentOrderTimelineRepository {
    var base: Timelines
    var documents: Documents

    constructor ()
      ensures base == map[] && documents == EmptyMap()
    {
      base, documents := map[], EmptyMap();
    }

    method Append(entry: TimelineEntry)
      modifies this
      ensures documents == PutEntry(old(documents), entry)
      ensures base == AppendEntry(old(base), entry)
    {
      base := AppendEntry(base, entry);
      documents := documents.Put(KeyOf(entry), entry);
    }

    method GetByOrderId(orderId: string) returns (entries: seq<TimelineEntry>)
      requires documents.Valid()
      ensures entries == StoredView(documents, orderId)
    {
      entries := SortBy(ByTime, Only(documents.Values(), orderId));
    }

    method Clear()
    {
    }

    method OrderCount() returns (count: nat)
      requires documents.Valid()
      ensures count == |set e | e in documents.Values() :: e.orderId|
    {
      var values := documents.Values();
      count := |set e | e in values :: e.orderId|;
    }
  }

  /** The projection of one event into this repository. */
  method ProjectEvent(event: DomainEvent, repository: PersistentOrderTimelineRepository)
    modifies repository
    ensures repository.documents == PutAll(old(repository.documents), AllEntries([event]))
    ensures repository.base == Project(old(repository.base), event)
  {
    assert [event][..0] == [];
    var entry := ToTimelineEntry(event);
    if entry.Some? {
      assert [entry.value][..0] == [];
      repository.Append(entry.value);
    }
  }

  /** The rebuild over this repository: nothing is cleared, every entry is written again. */
  method RebuildFromEventLog(bus: InMemoryEventBus, repository: PersistentOrderTimelineRepository)
    returns (entriesRebuilt: nat, ordersRebuilt: nat)
    requires repository.documents.Valid()
    modifies repository
    ensures repository.documents == PutAll(old(repository.documents), AllEntries(bus.events))
    ensures repository.documents.Valid()
    ensures repository.base == ProjectAll(old(repository.base), bus.events)
    ensures entriesRebuilt == |AllEntries(bus.events)|
    ensures ordersRebuilt == |set e | e in repository.documents.Values() :: e.orderId|
  {
    repository.Clear();
    entriesRebuilt := 0;
    var events := bus.events;
    for i := 0 to |events|
      invariant bus.events == events
      invariant repository.documents == PutAll(old(repository.documents), AllEntries(events[..i]))
      invariant repository.documents.Valid()
      invariant repository.base == ProjectAll(old(repository.base), events[..i])
      invariant entriesRebuilt == |AllEntries(events[..i])|
    {
      assert events[..i + 1][..i] == events[..i];
      var entry := ToTimelineEntry(events[i]);
      if entry.None? {
        continue;
      }
      assert AllEntries(events[..i + 1])[..|AllEntries(events[..i])|] == AllEntries(events[..i]);
      PutKeepsValid(repository.documents, KeyOf(entry.value), entry.value);
      repository.Append(entry.value);
      entriesRebuilt := entriesRebuilt + 1;
    }
    assert events[..|events|] == events;
    ordersRebuilt := repository.OrderCount();
  }

  /** When no order repeats an event type, every entry of the log gets its own document. */
  lemma {:induction false} DocumentsListTheEntries(log: seq<DomainEvent>)
    requires forall id :: Distinct(Types(EventsOf(log, id)))
    ensures var docs := PutAll(EmptyMap(), AllEntries(log));
            && docs.Valid() && docs.Values() == AllEntries(log)
            && (forall e :: e in AllEntries(log) ==> KeyOf(e) in docs.data && docs.data[KeyOf(e)] == e)
            && (forall k :: k in docs.data ==> k.eventType in Types(EventsOf(log, k.orderId)))
  {
    if log != [] {
      var init, last := log[..|log| - 1], log[|log| - 1];
      assert log == init + [last];
      forall id ensures Distinct(Types(EventsOf(init, id))) {
        OneEventMore(init, last, id);
      }
      DocumentsListTheEntries(init);
      if ToTimelineEntry(last).Some? {
        OneMoreDocument(init, last);
      }
      forall k | k in PutAll(EmptyMap(), AllEntries(log)).data
        ensures k.eventType in Types(EventsOf(log, k.orderId))
      {
        OneEventMore(init, last, k.orderId);
      }
    }
  }

  lemma OneEventMore(init: seq<DomainEvent>, last: DomainEvent, id: string)
    ensures Types(EventsOf(init + [last], id)) == Types(EventsOf(init, id)) +
              if ToTimelineEntry(last).Some? && last.payload.orderId == Some(id) then [last.eventType] else []
    ensures Distinct(Types(EventsOf(init + [last], id))) ==> Distinct(Types(EventsOf(init, id)))
  {
    assert (init + [last])[..|init|] == init;
    var evs := EventsOf(init, id);
    AppendEvent(evs, last);
    assert evs + [] == evs;
    var w := Types(EventsOf(init + [last], id));
    assert forall i :: 0 <= i < |evs| ==> w[i] == Types(evs)[i];
  }

  lemma LastOfDistinctIsNew<T>(s: seq<T>, x: T)
    requires Distinct(s + [x])
    ensures x !in s
  {
    forall i | 0 <= i < |s| ensures s[i] != x {
      assert (s + [x])[i] != (s + [x])[|s|];
    }
  }

  lemma {:induction false} OneMoreDocument(init: seq<DomainEvent>, last: DomainEvent)
    requires ToTimelineEntry(last).Some? && last.payload.orderId.Some?
    requires Distinct(Types(EventsOf(init + [last], last.payload.orderId.value)))
    requires var docs := PutAll(EmptyMap(), AllEntries(init));
             && docs.Valid() && docs.Values() == AllEntries(init)
             && (forall e :: e in AllEntries(init) ==> KeyOf(e) in docs.data && docs.data[KeyOf(e)] == e)
             && (forall k :: k in docs.data ==> k.eventType in Types(EventsOf(init, k.orderId)))
    ensures var docs := PutAll(EmptyMap(), AllEntries(init));
            var entry := ToTimelineEntry(last).value;
            && KeyOf(entry) !in docs.data
            && PutAll(EmptyMap(), AllEntries(init + [last])) == PutEntry(docs, entry)
            && PutEntry(docs, entry).Valid()
            && PutEntry(docs, entry).Values() == AllEntries(init + [last])
  {
    var docs := PutAll(EmptyMap(), AllEntries(init));
    var entry := ToTimelineEntry(last).value;
    OneEventMore(init, last, entry.orderId);
    LastOfDistinctIsNew(Types(EventsOf(init, entry.orderId)), last.eventType);
    assert (init + [last])[..|init|] == init;
    assert (AllEntries(init) + [entry])[..|AllEntries(init)|] == AllEntries(init);
    PutFreshAppends(docs, KeyOf(entry), entry);
  }

  lemma {:induction false} WritingAgainChangesNothing(docs: Documents, entries: seq<TimelineEntry>)
    requires forall e :: e in entries ==> KeyOf(e) in docs.data && docs.data[KeyOf(e)] == e
    ensures PutAll(docs, entries) == docs
  {
    if entries != [] {
      WritingAgainChangesNothing(docs, entries[..|entries| - 1]);
      assert entries[|entries| - 1] in entries;
    }
  }

  lemma ByTimeIsTotal()
    ensures TotalPreorder(ByTime)
  {
  }

  // ----- runs over this repository -----

  /** What the calls of a run write: each appends the entries of the events it publishes. */
  function DocumentsAfter(steps: seq<Step>): Documents {
    if steps == [] then EmptyMap()
    else
      var before := Exec(EMPTY_LEDGER, steps[..|steps| - 1]);
      PutAll(DocumentsAfter(steps[..|steps| - 1]), AllEntries(NewEvents(before, steps[|steps| - 1])))
  }

  /** The events a step publishes. */
  function NewEvents(s: Ledger, step: Step): (emitted: seq<DomainEvent>)
    ensures Advance(s, step).events == s.events + emitted
  {
    match step
    case Place(id, _, _, now) => if id in s.orders then [] else [EventFor(OrderCreated, now, id)]
    case Invoke(id, c, now) =>
      if id in s.orders && Decide(s.orders[id], c, now).Change? then Decide(s.orders[id], c, now).emitted else []
    case Foreign(e) => [e]
  }

  lemma {:induction false} PutAllConcat(docs: Documents, a: seq<TimelineEntry>, b: seq<TimelineEntry>)
    ensures PutAll(docs, a + b) == PutAll(PutAll(docs, a), b)
  {
    if b == [] {
      assert a + b == a;
    } else {
      assert (a + b)[..|a + b| - 1] == a + b[..|b| - 1];
      PutAllConcat(docs, a, b[..|b| - 1]);
    }
  }

  lemma {:induction false} AllEntriesConcat(a: seq<DomainEvent>, b: seq<DomainEvent>)
    ensures AllEntries(a + b) == AllEntries(a) + AllEntries(b)
  {
    if b == [] {
      assert a + b == a;
    } else {
      assert (a + b)[..|a + b| - 1] == a + b[..|b| - 1];
      AllEntriesConcat(a, b[..|b| - 1]);
    }
  }

  /** Step by step the documents are those of writing the whole log at once. */
  lemma {:induction false} DocumentsFollowTheLog(steps: seq<Step>)
    ensures DocumentsAfter(steps) == PutAll(EmptyMap(), AllEntries(Exec(EMPTY_LEDGER, steps).events))
  {
    if steps != [] {
      var init, step := steps[..|steps| - 1], steps[|steps| - 1];
      var s := Exec(EMPTY_LEDGER, init);
      DocumentsFollowTheLog(init);
      AllEntriesConcat(s.events, NewEvents(s, step));
      PutAllConcat(EmptyMap(), AllEntries(s.events), AllEntries(NewEvents(s, step)));
    }
  }

  function TimelineOf(s: Ledger, id: string): seq<TimelineEntry> {
    if id in s.timelines then s.timelines[id] else []
  }

  /** In every run no document is overwritten by another entry, the stored view of an order is
      its in-memory timeline stably sorted by time, and writing the whole log again changes
      nothing. */
  lemma StoredViewIsTheSortedTimeline(steps: seq<Step>, id: string)
    ensures var s, docs := Exec(EMPTY_LEDGER, steps), DocumentsAfter(steps);
            && docs.Valid() && docs.Values() == AllEntries(s.events)
            && TimelineOf(s, id) == Only(AllEntries(s.events), id)
            && StoredView(docs, id) == SortBy(ByTime, TimelineOf(s, id))
            && PutAll(docs, AllEntries(s.events)) == docs
  {
    var s := Exec(EMPTY_LEDGER, steps);
    DocumentsFollowTheLog(steps);
    forall other ensures Distinct(Types(EventsOf(s.events, other))) {
      EveryRunIsRecorded(steps, other);
    }
    DocumentsListTheEntries(s.events);
    ExecKeepsConsistent(EMPTY_LEDGER, steps);
    TimelineIsFilteredEntries(s.events, id);
    WritingAgainChangesNothing(DocumentsAfter(steps), AllEntries(s.events));
  }

  // ----- when the two repositories answer alike -----

  /** The step places the order, or is a call that changes it. */
  predicate Changes(s: Ledger, step: Step, id: string) {
    match step
    case Place(other, _, _, _) => other == id && id !in s.orders
    case Invoke(other, c, now) => other == id && id in s.orders && Decide(s.orders[id], c, now).Change?
    case Foreign(_) => false
  }

  /** The clock readings of the steps that changed an order, in run order. */
  function ChangeTimes(steps: seq<Step>, id: string): seq<int> {
    if steps == [] then []
    else
      var init, step := steps[..|steps| - 1], steps[|steps| - 1];
      ChangeTimes(init, id) + if Changes(Exec(EMPTY_LEDGER, init), step, id) then [step.at] else []
  }

  predicate Nondecreasing(times: seq<int>) {
    forall i, j :: 0 <= i < j < |times| ==> times[i] <= times[j]
  }

  lemma {:induction false} OnlyConcat(a: seq<TimelineEntry>, b: seq<TimelineEntry>, id: string)
    ensures Only(a + b, id) == Only(a, id) + Only(b, id)
  {
    if b == [] {
      assert a + b == a;
    } else {
      assert (a + b)[..|a + b| - 1] == a + b[..|b| - 1];
      OnlyConcat(a, b[..|b| - 1], id);
    }
  }

  /** Events that tell of one order at one time. */
  ghost predicate TellOf(emitted: seq<DomainEvent>, owner: string, now: int) {
    forall e :: e in emitted ==> ToTimelineEntry(e).Some? && e.payload.orderId == Some(owner) && e.occurredAt == now
  }

  lemma {:induction false} EntriesOfOwner(emitted: seq<DomainEvent>, owner: string, now: int, id: string)
    requires TellOf(emitted, owner, now)
    ensures var added := Only(AllEntries(emitted), id);
            && (added != [] <==> emitted != [] && owner == id)
            && (forall e :: e in added ==> e.occurredAt == now)
  {
    if emitted != [] {
      var n := |emitted| - 1;
      EntriesOfOwner(emitted[..n], owner, now, id);
      assert emitted[n] in emitted;
      OnlyConcat(AllEntries(emitted[..n]), [ToTimelineEntry(emitted[n]).value], id);
    }
  }

  lemma DecisionTells(o: Order, c: Command, now: int)
    requires Decide(o, c, now).Change?
    ensures TellOf(Decide(o, c, now).emitted, o.id, now) && Decide(o, c, now).emitted != []
  {
  }

  /** What a step publishes for the timelines tells of its own order at its own time. */
  lemma StepTells(s: Ledger, step: Step, id: string)
    requires !step.Foreign? && Told(s, step.id)
    ensures TellOf(NewEvents(s, step), step.id, step.at)
    ensures Changes(s, step, id) <==> step.id == id && NewEvents(s, step) != []
  {
    match step
    case Place(id, _, _, now) => assert TellOf([EventFor(OrderCreated, now, id)], id, now);
    case Invoke(id, c, now) => if NewEvents(s, step) != [] { DecisionTells(s.orders[id], c, now); }
  }

  /** What a step adds to the timeline of an order: nothing, or entries of its own time. */
  lemma StepAddsEntries(s: Ledger, step: Step, id: string) returns (added: seq<TimelineEntry>)
    requires Consistent(s)
    ensures Only(AllEntries(Advance(s, step).events), id) == Only(AllEntries(s.events), id) + added
    ensures added != [] <==> Changes(s, step, id)
    ensures added != [] ==> forall e :: e in added ==> e.occurredAt == step.at
  {
    var emitted := NewEvents(s, step);
    added := Only(AllEntries(emitted), id);
    AllEntriesConcat(s.events, emitted);
    OnlyConcat(AllEntries(s.events), AllEntries(emitted), id);
    if step.Foreign? {
      assert emitted[..0] == [];
    } else {
      assert Told(s, step.id);
      StepTells(s, step, id);
      EntriesOfOwner(emitted, step.id, step.at, id);
    }
  }

  /** The times of entries and of changes tell the same story. */
  ghost predicate SameOrder(entries: seq<TimelineEntry>, times: seq<int>) {
    && (entries == [] <==> times == [])
    && (entries != [] ==> entries[|entries| - 1].occurredAt == times[|times| - 1])
    && (SortedBy(ByTime, entries) <==> Nondecreasing(times))
  }

  lemma SortedOneMore(times: seq<int>, now: int)
    ensures Nondecreasing(times + [now]) <==> Nondecreasing(times) && (times != [] ==> times[|times| - 1] <= now)
  {
    var longer := times + [now];
    if Nondecreasing(longer) {
      assert forall i :: 0 <= i < |times| ==> times[i] == longer[i];
      assert longer[|times|] == now;
    }
  }

  lemma SortedManyMore(entries: seq<TimelineEntry>, added: seq<TimelineEntry>, now: int)
    requires added != [] && forall e :: e in added ==> e.occurredAt == now
    ensures SortedBy(ByTime, entries + added) <==>
              SortedBy(ByTime, entries) && (entries != [] ==> entries[|entries| - 1].occurredAt <= now)
  {
    var longer := entries + added;
    if SortedBy(ByTime, longer) {
      assert forall i :: 0 <= i < |entries| ==> entries[i] == longer[i];
      assert longer[|entries|] == added[0];
    }
    if SortedBy(ByTime, entries) && (entries != [] ==> entries[|entries| - 1].occurredAt <= now) {
      forall i | 0 <= i < |entries| ensures entries[i].occurredAt <= now {
        if i < |entries| - 1 { assert ByTime(entries[i], entries[|entries| - 1]); }
      }
      forall i | |entries| <= i < |longer| ensures longer[i].occurredAt == now {
        assert longer[i] == added[i - |entries|];
      }
    }
  }

  lemma SameOrderOneMore(entries: seq<TimelineEntry>, times: seq<int>, added: seq<TimelineEntry>, now: int)
    requires SameOrder(entries, times)
    requires added != [] && forall e :: e in added ==> e.occurredAt == now
    ensures SameOrder(entries + added, times + [now])
  {
    SortedManyMore(entries, added, now);
    SortedOneMore(times, now);
    assert added[|added| - 1] in added;
  }

  lemma {:induction false} EntriesFollowChanges(steps: seq<Step>, id: string)
    ensures SameOrder(Only(AllEntries(Exec(EMPTY_LEDGER, steps).events), id), ChangeTimes(steps, id))
  {
    if steps != [] {
      var init, step := steps[..|steps| - 1], steps[|steps| - 1];
      var s := Exec(EMPTY_LEDGER, init);
      EntriesFollowChanges(init, id);
      ExecKeepsConsistent(EMPTY_LEDGER, init);
      var added := StepAddsEntries(s, step, id);
      var entries, times := Only(AllEntries(s.events), id), ChangeTimes(init, id);
      if added == [] {
        assert entries + added == entries && times + [] == times;
      } else {
        SameOrderOneMore(entries, times, added, step.at);
      }
    }
  }

  /** The two repositories answer alike for an order exactly when the clock never ran
      backwards between two of the calls that changed it. */
  lemma PersistentViewAgrees(steps: seq<Step>, id: string)
    ensures var s, docs := Exec(EMPTY_LEDGER, steps), DocumentsAfter(steps);
            && docs.Valid()
            && (StoredView(docs, id) == TimelineOf(s, id) <==> Nondecreasing(ChangeTimes(steps, id)))
  {
    StoredViewIsTheSortedTimeline(steps, id);
    EntriesFollowChanges(steps, id);
    ByTimeIsTotal();
    SortByIsIdentityIffSorted(ByTime, TimelineOf(Exec(EMPTY_LEDGER, steps), id));
  }

  lemma {:induction false} ChangesHappenInSteps(steps: seq<Step>, id: string)
    requires ClockIsSteady(steps)
    ensures Nondecreasing(ChangeTimes(steps, id))
    ensures forall t :: t in ChangeTimes(steps, id) ==>
              exists i :: 0 <= i < |steps| && !steps[i].Foreign? && steps[i].at == t
  {
    if steps != [] {
      var n := |steps| - 1;
      ChangesHappenInSteps(steps[..n], id);
      forall t | t in ChangeTimes(steps[..n], id)
        ensures exists i :: 0 <= i < n && !steps[i].Foreign? && steps[i].at == t
      {
        var i :| 0 <= i < n && !steps[..n][i].Foreign? && steps[..n][i].at == t;
        assert steps[i] == steps[..n][i];
      }
      if Changes(Exec(EMPTY_LEDGER, steps[..n]), steps[n], id) {
        var times := ChangeTimes(steps[..n], id);
        if times != [] { assert times[|times| - 1] in times; }
        SortedOneMore(times, steps[n].at);
      }
    }
  }

  ghost predicate ClockIsSteady(steps: seq<Step>) {
    forall i, j :: 0 <= i < j < |steps| && !steps[i].Foreign? && !steps[j].Foreign? ==> steps[i].at <= steps[j].at
  }

  /** With a clock that never runs backwards the two repositories answer alike. */
  lemma SteadyClockMakesThemEqual(steps: seq<Step>, id: string)
    requires ClockIsSteady(steps)
    ensures var s, docs := Exec(EMPTY_LEDGER, steps), DocumentsAfter(steps);
            docs.Valid() && StoredView(docs, id) == TimelineOf(s, id)
  {
    PersistentViewAgrees(steps, id);
    ChangesHappenInSteps(steps, id);
  }

  lemma TwoChanges(a: Step, b: Step, id: string)
    requires Changes(EMPTY_LEDGER, a, id) && Changes(Advance(EMPTY_LEDGER, a), b, id)
    ensures ChangeTimes([a, b], id) == [a.at, b.at]
  {
    assert [a, b][..1] == [a] && [a][..0] == [];
    assert Exec(EMPTY_LEDGER, [a]) == Advance(Exec(EMPTY_LEDGER, []), a);
    assert ChangeTimes([a], id) == ChangeTimes([], id) + [a.at];
    assert ChangeTimes([a, b], id) == ChangeTimes([a], id) + [b.at];
  }

  /** A clock set back between placing and accepting an order. */
  lemma ClockSetBackTellsThemApart(id: string, checkout: Checkout)
    ensures var steps := [Place(id, "", checkout, 5), Invoke(id, MerchantAccept, 3)];
            && DocumentsAfter(steps).Valid()
            && StoredView(DocumentsAfter(steps), id) != TimelineOf(Exec(EMPTY_LEDGER, steps), id)
  {
    var place, accept := Place(id, "", checkout, 5), Invoke(id, MerchantAccept, 3);
    TwoChanges(place, accept, id);
    PersistentViewAgrees([place, accept], id);
    var times := ChangeTimes([place, accept], id);
    assert times[0] == 5 && times[1] == 3;
  }

  // ----- the key text -----

  /** The text of a key, for a rendering of timestamps of fixed width and type names. */
  function KeyText(orderId: string, occurredAt: string, eventType: string): string {
    orderId + ":" + occurredAt + ":" + eventType
  }

  /** Equal key texts have equal parts, whatever the order identifiers contain. */
  lemma KeyTextIsInjective(o1: string, t1: string, e1: string, o2: string, t2: string, e2: string)
    requires |t1| == |t2| && ':' !in e1 && ':' !in e2
    requires KeyText(o1, t1, e1) == KeyText(o2, t2, e2)
    ensures o1 == o2 && t1 == t2 && e1 == e2
  {
    var k := KeyText(o1, t1, e1);
    var c1, c2 := |o1| + 1 + |t1|, |o2| + 1 + |t2|;
    assert k[c1] == ':' && k[c2] == ':';
    assert k[c1 + 1..] == e1 && k[c2 + 1..] == e2;
    assert forall i :: c1 < i < |k| ==> k[i] == e1[i - c1 - 1];
    assert forall i :: c2 < i < |k| ==> k[i] == e2[i - c2 - 1];
    assert c1 == c2;
    assert k[..|o1|] == o1 && k[..|o2|] == o2;
    assert k[|o1| + 1..c1] == t1 && k[|o2| + 1..c2] == t2;
  }
}
