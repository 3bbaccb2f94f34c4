/** The hash-chained compliance log: appending, verifying, and what tampering implies. */
module ComplianceChain {
  import opened Collections
  import opened Sorting

  /** A JSON value; the fields of an object keep their order. */
  datatype Json =
    | Null | Boolean(b: bool) | Numeral(n: real) | Text(text: string)
    | List(items: seq<Json>) | Object(fields: seq<(string, Json)>)

  type Metadata = seq<(string, Json)>

  /** The hashed fields of an event, the hash of its predecessor among them. */
  datatype Content = Content(
    auditEventId: string, actionType: string, actorId: string, targetType: string, targetId: string,
    reasonCode: string, metadata: Metadata, timestamp: int, previousHash: string)

  datatype AuditEvent = AuditEvent(content: Content, hash: string)

  datatype AuditInput = AuditInput(
    actionType: string, actorId: string, targetType: string, targetId: string,
    reasonCode: string, metadata: Metadata)

  type Hasher = Content -> string

  const GENESIS := "GENESIS"

  /** The hash the next event must name as its predecessor. */
  function Head(log: seq<AuditEvent>): string {
    if log == [] then GENESIS else log[|log| - 1].hash
  }

  function Entry(h: Hasher, log: seq<AuditEvent>, input: AuditInput, id: string, now: int): AuditEvent {
    var c := Content(id, input.actionType, input.actorId, input.targetType, input.targetId,
                     input.reasonCode, input.metadata, now, Head(log));
    AuditEvent(c, h(c))
  }

  /** Every event carries the hash of its own content and the hash of the event before it. */
  ghost predicate Chained(h: Hasher, log: seq<AuditEvent>) {
    forall i :: 0 <= i < |log| ==>
      log[i].content.previousHash == Head(log[..i]) && log[i].hash == h(log[i].content)
  }

  /** A pair that breaks the hash: two contents with one digest, or a digest "GENESIS". */
  ghost predicate Breaks(h: Hasher, x: Content, y: Content) {
    (x != y && h(x) == h(y)) || h(x) == GENESIS
  }

  lemma LastLink(h: Hasher, log: seq<AuditEvent>)
    requires Chained(h, log) && log != []
    ensures var n := |log| - 1;
            && log[n].hash == h(log[n].content) && log[n].content.previousHash == Head(log[..n])
            && Chained(h, log[..n]) && log == log[..n] + [log[n]]
  {
    ChainedPrefix(h, log, |log| - 1);
  }

  /** Two chained logs with the same final hash that differ anywhere give a hash collision. */
  lemma {:induction false} DifferenceGivesCollision(h: Hasher, a: seq<AuditEvent>, b: seq<AuditEvent>)
    returns (x: Content, y: Content)
    requires Chained(h, a) && Chained(h, b) && Head(a) == Head(b) && a != b
    ensures Breaks(h, x, y)
    decreases |a|
  {
    if a == [] {
      LastLink(h, b);
      x, y := b[|b| - 1].content, b[|b| - 1].content;
    } else if b == [] {
      LastLink(h, a);
      x, y := a[|a| - 1].content, a[|a| - 1].content;
    } else {
      LastLink(h, a);
      LastLink(h, b);
      x, y := a[|a| - 1].content, b[|b| - 1].content;
      if x == y {
        assert a[|a| - 1] == b[|b| - 1];
        x, y := DifferenceGivesCollision(h, a[..|a| - 1], b[..|b| - 1]);
      }
    }
  }

  /** For a collision-free hash, a log is the one the chain was built for exactly when it
      verifies with the same final hash: no change, reordering, insertion or removal before
      the last event goes unnoticed. */
  lemma TamperingIsEvident(h: Hasher, a: seq<AuditEvent>, b: seq<AuditEvent>)
    requires forall x, y :: !Breaks(h, x, y)
    requires Chained(h, a)
    ensures a == b <==> Chained(h, b) && Head(b) == Head(a)
  {
    if a != b && Chained(h, b) && Head(b) == Head(a) {
      var x, y := DifferenceGivesCollision(h, a, b);
    }
  }

  lemma ChainedPrefix(h: Hasher, log: seq<AuditEvent>, n: nat)
    requires Chained(h, log) && n <= |log|
    ensures Chained(h, log[..n])
  {
    forall i | 0 <= i < n ensures log[..n][i].content.previousHash == Head(log[..n][..i]) {
      assert log[..n][..i] == log[..i];
    }
  }

  /** Cutting events off the end is not evident, whatever else is done to a log that keeps some
      hash of the chain at its end is: among the logs that end in a hash of the chain, or are
      empty, exactly the prefixes of the chain verify. */
  lemma OnlyPrefixesPass(h: Hasher, a: seq<AuditEvent>, b: seq<AuditEvent>)
    requires forall x, y :: !Breaks(h, x, y)
    requires Chained(h, a)
    requires Head(b) == GENESIS || exists i :: 0 <= i < |a| && a[i].hash == Head(b)
    ensures Chained(h, b) <==> exists n :: 0 <= n <= |a| && b == a[..n]
  {
    if Chained(h, b) {
      var n := 0;
      if Head(b) != GENESIS {
        var i :| 0 <= i < |a| && a[i].hash == Head(b);
        n := i + 1;
        assert a[..n][|a[..n]| - 1] == a[i];
      }
      ChainedPrefix(h, a, n);
      TamperingIsEvident(h, a[..n], b);
    }
    if n :| 0 <= n <= |a| && b == a[..n] { ChainedPrefix(h, a, n); }
  }

  lemma AppendKeepsChained(h: Hasher, log: seq<AuditEvent>, input: AuditInput, id: string, now: int)
    requires Chained(h, log)
    ensures Chained(h, log + [Entry(h, log, input, id, now)])
  {
    var longer := log + [Entry(h, log, input, id, now)];
    forall i | 0 <= i < |longer| ensures longer[i].content.previousHash == Head(longer[..i]) {
      assert longer[..i] == log[..i];
      assert log[..|log|] == log;
    }
  }

  /** How often an action type occurs. */
  function Occurrences(log: seq<AuditEvent>, action: string): nat {
    if log == [] then 0
    else Occurrences(log[..|log| - 1], action) + if log[|log| - 1].content.actionType == action then 1 else 0
  }

  class InMemoryComplianceAuditRepository {
    var events: seq<AuditEvent>

    constructor ()
      ensures events == []
    {
      events := [];
    }

    method Append(event: AuditEvent)
      modifies this
      ensures events == old(events) + [event]
    {
      events := events + [event];
    }

    method Latest() returns (r: Option<AuditEvent>)
      ensures r == if events == [] then None else Some(events[|events| - 1])
    {
      if |events| == 0 {
        return None;
      }
      return Some(events[|events| - 1]);
    }
  }

  // ----- the report -----

  /** The properties every plain JavaScript object inherits. */
  const INHERITED: set<string> :=
    {"constructor", "hasOwnProperty", "isPrototypeOf", "propertyIsEnumerable", "toLocaleString", "toString", "valueOf",
     "__proto__", "__defineGetter__", "__defineSetter__", "__lookupGetter__", "__lookupSetter__"}

  /** A counter, or the text of an inherited property followed by a "1" per event. */
  datatype Tally = Count(n: int) | Joined(inherited: string, ones: nat)

  type Tallies = OrderedMap<string, Tally>

  /** Adding one under a name on a plain object that starts empty. Reading an absent name finds
      the inherited property, and adding a number to that joins texts; assigning a text to
      `__proto__` is ignored. */
  function OneMore(counts: Tallies, action: string): Tallies {
    if action == "__proto__" then counts
    else
      counts.Put(action, match counts.Get(action)
                         case Some(Count(n)) => Count(n + 1)
                         case Some(Joined(p, ones)) => Joined(p, ones + 1)
                         case None => if action in INHERITED then Joined(action, 1) else Count(1))
  }

  function Counted(log: seq<AuditEvent>): Tallies {
    if log == [] then EmptyMap()
    else OneMore(Counted(log[..|log| - 1]), log[|log| - 1].content.actionType)
  }

  /** What is found under an action type. */
  function Found(log: seq<AuditEvent>, action: string): Option<Tally> {
    var n := Occurrences(log, action);
    if n == 0 || action == "__proto__" then None
    else if action in INHERITED then Some(Joined(action, n))
    else Some(Count(n))
  }

  function CountOf(t: Tally): int {
    if t.Count? then t.n else 0
  }

  function TotalOf(counts: Tallies): int
    requires counts.Valid()
  {
    Sum(Map(CountOf, counts.Values()))
  }

  /** The events whose action type names an inherited property. */
  function Misnamed(log: seq<AuditEvent>): nat {
    if log == [] then 0
    else Misnamed(log[..|log| - 1]) + if log[|log| - 1].content.actionType in INHERITED then 1 else 0
  }

  lemma TotalReplaced(counts: Tallies, name: string, tally: Tally)
    requires counts.Valid() && name in counts.data
    ensures counts.Put(name, tally).Valid()
    ensures TotalOf(counts.Put(name, tally)) == TotalOf(counts) - CountOf(counts.data[name]) + CountOf(tally)
  {
    var i :| 0 <= i < |counts.keys| && counts.keys[i] == name;
    var values := counts.Values();
    PutExistingReplaces(counts, i, tally);
    assert Map(CountOf, values[i := tally]) == Map(CountOf, values)[i := CountOf(tally)];
    SumReplace(Map(CountOf, values), i, CountOf(tally));
  }

  lemma TotalAppended(counts: Tallies, name: string, tally: Tally)
    requires counts.Valid() && name !in counts.data
    ensures counts.Put(name, tally).Valid()
    ensures TotalOf(counts.Put(name, tally)) == TotalOf(counts) + CountOf(tally)
  {
    var values := counts.Values();
    PutFreshAppends(counts, name, tally);
    assert Map(CountOf, values + [tally]) == Map(CountOf, values) + [CountOf(tally)];
    SumAppend(Map(CountOf, values), CountOf(tally));
  }

  /** Counters stand under ordinary names only. */
  ghost predicate WellTallied(counts: Tallies, action: string) {
    match counts.Get(action)
    case None => true
    case Some(Count(_)) => action !in INHERITED
    case Some(Joined(_, _)) => action in INHERITED
  }

  lemma TotalOneMore(counts: Tallies, action: string)
    requires counts.Valid() && WellTallied(counts, action)
    ensures OneMore(counts, action).Valid()
    ensures TotalOf(OneMore(counts, action)) == TotalOf(counts) + if action in INHERITED then 0 else 1
  {
    if action == "__proto__" {
      assert action in INHERITED;
    } else {
      var next := OneMore(counts, action).data[action];
      assert OneMore(counts, action) == counts.Put(action, next);
      if action in counts.data {
        TotalReplaced(counts, action, next);
      } else {
        TotalAppended(counts, action, next);
      }
    }
  }

  /** One event more, seen under one name. */
  lemma FoundOneMore(counts: Tallies, log: seq<AuditEvent>, action: string)
    requires log != []
    requires counts.Get(action) == Found(log[..|log| - 1], action)
    ensures OneMore(counts, log[|log| - 1].content.actionType).Get(action) == Found(log, action)
  {
  }

  lemma {:induction false} CountersFind(log: seq<AuditEvent>, action: string)
    ensures Counted(log).Get(action) == Found(log, action)
  {
    if log != [] {
      CountersFind(log[..|log| - 1], action);
      FoundOneMore(Counted(log[..|log| - 1]), log, action);
    }
  }

  /** The total misses exactly the misnamed events. */
  lemma {:induction false} TotalMissesMisnamed(log: seq<AuditEvent>)
    ensures Counted(log).Valid()
    ensures TotalOf(Counted(log)) + Misnamed(log) == |log|
  {
    if log == [] {
      assert Map(CountOf, Counted(log).Values()) == [];
    } else {
      var init, last := log[..|log| - 1], log[|log| - 1].content.actionType;
      TotalMissesMisnamed(init);
      CountersFind(init, last);
      TotalOneMore(Counted(init), last);
    }
  }

  lemma {:induction false} MisnamedCounts(log: seq<AuditEvent>)
    ensures Misnamed(log) == 0 <==> forall i :: 0 <= i < |log| ==> log[i].content.actionType !in INHERITED
    ensures forall i :: 0 <= i < |log| ==> Occurrences(log, log[i].content.actionType) > 0
  {
    if log != [] { MisnamedCounts(log[..|log| - 1]); }
  }

  /** The action type has its number of events for a counter. */
  ghost predicate ExactCount(counts: Tallies, log: seq<AuditEvent>, action: string) {
    counts.Get(action) == if Occurrences(log, action) == 0 then None else Some(Count(Occurrences(log, action)))
  }

  /** Every counter is exact, and they sum to the number of events. */
  ghost predicate ExactCounts(counts: Tallies, log: seq<AuditEvent>) {
    counts.Valid() && TotalOf(counts) == |log| && forall action :: ExactCount(counts, log, action)
  }

  lemma ProperNamesAreCounted(log: seq<AuditEvent>, action: string)
    ensures Occurrences(log, action) > 0 ==> (ExactCount(Counted(log), log, action) <==> action !in INHERITED)
    ensures Occurrences(log, action) == 0 ==> ExactCount(Counted(log), log, action)
  {
    CountersFind(log, action);
    assert "__proto__" in INHERITED;
  }

  /** The counts of a report are exact if and only if no action type names a property that
      plain objects inherit. */
  lemma CountsAreExactIff(log: seq<AuditEvent>)
    ensures ExactCounts(Counted(log), log) <==>
              forall i :: 0 <= i < |log| ==> log[i].content.actionType !in INHERITED
  {
    TotalMissesMisnamed(log);
    MisnamedCounts(log);
    if i :| 0 <= i < |log| && log[i].content.actionType in INHERITED {
      ProperNamesAreCounted(log, log[i].content.actionType);
    } else {
      forall action ensures ExactCount(Counted(log), log, action) {
        ProperNamesAreCounted(log, action);
        if Occurrences(log, action) > 0 { OccurringIsListed(log, action); }
      }
    }
  }

  lemma {:induction false} OccurringIsListed(log: seq<AuditEvent>, action: string)
    requires Occurrences(log, action) > 0
    ensures exists i :: 0 <= i < |log| && log[i].content.actionType == action
  {
    var n := |log| - 1;
    if log[n].content.actionType != action {
      OccurringIsListed(log[..n], action);
      var i :| 0 <= i < n && log[..n][i].content.actionType == action;
      assert log[i].content.actionType == action;
    }
  }

  /** One event of the action type "constructor" is reported under a text, and counted nowhere. */
  lemma ConstructorIsMiscounted(e: AuditEvent)
    requires e.content.actionType == "constructor"
    ensures Counted([e]).Get("constructor") == Some(Joined("constructor", 1))
    ensures !ExactCounts(Counted([e]), [e])
  {
    assert [e][..0] == [] && [e][0].content.actionType in INHERITED;
    CountsAreExactIff([e]);
    CountersFind([e], "constructor");
  }

  method CountByAction(events: seq<AuditEvent>) returns (counts: Tallies)
    ensures counts == Counted(events)
  {
    counts := EmptyMap();
    for i := 0 to |events|
      invariant counts == Counted(events[..i])
    {
      assert events[..i + 1][..i] == events[..i];
      var action := events[i].content.actionType;
      if action == "__proto__" {
        continue;
      }
      var current := counts.Get(action);
      if current.None? {
        counts := counts.Put(action, if action in INHERITED then Joined(action, 1) else Count(1));
      } else if current.value.Count? {
        counts := counts.Put(action, Count(current.value.n + 1));
      } else {
        counts := counts.Put(action, Joined(current.value.inherited, current.value.ones + 1));
      }
    }
    assert events[..|events|] == events;
  }

  /** The verifier's walk accepts exactly the chained logs. */
  method VerifyChain(h: Hasher, events: seq<AuditEvent>) returns (ok: bool)
    ensures ok <==> Chained(h, events)
  {
    var expectedPreviousHash := GENESIS;
    for i := 0 to |events|
      invariant expectedPreviousHash == Head(events[..i])
      invariant forall j :: 0 <= j < i ==>
                  events[j].content.previousHash == Head(events[..j]) && events[j].hash == h(events[j].content)
    {
      if events[i].content.previousHash != expectedPreviousHash {
        return false;
      }
      var recalculated := h(events[i].content);
      if recalculated != events[i].hash {
        return false;
      }
      expectedPreviousHash := events[i].hash;
      assert events[..i + 1][|events[..i + 1]| - 1] == events[i];
    }
    return true;
  }

  datatype Report = Report(
    reportId: string, generatedBy: string, generatedAt: int,
    totalEvents: nat, chainIntegrity: bool, countByActionType: Tallies)

  /** What the service puts on the event bus. */
  datatype AuditNotice =
    | LogAppended(auditEventId: string, actionType: string, targetType: string, targetId: string, at: int)
    | EvidenceGenerated(reportId: string, generatedBy: string, totalEvents: nat, chainIntegrity: bool, at: int)

  class ComplianceAuditService {
    const repository: InMemoryComplianceAuditRepository
    const hasher: Hasher
    var notices: seq<AuditNotice>

    constructor (repository: InMemoryComplianceAuditRepository, hasher: Hasher)
      ensures this.repository == repository && this.hasher == hasher && notices == []
    {
      this.repository, this.hasher, notices := repository, hasher, [];
    }

    method AppendEvent(input: AuditInput, id: string, now: int) returns (event: AuditEvent)
      modifies repository, this`notices
      ensures event == Entry(hasher, old(repository.events), input, id, now)
      ensures repository.events == old(repository.events) + [event]
      ensures notices == old(notices) + [LogAppended(id, input.actionType, input.targetType, input.targetId, now)]
      ensures Chained(hasher, old(repository.events)) ==> Chained(hasher, repository.events)
    {
      var latest := repository.Latest();
      var previousHash := if latest.Some? then latest.value.hash else GENESIS;
      var content := Content(id, input.actionType, input.actorId, input.targetType, input.targetId,
                             input.reasonCode, input.metadata, now, previousHash);
      event := AuditEvent(content, hasher(content));
      if Chained(hasher, repository.events) { AppendKeepsChained(hasher, repository.events, input, id, now); }
      repository.Append(event);
      notices := notices + [LogAppended(id, input.actionType, input.targetType, input.targetId, now)];
    }

    method GenerateEvidenceReport(generatedBy: string, generatedAt: int, reportId: string) returns (r: Report)
      modifies this`notices
      ensures r.reportId == reportId && r.generatedBy == generatedBy && r.generatedAt == generatedAt
      ensures r.totalEvents == |repository.events|
      ensures r.chainIntegrity <==> Chained(hasher, repository.events)
      ensures r.countByActionType == Counted(repository.events)
      ensures ExactCounts(r.countByActionType, repository.events) <==>
                forall e :: e in repository.events ==> e.content.actionType !in INHERITED
      ensures notices == old(notices) +
                [EvidenceGenerated(reportId, generatedBy, r.totalEvents, r.chainIntegrity, generatedAt)]
    {
      var counts := CountByAction(repository.events);
      CountsAreExactIff(repository.events);
      var integrity := VerifyChain(hasher, repository.events);
      r := Report(reportId, generatedBy, generatedAt, |repository.events|, integrity, counts);
      notices := notices + [EvidenceGenerated(reportId, generatedBy, |repository.events|, integrity, generatedAt)];
    }
  }

  // ----- runs -----

  datatype Appended = Appended(input: AuditInput, id: string, at: int)

  function AppendAll(h: Hasher, log: seq<AuditEvent>, inputs: seq<Appended>): seq<AuditEvent> {
    if inputs == [] then log
    else
      var before, last := AppendAll(h, log, inputs[..|inputs| - 1]), inputs[|inputs| - 1];
      before + [Entry(h, before, last.input, last.id, last.at)]
  }

  /** The event holds what was handed in, under the hash of just that. */
  ghost predicate Carries(h: Hasher, e: AuditEvent, a: Appended) {
    var c, input := e.content, a.input;
    && c.auditEventId == a.id && c.timestamp == a.at
    && c.actionType == input.actionType && c.actorId == input.actorId
    && c.targetType == input.targetType && c.targetId == input.targetId
    && c.reasonCode == input.reasonCode && c.metadata == input.metadata
    && e.hash == h(c)
  }

  /** The event names the hash of the one before it, the first one "GENESIS". */
  ghost predicate NamesPredecessor(log: seq<AuditEvent>, i: nat)
    requires i < |log|
  {
    log[i].content.previousHash == if i == 0 then "GENESIS" else log[i - 1].hash
  }

  /** Appending adds one event per input, in order, each holding its input, its identifier and
      its time, and the hash of the event before it; the log so far stays. */
  lemma {:induction false} AppendsAreCarried(h: Hasher, log: seq<AuditEvent>, inputs: seq<Appended>)
    ensures var after := AppendAll(h, log, inputs);
            && |after| == |log| + |inputs| && after[..|log|] == log
            && (forall i :: 0 <= i < |inputs| ==> Carries(h, after[|log| + i], inputs[i]))
            && (forall i :: |log| <= i < |after| ==> NamesPredecessor(after, i))
  {
    if inputs == [] {
      assert log[..|log|] == log;
    } else {
      var n := |inputs| - 1;
      var before, after := AppendAll(h, log, inputs[..n]), AppendAll(h, log, inputs);
      AppendsAreCarried(h, log, inputs[..n]);
      assert after == before + [after[|before|]] && after[..|log|] == before[..|log|];
      forall i | |log| <= i < |after| ensures NamesPredecessor(after, i) {
        if i < |before| { assert NamesPredecessor(before, i); }
      }
    }
  }

  /** After any sequence of appends the log verifies. */
  lemma {:induction false} AppendedLogsVerify(h: Hasher, inputs: seq<Appended>)
    ensures Chained(h, AppendAll(h, [], inputs))
  {
    if inputs != [] {
      AppendedLogsVerify(h, inputs[..|inputs| - 1]);
      var last := inputs[|inputs| - 1];
      AppendKeepsChained(h, AppendAll(h, [], inputs[..|inputs| - 1]), last.input, last.id, last.at);
    }
  }
}
