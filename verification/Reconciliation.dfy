/** Settlement reconciliation: which entities are reported, and what the report leaves open. */
module Reconciliation {
  import opened Collections

  /** Amounts are integral cents. */
  datatype AmountRecord = AmountRecord(entityId: string, amount: int)

  datatype Reason = MissingExpectedRecord | MissingActualRecord | AmountMismatch

  datatype ExceptionCase = ExceptionCase(
    entityId: string, expectedAmount: int, actualAmount: int, variance: int, reason: Reason)

  datatype Outcome = Outcome(
    reconciliationId: string, reconciledAt: int,
    toleranceCents: int, totalExpectedAmount: int, totalActualAmount: int, exceptionCases: seq<ExceptionCase>)

  /** What the service puts on the event bus. */
  datatype ReconciliationCompleted = ReconciliationCompleted(
    reconciliationId: string, toleranceCents: int, exceptionCount: nat, at: int)

  type Amounts = OrderedMap<string, int>

  /** A later record of an entity replaces an earlier one. */
  function ByEntity(records: seq<AmountRecord>): Amounts {
    if records == [] then EmptyMap()
    else ByEntity(records[..|records| - 1]).Put(records[|records| - 1].entityId, records[|records| - 1].amount)
  }

  function AmountOf(m: map<string, int>, id: string): int {
    if id in m then m[id] else 0
  }

  /** The members of an insertion-ordered set after adding `more`. */
  function AddAll(members: seq<string>, more: seq<string>): seq<string> {
    if more == [] then members
    else
      var s, last := AddAll(members, more[..|more| - 1]), more[|more| - 1];
      if last in s then s else s + [last]
  }

  function Entities(expected: Amounts, actual: Amounts): seq<string> {
    AddAll([], expected.keys + actual.keys)
  }

  function Variance(expected: map<string, int>, actual: map<string, int>, id: string): int {
    AmountOf(actual, id) - AmountOf(expected, id)
  }

  function Abs(n: int): nat {
    if n < 0 then -n else n
  }

  function ResolveReason(expectedPresent: bool, actualPresent: bool): Reason {
    if !expectedPresent && actualPresent then MissingExpectedRecord
    else if expectedPresent && !actualPresent then MissingActualRecord
    else AmountMismatch
  }

  function CaseOf(expected: map<string, int>, actual: map<string, int>, id: string): ExceptionCase {
    ExceptionCase(id, AmountOf(expected, id), AmountOf(actual, id), Variance(expected, actual, id),
                  ResolveReason(id in expected, id in actual))
  }

  function Cases(expected: map<string, int>, actual: map<string, int>, tolerance: int, ids: seq<string>)
    : seq<ExceptionCase>
  {
    if ids == [] then []
    else
      var rest, id := Cases(expected, actual, tolerance, ids[..|ids| - 1]), ids[|ids| - 1];
      if Abs(Variance(expected, actual, id)) <= tolerance then rest else rest + [CaseOf(expected, actual, id)]
  }

  /** The loop over the entities. */
  method ExceptionCases(expected: map<string, int>, actual: map<string, int>, tolerance: int, ids: seq<string>)
    returns (cases: seq<ExceptionCase>)
    ensures cases == Cases(expected, actual, tolerance, ids)
  {
    cases := [];
    for i := 0 to |ids|
      invariant cases == Cases(expected, actual, tolerance, ids[..i])
    {
      assert ids[..i + 1][..i] == ids[..i];
      var expectedAmount := if ids[i] in expected then expected[ids[i]] else 0;
      var actualAmount := if ids[i] in actual then actual[ids[i]] else 0;
      var variance := actualAmount - expectedAmount;
      if Abs(variance) <= tolerance {
        continue;
      }
      var reason := ResolveReason(ids[i] in expected, ids[i] in actual);
      cases := cases + [ExceptionCase(ids[i], expectedAmount, actualAmount, variance, reason)];
    }
    assert ids[..|ids|] == ids;
  }

  /** The totals and cases computed from the two record lists. */
  ghost predicate IsOutcome(r: Outcome, expectedRecords: seq<AmountRecord>, actualRecords: seq<AmountRecord>) {
    var expected, actual := ByEntity(expectedRecords), ByEntity(actualRecords);
    && expected.Valid() && actual.Valid()
    && r.totalExpectedAmount == Sum(expected.Values()) && r.totalActualAmount == Sum(actual.Values())
    && r.exceptionCases == Cases(expected.data, actual.data, r.toleranceCents, Entities(expected, actual))
  }

  class SettlementReconciliationService {
    var history: seq<Outcome>
    var events: seq<ReconciliationCompleted>

    constructor ()
      ensures history == [] && events == []
    {
      history, events := [], [];
    }

    /** `id` is the random identifier drawn for the outcome. */
    method Reconcile(expectedRecords: seq<AmountRecord>, actualRecords: seq<AmountRecord>, tolerance: int,
                     id: string, now: int)
      returns (r: Outcome)
      modifies this
      ensures IsOutcome(r, expectedRecords, actualRecords)
      ensures r.reconciliationId == id && r.reconciledAt == now && r.toleranceCents == tolerance
      ensures history == old(history) + [r]
      ensures events == old(events) + [ReconciliationCompleted(id, tolerance, |r.exceptionCases|, now)]
    {
      var expected, actual := ByEntity(expectedRecords), ByEntity(actualRecords);
      ByEntityIsValid(expectedRecords);
      ByEntityIsValid(actualRecords);
      var cases := ExceptionCases(expected.data, actual.data, tolerance, Entities(expected, actual));
      r := Outcome(id, now, tolerance, Sum(expected.Values()), Sum(actual.Values()), cases);
      events := events + [ReconciliationCompleted(id, tolerance, |cases|, now)];
      history := history + [r];
    }
  }

  lemma {:induction false} ByEntityIsValid(records: seq<AmountRecord>)
    ensures ByEntity(records).Valid()
  {
    if records != [] {
      ByEntityIsValid(records[..|records| - 1]);
      PutKeepsValid(ByEntity(records[..|records| - 1]), records[|records| - 1].entityId, records[|records| - 1].amount);
    }
  }

  // ----- the records themselves -----

  /** The record at `i` is the last one that names its entity: the one that counts. */
  predicate Counts(records: seq<AmountRecord>, i: nat)
    requires i < |records|
  {
    forall j :: i < j < |records| ==> records[j].entityId != records[i].entityId
  }

  predicate Named(records: seq<AmountRecord>, id: string) {
    exists i :: 0 <= i < |records| && records[i].entityId == id
  }

  /** The amount that counts for an entity: the one of its last record, or nothing. */
  ghost predicate AmountIs(records: seq<AmountRecord>, id: string, amount: int) {
    && (forall i :: 0 <= i < |records| && records[i].entityId == id && Counts(records, i) ==>
          amount == records[i].amount)
    && (!Named(records, id) ==> amount == 0)
  }

  lemma {:induction false} LastRecordCounts(records: seq<AmountRecord>, id: string)
    ensures id in ByEntity(records).data <==> Named(records, id)
    ensures Named(records, id) ==>
              exists i :: 0 <= i < |records| && records[i].entityId == id && Counts(records, i)
                          && ByEntity(records).data[id] == records[i].amount
  {
    if records != [] {
      var n := |records| - 1;
      var init := records[..n];
      LastRecordCounts(init, id);
      if records[n].entityId == id {
        assert Counts(records, n);
      } else if Named(init, id) {
        var i :| 0 <= i < n && init[i].entityId == id && Counts(init, i) && ByEntity(init).data[id] == init[i].amount;
        assert records[i] == init[i] && Counts(records, i);
      } else {
        forall i | 0 <= i < |records| ensures records[i].entityId != id {
          if i < n { assert records[i] == init[i]; }
        }
      }
    }
  }

  /** What is found for an entity is the amount that counts. */
  lemma FoundAmountCounts(records: seq<AmountRecord>, id: string)
    ensures id in ByEntity(records).data <==> Named(records, id)
    ensures AmountIs(records, id, AmountOf(ByEntity(records).data, id))
  {
    LastRecordCounts(records, id);
    if Named(records, id) {
      var k :| 0 <= k < |records| && records[k].entityId == id && Counts(records, k)
               && ByEntity(records).data[id] == records[k].amount;
      forall i | 0 <= i < |records| && records[i].entityId == id && Counts(records, i)
        ensures AmountOf(ByEntity(records).data, id) == records[i].amount
      {
        assert i == k;
      }
    }
  }

  /** The amounts that count, at the positions of their records; nothing elsewhere. */
  function CountingAmounts(records: seq<AmountRecord>): seq<int> {
    seq(|records|, i requires 0 <= i < |records| => if Counts(records, i) then records[i].amount else 0)
  }

  lemma CountingOneMore(records: seq<AmountRecord>, r: AmountRecord)
    ensures Sum(CountingAmounts(records + [r])) ==
              Sum(CountingAmounts(records)) - AmountOf(ByEntity(records).data, r.entityId) + r.amount
  {
    var longer, before := records + [r], CountingAmounts(records);
    LastRecordCounts(records, r.entityId);
    if Named(records, r.entityId) {
      var k :| 0 <= k < |records| && records[k].entityId == r.entityId && Counts(records, k)
               && ByEntity(records).data[r.entityId] == records[k].amount;
      forall i | 0 <= i < |records| ensures CountingAmounts(longer)[i] == before[k := 0][i] {
        StillCounts(records, r, i);
        if i != k && records[i].entityId == r.entityId { OnlyOneCounts(records, i, k); }
      }
      assert CountingAmounts(longer) == before[k := 0] + [r.amount];
      SumReplace(before, k, 0);
      SumAppend(before[k := 0], r.amount);
    } else {
      forall i | 0 <= i < |records| ensures CountingAmounts(longer)[i] == before[i] {
        StillCounts(records, r, i);
      }
      assert CountingAmounts(longer) == before + [r.amount];
      SumAppend(before, r.amount);
    }
  }

  lemma StillCounts(records: seq<AmountRecord>, r: AmountRecord, i: nat)
    requires i < |records|
    ensures (records + [r])[i] == records[i]
    ensures Counts(records + [r], i) <==> Counts(records, i) && records[i].entityId != r.entityId
  {
    var longer := records + [r];
    if Counts(longer, i) {
      assert longer[|records|] == r;
      forall j | i < j < |records| ensures records[j].entityId != records[i].entityId {
        assert longer[j] == records[j];
      }
    }
  }

  lemma OnlyOneCounts(records: seq<AmountRecord>, i: nat, j: nat)
    requires i < |records| && j < |records| && i != j && records[i].entityId == records[j].entityId
    requires Counts(records, j)
    ensures !Counts(records, i)
  {
    assert i < j || j < i;
  }

  /** The total is the sum of the amounts that count. */
  lemma {:induction false} TotalIsWhatCounts(records: seq<AmountRecord>)
    ensures ByEntity(records).Valid() && Sum(ByEntity(records).Values()) == Sum(CountingAmounts(records))
  {
    ByEntityIsValid(records);
    if records != [] {
      var init, r := records[..|records| - 1], records[|records| - 1];
      TotalIsWhatCounts(init);
      assert records == init + [r];
      CountingOneMore(init, r);
      PutChangesSum(ByEntity(init), r.entityId, r.amount);
    }
  }

  lemma PutChangesSum(m: Amounts, id: string, amount: int)
    requires m.Valid()
    ensures m.Put(id, amount).Valid()
    ensures Sum(m.Put(id, amount).Values()) == Sum(m.Values()) - AmountOf(m.data, id) + amount
  {
    if id in m.data {
      var i :| 0 <= i < |m.keys| && m.keys[i] == id;
      PutExistingReplaces(m, i, amount);
      SumReplace(m.Values(), i, amount);
    } else {
      PutFreshAppends(m, id, amount);
      SumAppend(m.Values(), amount);
    }
  }

  /** Without repeated entities the total is the sum of all amounts. */
  lemma TotalOfDistinctRecords(records: seq<AmountRecord>)
    requires forall i, j :: 0 <= i < j < |records| ==> records[i].entityId != records[j].entityId
    ensures ByEntity(records).Valid()
    ensures Sum(ByEntity(records).Values()) == Sum(seq(|records|, i requires 0 <= i < |records| => records[i].amount))
  {
    TotalIsWhatCounts(records);
    assert CountingAmounts(records) == seq(|records|, i requires 0 <= i < |records| => records[i].amount);
  }

  lemma {:induction false} AddAllIsASet(members: seq<string>, more: seq<string>)
    requires Distinct(members)
    ensures Distinct(AddAll(members, more))
    ensures forall id :: id in AddAll(members, more) <==> id in members || id in more
  {
    if more != [] {
      var n := |more| - 1;
      AddAllIsASet(members, more[..n]);
      assert more == more[..n] + [more[n]];
    }
  }

  lemma EntitiesAreTheKeys(expected: Amounts, actual: Amounts)
    requires expected.Valid() && actual.Valid()
    ensures Distinct(Entities(expected, actual))
    ensures forall id :: id in Entities(expected, actual) <==> id in expected.data || id in actual.data
  {
    AddAllIsASet([], expected.keys + actual.keys);
  }

  lemma {:induction false} CasesAreTheDeviations(expected: map<string, int>, actual: map<string, int>, tolerance: int,
                                                 ids: seq<string>)
    requires Distinct(ids)
    ensures var cases := Cases(expected, actual, tolerance, ids);
            && (forall c :: c in cases <==>
                  && c.entityId in ids && Abs(Variance(expected, actual, c.entityId)) > tolerance
                  && c == CaseOf(expected, actual, c.entityId))
            && (forall i, j :: 0 <= i < j < |cases| ==> cases[i].entityId != cases[j].entityId)
  {
    if ids != [] {
      var n := |ids| - 1;
      CasesAreTheDeviations(expected, actual, tolerance, ids[..n]);
      assert ids == ids[..n] + [ids[n]];
      assert ids[n] !in ids[..n];
      var rest := Cases(expected, actual, tolerance, ids[..n]);
      assert forall i :: 0 <= i < |rest| ==> rest[i] in rest;
    }
  }

  /** Each entity on either side whose variance exceeds the tolerance is reported exactly
      once, with its amounts and the reason that says which side is missing; no other is. */
  lemma EveryDeviationIsReportedOnce(expectedRecords: seq<AmountRecord>, actualRecords: seq<AmountRecord>,
                                     tolerance: int)
    ensures var expected, actual := ByEntity(expectedRecords), ByEntity(actualRecords);
            var cases := Cases(expected.data, actual.data, tolerance, Entities(expected, actual));
            && (forall id :: (exists c :: c in cases && c.entityId == id) <==>
                  && (id in expected.data || id in actual.data)
                  && Abs(Variance(expected.data, actual.data, id)) > tolerance)
            && (forall c :: c in cases ==>
                  && c.variance == c.actualAmount - c.expectedAmount
                  && c.expectedAmount == AmountOf(expected.data, c.entityId)
                  && c.actualAmount == AmountOf(actual.data, c.entityId)
                  && (c.reason == MissingExpectedRecord <==> c.entityId !in expected.data)
                  && (c.reason == MissingActualRecord <==> c.entityId !in actual.data))
            && (forall i, j :: 0 <= i < j < |cases| ==> cases[i].entityId != cases[j].entityId)
  {
    var expected, actual := ByEntity(expectedRecords), ByEntity(actualRecords);
    ByEntityIsValid(expectedRecords);
    ByEntityIsValid(actualRecords);
    EntitiesAreTheKeys(expected, actual);
    var ids := Entities(expected, actual);
    CasesAreTheDeviations(expected.data, actual.data, tolerance, ids);
    var cases := Cases(expected.data, actual.data, tolerance, ids);
    forall id | id in ids && Abs(Variance(expected.data, actual.data, id)) > tolerance
      ensures exists c :: c in cases && c.entityId == id
    {
      assert CaseOf(expected.data, actual.data, id) in cases;
    }
  }

  /** A case reports a known entity with the amounts that count on both sides, which differ
      beyond the tolerance, and tells which side has no record. */
  ghost predicate ReportsRightly(c: ExceptionCase, expected: seq<AmountRecord>, actual: seq<AmountRecord>,
                                 tolerance: int)
  {
    && (Named(expected, c.entityId) || Named(actual, c.entityId))
    && (c.variance > tolerance || -c.variance > tolerance)
    && AmountIs(expected, c.entityId, c.expectedAmount) && AmountIs(actual, c.entityId, c.actualAmount)
    && c.variance == c.actualAmount - c.expectedAmount
    && (c.reason == MissingExpectedRecord <==> !Named(expected, c.entityId))
    && (c.reason == MissingActualRecord <==> !Named(actual, c.entityId))
  }

  /** Some record names the entity, and the amounts that count differ beyond the tolerance. */
  ghost predicate Deviates(expected: seq<AmountRecord>, actual: seq<AmountRecord>, id: string, e: int, a: int,
                           tolerance: int)
  {
    && AmountIs(expected, id, e) && AmountIs(actual, id, a)
    && (Named(expected, id) || Named(actual, id))
    && (a - e > tolerance || e - a > tolerance)
  }

  /** The outcome told from the record lists alone: an entity is reported, exactly once, if and
      only if some record names it and the amounts that count differ beyond the tolerance; the
      totals are the sums of the amounts that count. */
  lemma OutcomeTellsTheRecords(r: Outcome, expected: seq<AmountRecord>, actual: seq<AmountRecord>)
    requires IsOutcome(r, expected, actual)
    ensures r.totalExpectedAmount == Sum(CountingAmounts(expected))
    ensures r.totalActualAmount == Sum(CountingAmounts(actual))
    ensures forall c :: c in r.exceptionCases ==> ReportsRightly(c, expected, actual, r.toleranceCents)
    ensures forall id, e, a :: Deviates(expected, actual, id, e, a, r.toleranceCents) ==>
              exists c :: c in r.exceptionCases && c.entityId == id && c.expectedAmount == e && c.actualAmount == a
    ensures forall i, j :: 0 <= i < j < |r.exceptionCases| ==>
              r.exceptionCases[i].entityId != r.exceptionCases[j].entityId
  {
    TotalIsWhatCounts(expected);
    TotalIsWhatCounts(actual);
    EveryDeviationIsReportedOnce(expected, actual, r.toleranceCents);
    forall c | c in r.exceptionCases ensures ReportsRightly(c, expected, actual, r.toleranceCents) {
      CaseReportsRightly(r, expected, actual, c);
    }
    forall id, e, a | Deviates(expected, actual, id, e, a, r.toleranceCents)
      ensures exists c :: c in r.exceptionCases && c.entityId == id && c.expectedAmount == e && c.actualAmount == a
    {
      var c := DeviationIsReported(r, expected, actual, id, e, a);
    }
  }

  lemma CaseReportsRightly(r: Outcome, expected: seq<AmountRecord>, actual: seq<AmountRecord>, c: ExceptionCase)
    requires IsOutcome(r, expected, actual) && c in r.exceptionCases
    ensures ReportsRightly(c, expected, actual, r.toleranceCents)
  {
    EveryDeviationIsReportedOnce(expected, actual, r.toleranceCents);
    FoundAmountCounts(expected, c.entityId);
    FoundAmountCounts(actual, c.entityId);
  }

  lemma DeviationIsReported(r: Outcome, expected: seq<AmountRecord>, actual: seq<AmountRecord>,
                            id: string, e: int, a: int) returns (c: ExceptionCase)
    requires IsOutcome(r, expected, actual) && Deviates(expected, actual, id, e, a, r.toleranceCents)
    ensures c in r.exceptionCases && c.entityId == id && c.expectedAmount == e && c.actualAmount == a
  {
    EveryDeviationIsReportedOnce(expected, actual, r.toleranceCents);
    AmountIsUnique(expected, id, e);
    AmountIsUnique(actual, id, a);
    assert Abs(Variance(ByEntity(expected).data, ByEntity(actual).data, id)) > r.toleranceCents;
    c :| c in r.exceptionCases && c.entityId == id;
  }

  lemma AmountIsUnique(records: seq<AmountRecord>, id: string, amount: int)
    requires AmountIs(records, id, amount)
    ensures amount == AmountOf(ByEntity(records).data, id)
    ensures id in ByEntity(records).data <==> Named(records, id)
  {
    LastRecordCounts(records, id);
  }

  // ----- conservation -----

  function SumOver(ids: seq<string>, m: map<string, int>): int {
    if ids == [] then 0 else SumOver(ids[..|ids| - 1], m) + AmountOf(m, ids[|ids| - 1])
  }

  lemma {:induction false} SumOverConcat(a: seq<string>, b: seq<string>, m: map<string, int>)
    ensures SumOver(a + b, m) == SumOver(a, m) + SumOver(b, m)
  {
    if b == [] {
      assert a + b == a;
    } else {
      assert (a + b)[..|a + b| - 1] == a + b[..|b| - 1];
      SumOverConcat(a, b[..|b| - 1], m);
    }
  }

  lemma {:induction false} SumOverIgnores(ids: seq<string>, m: map<string, int>, k: string)
    requires k !in ids
    ensures SumOver(ids, m) == SumOver(ids, m - {k})
  {
    if ids != [] { SumOverIgnores(ids[..|ids| - 1], m, k); }
  }

  lemma {:induction false} SumOverNothing(ids: seq<string>, m: map<string, int>)
    requires forall id :: id in ids ==> id !in m
    ensures SumOver(ids, m) == 0
  {
    if ids != [] { SumOverNothing(ids[..|ids| - 1], m); }
  }

  lemma SumOverSplit(ids: seq<string>, p: nat, m: map<string, int>)
    requires p < |ids|
    ensures SumOver(ids, m) == SumOver(ids[..p] + ids[p + 1..], m) + AmountOf(m, ids[p])
  {
    assert ids == ids[..p] + ([ids[p]] + ids[p + 1..]);
    SumOverConcat(ids[..p], [ids[p]] + ids[p + 1..], m);
    SumOverConcat([ids[p]], ids[p + 1..], m);
    SumOverConcat(ids[..p], ids[p + 1..], m);
    assert [ids[p]][..0] == [];
  }

  lemma RemovingOne(ids: seq<string>, p: nat)
    requires Distinct(ids) && p < |ids|
    ensures var others := ids[..p] + ids[p + 1..];
            && Distinct(others)
            && (forall x :: x in others <==> x in ids && x != ids[p])
  {
    var others := ids[..p] + ids[p + 1..];
    forall x | x in ids && x != ids[p] ensures x in others {
      var q :| 0 <= q < |ids| && ids[q] == x;
      assert if q < p then others[q] == x else others[q - 1] == x;
    }
  }

  /** Any enumeration that covers the keys once sums to the same. */
  lemma {:induction false} SumOverAnyCover(keys: seq<string>, ids: seq<string>, m: map<string, int>)
    requires Distinct(keys) && Distinct(ids)
    requires forall k :: k in m <==> k in keys
    requires forall k :: k in m ==> k in ids
    ensures SumOver(ids, m) == SumOver(keys, m)
  {
    if keys == [] {
      SumOverNothing(ids, m);
    } else {
      var n := |keys| - 1;
      var k := keys[n];
      assert k in keys;
      var p :| 0 <= p < |ids| && ids[p] == k;
      var others := ids[..p] + ids[p + 1..];
      SumOverSplit(ids, p, m);
      RemovingOne(ids, p);
      RemovingOne(keys, n);
      assert keys[..n] + keys[n + 1..] == keys[..n];
      SumOverAnyCover(keys[..n], others, m - {k});
      SumOverIgnores(others, m, k);
      SumOverIgnores(keys[..n], m, k);
    }
  }

  lemma {:induction false} SumOfValues(keys: seq<string>, m: map<string, int>, values: seq<int>)
    requires |values| == |keys| && forall i :: 0 <= i < |keys| ==> keys[i] in m && values[i] == m[keys[i]]
    ensures SumOver(keys, m) == Sum(values)
  {
    if keys != [] { SumOfValues(keys[..|keys| - 1], m, values[..|values| - 1]); }
  }

  function SumVariances(cases: seq<ExceptionCase>): int {
    if cases == [] then 0 else SumVariances(cases[..|cases| - 1]) + cases[|cases| - 1].variance
  }

  lemma OneMoreWithinTolerance(sum: int, v: int, tolerance: int, n: int)
    requires Abs(sum) <= tolerance * n && Abs(v) <= tolerance
    ensures Abs(sum + v) <= tolerance * (n + 1)
  {
    assert tolerance * (n + 1) == tolerance * n + tolerance;
  }

  lemma {:induction false} UnreportedVarianceIsBounded(expected: map<string, int>, actual: map<string, int>,
                                                       tolerance: int, ids: seq<string>)
    ensures var cases := Cases(expected, actual, tolerance, ids);
            && |cases| <= |ids|
            && Abs(SumOver(ids, actual) - SumOver(ids, expected) - SumVariances(cases)) <= tolerance * (|ids| - |cases|)
  {
    if ids != [] {
      var n := |ids| - 1;
      UnreportedVarianceIsBounded(expected, actual, tolerance, ids[..n]);
      var rest := Cases(expected, actual, tolerance, ids[..n]);
      if Abs(Variance(expected, actual, ids[n])) <= tolerance {
        OneMoreWithinTolerance(SumOver(ids[..n], actual) - SumOver(ids[..n], expected) - SumVariances(rest),
                               Variance(expected, actual, ids[n]), tolerance, n - |rest|);
      } else {
        assert (rest + [CaseOf(expected, actual, ids[n])])[..|rest|] == rest;
      }
    }
  }

  /** The totals differ by the reported variances up to the tolerance per unreported entity. */
  lemma ReconciliationConservesMoney(expectedRecords: seq<AmountRecord>, actualRecords: seq<AmountRecord>,
                                     tolerance: int)
    ensures var expected, actual := ByEntity(expectedRecords), ByEntity(actualRecords);
            expected.Valid() && actual.Valid() && Conserved(expected, actual, tolerance, Entities(expected, actual))
  {
    ByEntityIsValid(expectedRecords);
    ByEntityIsValid(actualRecords);
    var expected, actual := ByEntity(expectedRecords), ByEntity(actualRecords);
    EntitiesAreTheKeys(expected, actual);
    ConservedOver(expected, actual, tolerance, Entities(expected, actual));
  }

  ghost predicate Conserved(expected: Amounts, actual: Amounts, tolerance: int, ids: seq<string>)
    requires expected.Valid() && actual.Valid()
  {
    var cases := Cases(expected.data, actual.data, tolerance, ids);
    && |cases| <= |ids|
    && Abs(Sum(actual.Values()) - Sum(expected.Values()) - SumVariances(cases)) <= tolerance * (|ids| - |cases|)
  }

  lemma ConservedOver(expected: Amounts, actual: Amounts, tolerance: int, ids: seq<string>)
    requires expected.Valid() && actual.Valid() && Distinct(ids)
    requires forall id :: id in expected.data || id in actual.data ==> id in ids
    ensures Conserved(expected, actual, tolerance, ids)
  {
    TotalIsSumOver(expected, ids);
    TotalIsSumOver(actual, ids);
    UnreportedVarianceIsBounded(expected.data, actual.data, tolerance, ids);
  }

  lemma TotalIsSumOver(m: Amounts, ids: seq<string>)
    requires m.Valid() && Distinct(ids) && forall k :: k in m.data ==> k in ids
    ensures SumOver(ids, m.data) == Sum(m.Values())
  {
    SumOverAnyCover(m.keys, ids, m.data);
    SumOfValues(m.keys, m.data, m.Values());
  }
}
