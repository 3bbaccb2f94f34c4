/** Decimal text of integers, printed and parsed. */
module Numerals {
  import opened Collections

  function Digit(d: nat): char
    requires d < 10
  {
    "0123456789"[d]
  }

  function Digits(n: nat): (s: string)
    ensures s != [] && '0' <= s[0] <= '9'
  {
    if n < 10 then [Digit(n)] else Digits(n / 10) + [Digit(n % 10)]
  }

  function Show(n: int): string {
    if n < 0 then "-" + Digits(-n) else Digits(n)
  }

  function ParseDigits(s: string): Option<nat> {
    if s == "" then Some(0)
    else
      var rest, c := ParseDigits(s[..|s| - 1]), s[|s| - 1];
      if rest.None? || !('0' <= c <= '9') then None
      else Some(10 * rest.value + (c as int - '0' as int))
  }

  /** An optional sign and at least one digit. */
  function Parse(s: string): Option<int> {
    if s == "" then None
    else if s[0] < '0' then
      if |s| == 1 || s[0] !in {'-', '+'} || ParseDigits(s[1..]).None? then None
      else
        var magnitude: int := ParseDigits(s[1..]).value;
        Some(if s[0] == '-' then -magnitude else magnitude)
    else if ParseDigits(s).None? then None
    else Some(ParseDigits(s).value)
  }

  lemma {:induction false} DigitsParseBack(n: nat)
    ensures ParseDigits(Digits(n)) == Some(n)
  {
    if n < 10 {
      assert Digits(n)[..0] == "";
    } else {
      DigitsParseBack(n / 10);
      assert Digits(n)[..|Digits(n)| - 1] == Digits(n / 10);
    }
  }

  lemma {:induction false} DigitStringsParse(s: string)
    ensures ParseDigits(s).Some? <==> forall i :: 0 <= i < |s| ==> '0' <= s[i] <= '9'
  {
    if s != "" { DigitStringsParse(s[..|s| - 1]); }
  }

  /** A text parses exactly if it is digits, at least one, behind at most one sign. */
  lemma ParsesIffDecimal(s: string)
    ensures Parse(s).Some? <==>
              var body := if s != "" && (s[0] == '+' || s[0] == '-') then s[1..] else s;
              body != "" && forall i :: 0 <= i < |body| ==> '0' <= body[i] <= '9'
    ensures s != "" && s[0] == '+' && Parse(s).Some? ==> Parse(s) == Parse(s[1..])
    ensures s != "" && s[0] == '-' && Parse(s).Some? ==> Parse(s[1..]).Some? && Parse(s).value == -Parse(s[1..]).value
  {
    DigitStringsParse(s);
    if s != "" { DigitStringsParse(s[1..]); }
  }

  /** Parsing what was printed gives the number back, negative ones included. */
  lemma ShowParsesBack(n: int)
    ensures Parse(Show(n)) == Some(n)
  {
    DigitsParseBack(if n < 0 then -n else n);
    if n < 0 { assert Show(n)[1..] == Digits(-n); }
  }
}

/** The offline action queue, its persistent mirror and the flush driver. */
module OfflineQueue {
  import opened Collections
  import opened Numerals

  datatype ActionStatus = Pending | InFlight | RetryScheduled | Succeeded | Failed

  datatype NewAction = NewAction(idempotencyKey: string, intentType: string, payload: map<string, string>)

  datatype Action = Action(
    id: string, idempotencyKey: string, intentType: string, payload: map<string, string>,
    attempts: int, status: ActionStatus)

  const PREFIX := "offline-"

  function SequenceOf(id: string): Option<int> {
    Parse(if PREFIX <= id then id[|PREFIX|..] else id)
  }

  function NewId(sequence: int): string {
    PREFIX + Show(sequence)
  }

  function MaxSequence(actions: seq<Action>): Option<int> {
    if actions == [] then None
    else
      var rest, last := MaxSequence(actions[..|actions| - 1]), SequenceOf(actions[|actions| - 1].id);
      if last.None? then rest
      else if rest.None? || rest.value < last.value then last
      else rest
  }

  function InitialSequence(actions: seq<Action>): int {
    if MaxSequence(actions).None? then 1 else MaxSequence(actions).value + 1
  }

  datatype Queue = Queue(
    actions: OrderedMap<string, Action>, index: map<string, string>, nextSequence: int, maxAttempts: int)

  function InsertAll(q: Queue, actions: seq<Action>): Queue {
    if actions == [] then q
    else
      var p, last := InsertAll(q, actions[..|actions| - 1]), actions[|actions| - 1];
      p.(actions := p.actions.Put(last.id, last), index := p.index[last.idempotencyKey := last.id])
  }

  function Load(actions: seq<Action>, maxAttempts: int): Queue {
    InsertAll(Queue(EmptyMap(), map[], InitialSequence(actions), maxAttempts), actions)
  }

  function Existing(q: Queue, key: string): Option<Action> {
    if key in q.index then q.actions.Get(q.index[key]) else None
  }

  function Made(q: Queue, input: NewAction): Action {
    Action(NewId(q.nextSequence), input.idempotencyKey, input.intentType, input.payload, 0, Pending)
  }

  function Enqueue(q: Queue, input: NewAction): (Queue, Action) {
    match Existing(q, input.idempotencyKey)
    case Some(a) => (q, a)
    case None =>
      var a := Made(q, input);
      (q.(actions := q.actions.Put(a.id, a), index := q.index[a.idempotencyKey := a.id],
          nextSequence := q.nextSequence + 1), a)
  }

  predicate Ready(a: Action) {
    a.status == Pending || a.status == RetryScheduled
  }

  predicate Done(a: Action) {
    a.status == Succeeded || a.status == Failed
  }

  /** A failure reported for a stored action makes it ready again exactly if it may be retried
      and has attempts left; otherwise it has failed. Nothing else changes. */
  lemma FailureRetriesIff(q: Queue, id: string, retryable: bool)
    requires Filed(q) && id in q.actions.data
    ensures var (p, updated) := MarkFailed(q, id, retryable);
            var before := q.actions.data[id];
            && updated && id in p.actions.data
            && var after := p.actions.data[id];
               && (Ready(after) <==> retryable && before.attempts < q.maxAttempts)
               && (Ready(after) <==> after.status == RetryScheduled)
               && (!Ready(after) <==> after.status == Failed)
               && after == before.(status := after.status)
               && p == q.(actions := p.actions) && p.actions.keys == q.actions.keys
               && (forall other :: other in q.actions.data && other != id ==>
                     other in p.actions.data && p.actions.data[other] == q.actions.data[other])
  {
  }

  /** A success reported for a stored action makes it succeeded, whatever it was; nothing else
      changes, and a report on an unknown action changes nothing. */
  lemma SuccessIsRecorded(q: Queue, id: string, retryable: bool)
    requires Filed(q)
    ensures MarkSucceeded(q, id).1 <==> id in q.actions.data
    ensures id in q.actions.data ==>
              var p := MarkSucceeded(q, id).0;
              && p == q.(actions := p.actions) && p.actions.keys == q.actions.keys
              && p.actions.data == q.actions.data[id := q.actions.data[id].(status := Succeeded)]
    ensures id !in q.actions.data ==> MarkSucceeded(q, id).0 == q && MarkFailed(q, id, retryable) == (q, false)
  {
  }

  /** The position of the first action that may be leased, or the length if there is none. */
  function FirstReady(s: seq<Action>): (i: nat)
    ensures i <= |s| && (i < |s| ==> Ready(s[i])) && forall j :: 0 <= j < i ==> !Ready(s[j])
  {
    if s == [] then 0
    else
      var i := FirstReady(s[..|s| - 1]);
      if i < |s| - 1 || Ready(s[|s| - 1]) then i else |s|
  }

  function Leased(a: Action): Action {
    a.(attempts := a.attempts + 1, status := InFlight)
  }

  function AfterFailure(a: Action, retryable: bool, maxAttempts: int): Action {
    a.(status := if retryable && a.attempts < maxAttempts then RetryScheduled else Failed)
  }

  function Lease(q: Queue): (Queue, Option<Action>)
    requires q.actions.Valid()
  {
    var s := q.actions.Values();
    var i := FirstReady(s);
    if i == |s| then (q, None)
    else (q.(actions := q.actions.Put(Leased(s[i]).id, Leased(s[i]))), Some(Leased(s[i])))
  }

  function MarkSucceeded(q: Queue, id: string): (Queue, bool) {
    match q.actions.Get(id)
    case None => (q, false)
    case Some(a) => (q.(actions := q.actions.Put(id, a.(status := Succeeded))), true)
  }

  function MarkFailed(q: Queue, id: string, retryable: bool): (Queue, bool) {
    match q.actions.Get(id)
    case None => (q, false)
    case Some(a) => (q.(actions := q.actions.Put(id, AfterFailure(a, retryable, q.maxAttempts))), true)
  }

  // ----- what every queue keeps -----

  /** Actions are filed under their own identifier. */
  ghost predicate Filed(q: Queue) {
    && q.actions.Valid()
    && (forall id :: id in q.actions.data ==> q.actions.data[id].id == id)
  }

  ghost predicate DistinctIds(s: seq<Action>) {
    forall i, j :: 0 <= i < j < |s| ==> s[i].id != s[j].id
  }

  ghost predicate DistinctKeys(s: seq<Action>) {
    forall i, j :: 0 <= i < j < |s| ==> s[i].idempotencyKey != s[j].idempotencyKey
  }

  function IndexOf(s: seq<Action>): map<string, string> {
    if s == [] then map[]
    else IndexOf(s[..|s| - 1])[s[|s| - 1].idempotencyKey := s[|s| - 1].id]
  }

  /** The index and the next sequence number are those a reload would compute. */
  ghost predicate Coherent(q: Queue) {
    && Filed(q)
    && DistinctKeys(q.actions.Values())
    && q.index == IndexOf(q.actions.Values())
    && q.nextSequence == InitialSequence(q.actions.Values())
  }

  lemma FiledIdsAreKeys(q: Queue)
    requires Filed(q)
    ensures forall i :: 0 <= i < |q.actions.keys| ==> q.actions.Values()[i].id == q.actions.keys[i]
    ensures DistinctIds(q.actions.Values())
  {
    forall i | 0 <= i < |q.actions.keys| ensures q.actions.Values()[i].id == q.actions.keys[i] {
      assert q.actions.keys[i] in q.actions.keys;
    }
  }

  /** Overwriting the action at a position with one of the same identifier. */
  lemma PutAtPosition(q: Queue, i: nat, a: Action)
    requires Filed(q) && i < |q.actions.keys| && a.id == q.actions.Values()[i].id
    ensures var p := q.(actions := q.actions.Put(a.id, a));
            Filed(p) && p.actions.keys == q.actions.keys && p.actions.Values() == q.actions.Values()[i := a]
  {
    FiledIdsAreKeys(q);
    PutExistingReplaces(q.actions, i, a);
    assert q.actions.keys[i] in q.actions.keys;
  }

  lemma {:induction false} InsertAllFiles(q: Queue, actions: seq<Action>)
    requires Filed(q)
    ensures Filed(InsertAll(q, actions))
  {
    if actions != [] {
      InsertAllFiles(q, actions[..|actions| - 1]);
      var p, last := InsertAll(q, actions[..|actions| - 1]), actions[|actions| - 1];
      PutKeepsValid(p.actions, last.id, last);
    }
  }

  /** Loading keeps exactly the stored list if and only if its identifiers are distinct. */
  lemma LoadKeepsTheListIffDistinct(actions: seq<Action>, maxAttempts: int)
    ensures Filed(Load(actions, maxAttempts))
    ensures Load(actions, maxAttempts).actions.Values() == actions <==> DistinctIds(actions)
  {
    var empty := Queue(EmptyMap(), map[], InitialSequence(actions), maxAttempts);
    InsertAllFiles(empty, actions);
    FiledIdsAreKeys(Load(actions, maxAttempts));
    if DistinctIds(actions) { InsertAllLists(empty, actions); }
  }

  /** Of several stored actions with one identifier the last is kept, and of several with one
      idempotency key the last is found. */
  lemma {:induction false} LoadKeepsTheLast(q: Queue, actions: seq<Action>, i: nat)
    requires i < |actions|
    ensures (forall j :: i < j < |actions| ==> actions[j].id != actions[i].id) ==>
              InsertAll(q, actions).actions.Get(actions[i].id) == Some(actions[i])
    ensures (forall j :: i < j < |actions| ==> actions[j].idempotencyKey != actions[i].idempotencyKey) ==>
              actions[i].idempotencyKey in InsertAll(q, actions).index
              && InsertAll(q, actions).index[actions[i].idempotencyKey] == actions[i].id
  {
    var n := |actions| - 1;
    if i < n {
      LoadKeepsTheLast(q, actions[..n], i);
      assert actions[n].id == actions[i].id || actions[n].id != actions[i].id;
    }
  }

  /** One more action under an identifier of its own. */
  lemma InsertOneMore(q: Queue, a: Action)
    requires Filed(q) && forall i :: 0 <= i < |q.actions.Values()| ==> q.actions.Values()[i].id != a.id
    ensures a.id !in q.actions.data && q.actions.Put(a.id, a).Valid()
    ensures Filed(q.(actions := q.actions.Put(a.id, a)))
    ensures q.actions.Put(a.id, a).Values() == q.actions.Values() + [a]
  {
    FiledIdsAreKeys(q);
    assert a.id !in q.actions.keys;
    PutFreshAppends(q.actions, a.id, a);
  }

  lemma {:induction false} InsertAllLists(q: Queue, actions: seq<Action>)
    requires q.actions == EmptyMap() && q.index == map[] && DistinctIds(actions)
    ensures Filed(InsertAll(q, actions)) && InsertAll(q, actions).actions.Values() == actions
    ensures InsertAll(q, actions).index == IndexOf(actions)
    ensures InsertAll(q, actions).nextSequence == q.nextSequence
    ensures InsertAll(q, actions).maxAttempts == q.maxAttempts
  {
    if actions != [] {
      var init, last := actions[..|actions| - 1], actions[|actions| - 1];
      InsertAllLists(q, init);
      InsertOneMore(InsertAll(q, init), last);
      assert actions == init + [last];
    }
  }

  /** A queue loaded from a list with distinct identifiers and keys is coherent. */
  lemma LoadIsCoherent(actions: seq<Action>, maxAttempts: int)
    requires DistinctIds(actions) && DistinctKeys(actions)
    ensures Coherent(Load(actions, maxAttempts)) && Load(actions, maxAttempts).actions.Values() == actions
  {
    InsertAllLists(Queue(EmptyMap(), map[], InitialSequence(actions), maxAttempts), actions);
  }

  /** Restarting from its own snapshot gives a coherent queue back unchanged: the same
      actions in the same order, the same index and the same next sequence number. */
  lemma RestartIsExact(q: Queue)
    requires Coherent(q)
    ensures Load(q.actions.Values(), q.maxAttempts) == q
  {
    FiledIdsAreKeys(q);
    var s := q.actions.Values();
    LoadIsCoherent(s, q.maxAttempts);
    var p := Load(s, q.maxAttempts);
    InsertAllLists(Queue(EmptyMap(), map[], InitialSequence(s), q.maxAttempts), s);
    FiledIdsAreKeys(p);
    assert |p.actions.keys| == |p.actions.Values()| == |q.actions.keys|;
    assert p.actions.keys == q.actions.keys;
    forall id | id in q.actions.data ensures id in p.actions.data && p.actions.data[id] == q.actions.data[id] {
      var i :| 0 <= i < |q.actions.keys| && q.actions.keys[i] == id;
      assert p.actions.Values()[i] == q.actions.Values()[i] && p.actions.keys[i] == id;
      assert id in p.actions.keys;
    }
    assert forall id :: id in p.actions.data ==> id in q.actions.keys;
    assert p.actions.data.Keys == q.actions.data.Keys;
    assert p.actions.data == q.actions.data;
  }

  // ----- fresh identifiers -----

  lemma NewIdParsesBack(n: int)
    ensures SequenceOf(NewId(n)) == Some(n)
  {
    ShowParsesBack(n);
    assert NewId(n)[|PREFIX|..] == Show(n);
  }

  lemma {:induction false} MaxSequenceBounds(actions: seq<Action>, i: nat)
    requires i < |actions| && SequenceOf(actions[i].id).Some?
    ensures MaxSequence(actions).Some? && SequenceOf(actions[i].id).value <= MaxSequence(actions).value
  {
    if i < |actions| - 1 { MaxSequenceBounds(actions[..|actions| - 1], i); }
  }

  /** The identifier a coherent queue hands out next is not the identifier of any action. */
  lemma NewIdIsFresh(q: Queue)
    requires Coherent(q)
    ensures NewId(q.nextSequence) !in q.actions.data
    ensures forall i :: 0 <= i < |q.actions.keys| ==> q.actions.Values()[i].id != NewId(q.nextSequence)
  {
    NewIdParsesBack(q.nextSequence);
    FiledIdsAreKeys(q);
    forall i | 0 <= i < |q.actions.keys| ensures q.actions.Values()[i].id != NewId(q.nextSequence) {
      if SequenceOf(q.actions.Values()[i].id).Some? { MaxSequenceBounds(q.actions.Values(), i); }
    }
  }

  lemma {:induction false} LargestIsAttained(actions: seq<Action>)
    ensures MaxSequence(actions).Some? ==>
              exists i :: 0 <= i < |actions| && SequenceOf(actions[i].id) == MaxSequence(actions)
    ensures MaxSequence(actions).None? ==> forall i :: 0 <= i < |actions| ==> SequenceOf(actions[i].id).None?
  {
    if actions != [] {
      var n := |actions| - 1;
      LargestIsAttained(actions[..n]);
      if MaxSequence(actions) == SequenceOf(actions[n].id) {
        assert SequenceOf(actions[n].id) == MaxSequence(actions);
      } else {
        var i :| 0 <= i < n && SequenceOf(actions[..n][i].id) == MaxSequence(actions[..n]);
        assert SequenceOf(actions[i].id) == MaxSequence(actions);
      }
    }
  }

  /** Sequence numbers are handed out without gaps: the next one follows the largest number
      in use, and is 1 when no identifier carries a number. */
  lemma NextFollowsTheLargest(actions: seq<Action>)
    ensures (forall i :: 0 <= i < |actions| ==> SequenceOf(actions[i].id).None?) ==> InitialSequence(actions) == 1
    ensures (exists i :: 0 <= i < |actions| && SequenceOf(actions[i].id).Some?) ==>
              exists i :: 0 <= i < |actions| && SequenceOf(actions[i].id) == Some(InitialSequence(actions) - 1)
    ensures forall i :: 0 <= i < |actions| && SequenceOf(actions[i].id).Some? ==>
              SequenceOf(actions[i].id).value < InitialSequence(actions)
  {
    LargestIsAttained(actions);
    forall i | 0 <= i < |actions| && SequenceOf(actions[i].id).Some?
      ensures MaxSequence(actions).Some? && SequenceOf(actions[i].id).value < InitialSequence(actions)
    {
      MaxSequenceBounds(actions, i);
    }
  }

  // ----- the index -----

  lemma {:induction false} IndexFindsKeys(s: seq<Action>, key: string)
    ensures key in IndexOf(s) <==> exists i :: 0 <= i < |s| && s[i].idempotencyKey == key
    ensures key in IndexOf(s) ==> exists i :: 0 <= i < |s| && s[i].idempotencyKey == key && s[i].id == IndexOf(s)[key]
  {
    if s != [] {
      var init := s[..|s| - 1];
      IndexFindsKeys(init, key);
      if s[|s| - 1].idempotencyKey == key {
        assert s[|s| - 1].idempotencyKey == key;
      } else if key in IndexOf(init) {
        var i :| 0 <= i < |init| && init[i].idempotencyKey == key && init[i].id == IndexOf(init)[key];
        assert s[i].idempotencyKey == key;
      }
    }
  }

  /** Changing attempts and status of one action does not affect index or sequence. */
  lemma {:induction false} IndexIgnoresProgress(s: seq<Action>, t: seq<Action>)
    requires |s| == |t|
    requires forall i :: 0 <= i < |s| ==> s[i].id == t[i].id && s[i].idempotencyKey == t[i].idempotencyKey
    ensures IndexOf(s) == IndexOf(t) && MaxSequence(s) == MaxSequence(t)
  {
    if s != [] { IndexIgnoresProgress(s[..|s| - 1], t[..|t| - 1]); }
  }

  /** In a coherent queue, enqueueing either finds the action with that key or appends one. */
  lemma EnqueueAppendsOrFinds(q: Queue, input: NewAction)
    requires Coherent(q)
    ensures var (p, a) := Enqueue(q, input);
            && Coherent(p) && p.maxAttempts == q.maxAttempts
            && a.idempotencyKey == input.idempotencyKey && a in p.actions.Values()
            && if exists b :: b in q.actions.Values() && b.idempotencyKey == input.idempotencyKey
               then p == q
               else && p.actions.Values() == q.actions.Values() + [Made(q, input)] && a == Made(q, input)
                    && a.intentType == input.intentType && a.payload == input.payload
                    && a.attempts == 0 && a.status == Pending
                    && a.id == "offline-" + Show(q.nextSequence) && p.nextSequence == q.nextSequence + 1
  {
    var s := q.actions.Values();
    FiledIdsAreKeys(q);
    IndexFindsKeys(s, input.idempotencyKey);
    if input.idempotencyKey in q.index {
      var i :| 0 <= i < |s| && s[i].idempotencyKey == input.idempotencyKey && s[i].id == q.index[input.idempotencyKey];
      assert q.actions.keys[i] in q.actions.keys;
      assert Existing(q, input.idempotencyKey) == Some(s[i]);
      assert s[i] in s;
    } else {
      AppendIsCoherent(q, input);
    }
  }

  lemma IndexOneMore(s: seq<Action>, a: Action)
    requires DistinctKeys(s) && a.idempotencyKey !in IndexOf(s)
    ensures DistinctKeys(s + [a]) && IndexOf(s + [a]) == IndexOf(s)[a.idempotencyKey := a.id]
    ensures forall b :: b in s ==> b.idempotencyKey != a.idempotencyKey
  {
    IndexFindsKeys(s, a.idempotencyKey);
    assert (s + [a])[..|s|] == s;
  }

  lemma SequenceOneMore(s: seq<Action>, a: Action)
    requires SequenceOf(a.id) == Some(InitialSequence(s))
    ensures InitialSequence(s + [a]) == InitialSequence(s) + 1
  {
    assert (s + [a])[..|s|] == s;
  }

  lemma AppendIsCoherent(q: Queue, input: NewAction)
    requires Coherent(q) && input.idempotencyKey !in q.index
    ensures var p := Enqueue(q, input).0;
            && Coherent(p) && p.actions.Values() == q.actions.Values() + [Made(q, input)]
            && (forall b :: b in q.actions.Values() ==> b.idempotencyKey != input.idempotencyKey)
  {
    var s, a := q.actions.Values(), Made(q, input);
    NewIdIsFresh(q);
    NewIdParsesBack(q.nextSequence);
    InsertOneMore(q, a);
    IndexOneMore(s, a);
    SequenceOneMore(s, a);
  }

  /** Progress of one action keeps a queue coherent. */
  lemma ProgressIsCoherent(q: Queue, i: nat, a: Action)
    requires Coherent(q) && i < |q.actions.keys|
    requires a.id == q.actions.Values()[i].id && a.idempotencyKey == q.actions.Values()[i].idempotencyKey
    ensures var p := q.(actions := q.actions.Put(a.id, a));
            Coherent(p) && p.actions.keys == q.actions.keys && p.actions.Values() == q.actions.Values()[i := a]
  {
    PutAtPosition(q, i, a);
    IndexIgnoresProgress(q.actions.Values(), q.actions.Values()[i := a]);
  }

  // ----- flushing -----

  /** One action after one delivery attempt. */
  function Attempted(a: Action, maxAttempts: int, delivered: bool): Action {
    if delivered then Leased(a).(status := Succeeded) else AfterFailure(Leased(a), true, maxAttempts)
  }

  /** Lease, dispatch, mark, and report the action. */
  function Flush(q: Queue, delivered: bool): (Queue, Option<Action>)
    requires q.actions.Valid()
  {
    var (p, leased) := Lease(q);
    if leased.None? then (q, None)
    else
      var r := if delivered then MarkSucceeded(p, leased.value.id).0 else MarkFailed(p, leased.value.id, true).0;
      (r, r.actions.Get(leased.value.id))
  }

  /** A flush is one attempt at the first ready action and nothing else. */
  lemma FlushIsOneAttempt(q: Queue, delivered: bool)
    requires Coherent(q)
    ensures var s := q.actions.Values();
            var i := FirstReady(s);
            var (p, r) := Flush(q, delivered);
            && Coherent(p) && p.maxAttempts == q.maxAttempts && p.actions.keys == q.actions.keys
            && if i == |s| then p == q && r == None
               else p.actions.Values() == s[i := Attempted(s[i], q.maxAttempts, delivered)]
                    && r == Some(Attempted(s[i], q.maxAttempts, delivered))
  {
    var s := q.actions.Values();
    var i := FirstReady(s);
    if i < |s| {
      LeaseTakesTheFirst(q);
      var p := Lease(q).0;
      var done := Attempted(s[i], q.maxAttempts, delivered);
      ProgressIsCoherent(p, i, done);
      assert s[i := Leased(s[i])][i := done] == s[i := done];
    }
  }

  lemma LeaseTakesTheFirst(q: Queue)
    requires Coherent(q) && FirstReady(q.actions.Values()) < |q.actions.Values()|
    ensures var s := q.actions.Values();
            var i := FirstReady(s);
            var (p, r) := Lease(q);
            && Coherent(p) && p.maxAttempts == q.maxAttempts && p.actions.keys == q.actions.keys
            && p.actions.Values() == s[i := Leased(s[i])]
            && p.actions.Get(s[i].id) == r == Some(Leased(s[i]))
  {
    var s := q.actions.Values();
    var i := FirstReady(s);
    ProgressIsCoherent(q, i, Leased(s[i]));
    FiledIdsAreKeys(q);
    assert q.actions.keys[i] in q.actions.keys;
  }

  class OfflineActionQueue {
    const maxAttempts: int
    var actions: OrderedMap<string, Action>
    var idempotencyIndex: map<string, string>
    var nextSequence: int

    ghost function State(): Queue
      reads this
    {
      Queue(actions, idempotencyIndex, nextSequence, maxAttempts)
    }

    constructor (maxAttempts: int, initialActions: seq<Action>)
      ensures State() == Load(initialActions, maxAttempts) && Filed(State())
    {
      this.maxAttempts := maxAttempts;
      actions, idempotencyIndex := EmptyMap(), map[];
      nextSequence := InitialSequence(initialActions);
      new;
      ghost var empty := State();
      for i := 0 to |initialActions|
        invariant State() == InsertAll(empty, initialActions[..i])
      {
        assert initialActions[..i + 1][..i] == initialActions[..i];
        var action := initialActions[i];
        actions := actions.Put(action.id, action);
        idempotencyIndex := idempotencyIndex[action.idempotencyKey := action.id];
      }
      assert initialActions[..|initialActions|] == initialActions;
      InsertAllFiles(empty, initialActions);
    }

    method EnqueueAction(input: NewAction) returns (r: Action)
      requires Filed(State())
      modifies this
      ensures (State(), r) == Enqueue(old(State()), input) && Filed(State())
    {
      if input.idempotencyKey in idempotencyIndex {
        var existing := actions.Get(idempotencyIndex[input.idempotencyKey]);
        if existing.Some? {
          return existing.value;
        }
      }
      r := Action(NewId(nextSequence), input.idempotencyKey, input.intentType, input.payload, 0, Pending);
      PutKeepsValid(actions, r.id, r);
      nextSequence := nextSequence + 1;
      actions := actions.Put(r.id, r);
      idempotencyIndex := idempotencyIndex[r.idempotencyKey := r.id];
    }

    method LeaseNext() returns (r: Option<Action>)
      requires Filed(State())
      modifies this
      ensures (State(), r) == Lease(old(State())) && Filed(State())
    {
      var values := actions.Values();
      var i := FirstReady(values);
      if i == |values| {
        return None;
      }
      var leased := values[i].(attempts := values[i].attempts + 1, status := InFlight);
      PutKeepsValid(actions, leased.id, leased);
      actions := actions.Put(leased.id, leased);
      return Some(leased);
    }

    method MarkActionSucceeded(id: string) returns (updated: bool)
      requires Filed(State())
      modifies this
      ensures (State(), updated) == MarkSucceeded(old(State()), id) && Filed(State())
    {
      var current := actions.Get(id);
      if current.None? {
        return false;
      }
      PutKeepsValid(actions, id, current.value.(status := Succeeded));
      actions := actions.Put(id, current.value.(status := Succeeded));
      return true;
    }

    method MarkActionFailed(id: string, retryable: bool) returns (updated: bool)
      requires Filed(State())
      modifies this
      ensures (State(), updated) == MarkFailed(old(State()), id, retryable) && Filed(State())
    {
      var current := actions.Get(id);
      if current.None? {
        return false;
      }
      var nextStatus := if retryable && current.value.attempts < maxAttempts then RetryScheduled else Failed;
      PutKeepsValid(actions, id, current.value.(status := nextStatus));
      actions := actions.Put(id, current.value.(status := nextStatus));
      return true;
    }

    method Snapshot() returns (s: seq<Action>)
      requires Filed(State())
      ensures s == actions.Values()
    {
      s := actions.Values();
    }
  }

  class InMemoryOfflineActionStore {
    var persistedActions: seq<Action>

    constructor (initialActions: seq<Action>)
      ensures persistedActions == initialActions
    {
      persistedActions := initialActions;
    }

    method SaveAll(actions: seq<Action>)
      modifies this
      ensures persistedActions == actions
    {
      persistedActions := actions;
    }
  }

  /** Every change is written through; a coherent queue stays equal to its stored list. */
  class PersistentOfflineActionQueue {
    const store: InMemoryOfflineActionStore
    const queue: OfflineActionQueue

    ghost function State(): Queue
      reads queue
    {
      queue.State()
    }

    /** The stored list is the snapshot. */
    ghost predicate Mirrored()
      reads queue, store
    {
      Filed(State()) && store.persistedActions == State().actions.Values()
    }

    constructor (store: InMemoryOfflineActionStore, maxAttempts: int)
      ensures this.store == store && fresh(queue)
      ensures State() == Load(store.persistedActions, maxAttempts) && Filed(State())
      ensures Mirrored() <==> DistinctIds(store.persistedActions)
      ensures DistinctIds(store.persistedActions) && DistinctKeys(store.persistedActions) ==> Coherent(State())
    {
      this.store := store;
      queue := new OfflineActionQueue(maxAttempts, store.persistedActions);
      new;
      LoadKeepsTheListIffDistinct(store.persistedActions, maxAttempts);
      if DistinctIds(store.persistedActions) && DistinctKeys(store.persistedActions) {
        LoadIsCoherent(store.persistedActions, maxAttempts);
      }
    }

    method Persist()
      requires Filed(State())
      modifies store
      ensures Mirrored()
    {
      var snapshot := queue.Snapshot();
      store.SaveAll(snapshot);
    }

    method EnqueueAction(input: NewAction) returns (r: Action)
      requires Filed(State())
      modifies queue, store
      ensures (State(), r) == Enqueue(old(State()), input) && Mirrored()
    {
      r := queue.EnqueueAction(input);
      Persist();
    }

    method LeaseNext() returns (r: Option<Action>)
      requires Filed(State())
      modifies queue, store
      ensures (State(), r) == Lease(old(State())) && Filed(State())
      ensures r.Some? || old(Mirrored()) ==> Mirrored()
    {
      r := queue.LeaseNext();
      if r.Some? {
        Persist();
      }
    }

    method MarkActionSucceeded(id: string) returns (updated: bool)
      requires Filed(State())
      modifies queue, store
      ensures (State(), updated) == MarkSucceeded(old(State()), id) && Filed(State())
      ensures updated || old(Mirrored()) ==> Mirrored()
    {
      updated := queue.MarkActionSucceeded(id);
      if updated {
        Persist();
      }
    }

    method MarkActionFailed(id: string, retryable: bool) returns (updated: bool)
      requires Filed(State())
      modifies queue, store
      ensures (State(), updated) == MarkFailed(old(State()), id, retryable) && Filed(State())
      ensures updated || old(Mirrored()) ==> Mirrored()
    {
      updated := queue.MarkActionFailed(id, retryable);
      if updated {
        Persist();
      }
    }
  }

  /** The driver. `delivered` is what the dispatch callback will answer. */
  method FlushNextOfflineAction(queue: PersistentOfflineActionQueue, replayEnabled: bool, delivered: bool)
    returns (r: Option<Action>)
    requires Filed(queue.State())
    modifies queue.queue, queue.store
    ensures (queue.State(), r) ==
              if replayEnabled then Flush(old(queue.State()), delivered) else (old(queue.State()), None)
    ensures Filed(queue.State())
    ensures r.Some? || old(queue.Mirrored()) ==> queue.Mirrored()
  {
    if !replayEnabled {
      return None;
    }
    var leased := queue.LeaseNext();
    if leased.None? {
      return None;
    }
    if delivered {
      var _ := queue.MarkActionSucceeded(leased.value.id);
    } else {
      var _ := queue.MarkActionFailed(leased.value.id, true);
    }
    var snapshot := queue.queue.Snapshot();
    FiledIdsAreKeys(queue.State());
    r := FirstWithId(snapshot, leased.value.id);
    FirstWithIdIsGet(queue.State(), leased.value.id);
  }

  function FirstWithId(s: seq<Action>, id: string): Option<Action> {
    if s == [] then None else if s[0].id == id then Some(s[0]) else FirstWithId(s[1..], id)
  }

  lemma {:induction false} FirstWithIdFinds(s: seq<Action>, i: nat)
    requires i < |s| && DistinctIds(s)
    ensures FirstWithId(s, s[i].id) == Some(s[i])
  {
    if i > 0 {
      FirstWithIdFinds(s[1..], i - 1);
      assert s[0].id != s[i].id;
    }
  }

  lemma FirstWithIdIsGet(q: Queue, id: string)
    requires Filed(q) && id in q.actions.data
    ensures FirstWithId(q.actions.Values(), id) == q.actions.Get(id)
  {
    FiledIdsAreKeys(q);
    var i :| 0 <= i < |q.actions.keys| && q.actions.keys[i] == id;
    FirstWithIdFinds(q.actions.Values(), i);
  }
}
