/** Whole runs of the offline queue: ordered delivery, bounded attempts, draining. */
module OfflineRuns {
  import opened OfflineQueue

  datatype Step = Submit(input: NewAction) | FlushOnce(delivered: bool)

  /** One dispatch of the action at a position of the queue, and its answer. */
  datatype Attempt = Attempt(position: nat, delivered: bool)

  /** A queue together with every dispatch so far. */
  datatype Session = Session(queue: Queue, log: seq<Attempt>)

  function Act(x: Session, step: Step): Session
    requires x.queue.actions.Valid()
  {
    match step
    case Submit(input) => x.(queue := Enqueue(x.queue, input).0)
    case FlushOnce(delivered) =>
      var s := x.queue.actions.Values();
      Session(Flush(x.queue, delivered).0,
              x.log + if FirstReady(s) < |s| then [Attempt(FirstReady(s), delivered)] else [])
  }

  /** Coherence is kept, so that every further step is defined. */
  ghost function ActAll(x: Session, steps: seq<Step>): (r: Session)
    requires Coherent(x.queue)
    ensures Coherent(r.queue) && r.queue.maxAttempts == x.queue.maxAttempts
  {
    if steps == [] then x
    else
      var before := ActAll(x, steps[..|steps| - 1]);
      ActKeepsCoherent(before, steps[|steps| - 1]);
      Act(before, steps[|steps| - 1])
  }

  lemma ActKeepsCoherent(x: Session, step: Step)
    requires Coherent(x.queue)
    ensures Coherent(Act(x, step).queue) && Act(x, step).queue.maxAttempts == x.queue.maxAttempts
  {
    match step
    case Submit(input) => EnqueueAppendsOrFinds(x.queue, input);
    case FlushOnce(delivered) => FlushIsOneAttempt(x.queue, delivered);
  }

  function AtLeastOne(n: int): nat {
    if n < 1 then 1 else n
  }

  /** How often an action may still be dispatched. An action left in flight never is. */
  function Remaining(a: Action, maxAttempts: int): nat {
    if Ready(a) then AtLeastOne(maxAttempts - a.attempts) else 0
  }

  function Total(s: seq<Action>, maxAttempts: int): nat {
    if s == [] then 0 else Total(s[..|s| - 1], maxAttempts) + Remaining(s[|s| - 1], maxAttempts)
  }

  lemma {:induction false} TotalReplace(s: seq<Action>, i: nat, a: Action, m: int)
    requires i < |s|
    ensures Total(s[i := a], m) == Total(s, m) - Remaining(s[i], m) + Remaining(a, m)
  {
    var n := |s| - 1;
    if i < n {
      TotalReplace(s[..n], i, a, m);
      assert s[i := a][..n] == s[..n][i := a];
    } else {
      assert s[i := a][..n] == s[..n];
    }
  }

  /** An attempt that fails uses exactly one up, and leaves the action ready while any is left. */
  lemma AttemptUsesOneUp(a: Action, m: int, delivered: bool)
    requires Ready(a)
    ensures Remaining(Attempted(a, m, delivered), m) < Remaining(a, m)
    ensures !delivered ==> Remaining(Attempted(a, m, delivered), m) == Remaining(a, m) - 1
    ensures !delivered ==> (Ready(Attempted(a, m, delivered)) <==> Remaining(a, m) > 1)
    ensures Ready(Attempted(a, m, delivered)) || Done(Attempted(a, m, delivered))
    ensures Attempted(a, m, delivered).status != InFlight
    ensures Attempted(a, m, delivered).attempts == a.attempts + 1
    ensures delivered <==> Attempted(a, m, delivered).status == Succeeded
  {
  }

  lemma {:induction false} NoneReadyIffTotalZero(s: seq<Action>, m: int)
    ensures Total(s, m) == 0 <==> FirstReady(s) == |s|
  {
    if s != [] { NoneReadyIffTotalZero(s[..|s| - 1], m); }
  }

  function Flushes(outcomes: seq<bool>): seq<Step> {
    seq(|outcomes|, i requires 0 <= i < |outcomes| => FlushOnce(outcomes[i]))
  }

  function Left(x: Session): nat
    requires x.queue.actions.Valid()
  {
    Total(x.queue.actions.Values(), x.queue.maxAttempts)
  }

  lemma FlushShrinksTotal(x: Session, delivered: bool)
    requires Coherent(x.queue)
    ensures Coherent(Act(x, FlushOnce(delivered)).queue)
    ensures var left := Left(Act(x, FlushOnce(delivered)));
            if Left(x) == 0 then left == 0 else left < Left(x)
  {
    var s, m := x.queue.actions.Values(), x.queue.maxAttempts;
    var i := FirstReady(s);
    FlushIsOneAttempt(x.queue, delivered);
    NoneReadyIffTotalZero(s, m);
    if i < |s| {
      AttemptUsesOneUp(s[i], m, delivered);
      TotalReplace(s, i, Attempted(s[i], m, delivered), m);
    }
  }

  lemma {:induction false} FlushesShrinkTotal(x: Session, outcomes: seq<bool>)
    requires Coherent(x.queue)
    ensures var left := Left(ActAll(x, Flushes(outcomes)));
            left == 0 || left + |outcomes| <= Left(x)
  {
    if outcomes != [] {
      var n := |outcomes| - 1;
      assert Flushes(outcomes)[..n] == Flushes(outcomes[..n]);
      FlushesShrinkTotal(x, outcomes[..n]);
      FlushShrinksTotal(ActAll(x, Flushes(outcomes[..n])), outcomes[n]);
    }
  }

  /** Flushing as often as there are remaining attempts leaves nothing ready, whatever the
      answers; every action then is succeeded or failed exactly when none was in flight at
      the start. */
  lemma FlushingDrains(x: Session, outcomes: seq<bool>)
    requires Coherent(x.queue) && |outcomes| >= Left(x)
    ensures var s := ActAll(x, Flushes(outcomes)).queue.actions.Values();
            && FirstReady(s) == |s|
            && ((forall a :: a in s ==> Done(a)) <==> NoneInFlight(x.queue))
  {
    FlushesShrinkTotal(x, outcomes);
    var s := ActAll(x, Flushes(outcomes)).queue.actions.Values();
    NoneReadyIffTotalZero(s, x.queue.maxAttempts);
    if NoneInFlight(x.queue) {
      RunLeavesNoneInFlight(x, Flushes(outcomes));
    } else {
      var start := x.queue.actions.Values();
      var p :| 0 <= p < |start| && start[p].status == InFlight;
      StrandedActionsStayStranded(x, Flushes(outcomes), p);
      assert s[p] in s && !Done(s[p]);
    }
  }

  ghost predicate NoneInFlight(q: Queue)
    requires q.actions.Valid()
  {
    forall a :: a in q.actions.Values() ==> a.status != InFlight
  }

  lemma ActLeavesNoneInFlight(x: Session, step: Step)
    requires Coherent(x.queue) && NoneInFlight(x.queue)
    ensures Coherent(Act(x, step).queue) && NoneInFlight(Act(x, step).queue)
  {
    var s := x.queue.actions.Values();
    match step
    case Submit(input) => EnqueueAppendsOrFinds(x.queue, input);
    case FlushOnce(delivered) =>
      FlushIsOneAttempt(x.queue, delivered);
      if FirstReady(s) < |s| { AttemptUsesOneUp(s[FirstReady(s)], x.queue.maxAttempts, delivered); }
  }

  lemma {:induction false} RunLeavesNoneInFlight(x: Session, steps: seq<Step>)
    requires Coherent(x.queue) && NoneInFlight(x.queue)
    ensures NoneInFlight(ActAll(x, steps).queue)
  {
    if steps != [] {
      RunLeavesNoneInFlight(x, steps[..|steps| - 1]);
      ActLeavesNoneInFlight(ActAll(x, steps[..|steps| - 1]), steps[|steps| - 1]);
    }
  }

  // ----- what the dispatch log looks like -----

  function Count(log: seq<Attempt>, position: nat): nat {
    if log == [] then 0
    else Count(log[..|log| - 1], position) + if log[|log| - 1].position == position then 1 else 0
  }

  function CountDelivered(log: seq<Attempt>, position: nat): nat {
    if log == [] then 0
    else CountDelivered(log[..|log| - 1], position) +
         if log[|log| - 1] == Attempt(position, true) then 1 else 0
  }

  /** The dispatches an action may get in a run: those it has left at the start, and for an
      action submitted later as many as a new one has. */
  ghost function Allowance(start: seq<Action>, position: nat, m: int): nat {
    if position < |start| then Remaining(start[position], m) else AtLeastOne(m)
  }

  ghost predicate Accounted(start: seq<Action>, s: seq<Action>, log: seq<Attempt>, m: int, p: nat) {
    if p < |s| then
      && Count(log, p) + Remaining(s[p], m) <= Allowance(start, p, m)
      && (s[p].status != Succeeded ==> Count(log, p) + Remaining(s[p], m) == Allowance(start, p, m))
      && s[p].attempts == (if p < |start| then start[p].attempts else 0) + Count(log, p)
      && CountDelivered(log, p) ==
           (if s[p].status == Succeeded && !(p < |start| && start[p].status == Succeeded) then 1 else 0)
      && (p < |start| && start[p].status == Succeeded ==> s[p].status == Succeeded)
    else Count(log, p) == 0 && CountDelivered(log, p) == 0
  }

  /** Everything before a dispatched position is settled, and dispatches never go back. */
  ghost predicate Ordered(s: seq<Action>, log: seq<Attempt>) {
    && (forall j :: 0 <= j < |log| ==> Settled(s, log[j].position))
    && (forall j, k :: 0 <= j < k < |log| ==> log[j].position <= log[k].position)
  }

  ghost predicate Settled(s: seq<Action>, position: nat) {
    position < |s| && forall p :: 0 <= p < position ==> !Ready(s[p])
  }

  ghost predicate Explained(start: seq<Action>, x: Session)
    requires x.queue.actions.Valid()
  {
    && |start| <= |x.queue.actions.Values()|
    && (forall p: nat :: Accounted(start, x.queue.actions.Values(), x.log, x.queue.maxAttempts, p))
    && Ordered(x.queue.actions.Values(), x.log)
  }

  /** What one step does to the listed actions and to the log. */
  ghost predicate Effect(s: seq<Action>, log: seq<Attempt>, t: seq<Action>, log': seq<Attempt>, m: int, step: Step) {
    var i := FirstReady(s);
    match step
    case Submit(input) =>
      log' == log && (t == s || (|t| == |s| + 1 && t[..|s|] == s && t[|s|].attempts == 0 && t[|s|].status == Pending))
    case FlushOnce(delivered) =>
      if i == |s| then t == s && log' == log
      else t == s[i := Attempted(s[i], m, delivered)] && log' == log + [Attempt(i, delivered)]
  }

  lemma ActHasEffect(x: Session, step: Step)
    requires Coherent(x.queue)
    ensures var y := Act(x, step);
            && Coherent(y.queue) && y.queue.maxAttempts == x.queue.maxAttempts
            && Effect(x.queue.actions.Values(), x.log, y.queue.actions.Values(), y.log, x.queue.maxAttempts, step)
  {
    match step
    case Submit(input) => EnqueueAppendsOrFinds(x.queue, input);
    case FlushOnce(delivered) =>
      FlushIsOneAttempt(x.queue, delivered);
      assert x.log + [] == x.log;
  }

  lemma EffectKeepsAccounts(start: seq<Action>, s: seq<Action>, log: seq<Attempt>,
                            t: seq<Action>, log': seq<Attempt>, m: int, step: Step, p: nat)
    requires Effect(s, log, t, log', m, step) && |start| <= |s| && Accounted(start, s, log, m, p)
    ensures Accounted(start, t, log', m, p)
  {
    match step
    case Submit(_) => assert p < |s| ==> t[p] == s[p];
    case FlushOnce(delivered) =>
      var i := FirstReady(s);
      if i < |s| {
        assert log'[..|log|] == log;
        AttemptUsesOneUp(s[i], m, delivered);
      }
  }

  lemma ActKeepsAccounts(start: seq<Action>, x: Session, step: Step, p: nat)
    requires Coherent(x.queue) && |start| <= |x.queue.actions.Values()|
    requires Accounted(start, x.queue.actions.Values(), x.log, x.queue.maxAttempts, p)
    ensures var y := Act(x, step);
            && Coherent(y.queue) && |start| <= |y.queue.actions.Values()|
            && Accounted(start, y.queue.actions.Values(), y.log, y.queue.maxAttempts, p)
  {
    ActHasEffect(x, step);
    var y := Act(x, step);
    EffectKeepsAccounts(start, x.queue.actions.Values(), x.log, y.queue.actions.Values(), y.log,
                        x.queue.maxAttempts, step, p);
  }

  lemma EffectKeepsSettled(s: seq<Action>, log: seq<Attempt>, t: seq<Action>, log': seq<Attempt>,
                           m: int, step: Step, position: nat)
    requires Effect(s, log, t, log', m, step) && Settled(s, position)
    ensures Settled(t, position) && position <= FirstReady(s)
  {
    if step.Submit? {
      assert forall p :: 0 <= p < |s| ==> t[p] == s[p];
    }
  }

  lemma EffectKeepsOrder(s: seq<Action>, log: seq<Attempt>, t: seq<Action>, log': seq<Attempt>, m: int, step: Step)
    requires Effect(s, log, t, log', m, step) && Ordered(s, log)
    ensures Ordered(t, log')
  {
    forall j | 0 <= j < |log| ensures Settled(t, log[j].position) && log[j].position <= FirstReady(s) {
      EffectKeepsSettled(s, log, t, log', m, step, log[j].position);
    }
  }

  lemma {:induction false} RunIsExplained(x: Session, steps: seq<Step>)
    requires Coherent(x.queue) && x.log == []
    ensures Explained(x.queue.actions.Values(), ActAll(x, steps))
  {
    var start := x.queue.actions.Values();
    if steps != [] {
      var y := ActAll(x, steps[..|steps| - 1]);
      RunIsExplained(x, steps[..|steps| - 1]);
      ActHasEffect(y, steps[|steps| - 1]);
      EffectKeepsOrder(y.queue.actions.Values(), y.log, ActAll(x, steps).queue.actions.Values(),
                       ActAll(x, steps).log, y.queue.maxAttempts, steps[|steps| - 1]);
      ActKeepsAccounts(start, y, steps[|steps| - 1], 0);
      var z := ActAll(x, steps);
      forall p: nat ensures Accounted(start, z.queue.actions.Values(), z.log, z.queue.maxAttempts, p) {
        ActKeepsAccounts(start, y, steps[|steps| - 1], p);
      }
    }
  }

  /** In every run of submissions and flushes, dispatches go through the queue in enqueue
      order and never back; an action is dispatched at most as often as it had attempts
      left (a new one at most `maxAttempts` times, or once if that is less than one), its
      attempt counter counts them, and it is delivered at most once: exactly when it
      becomes succeeded. One that becomes failed was dispatched exactly that often, and one
      that is still ready less often. */
  lemma DeliveryIsOrderedBoundedAndOnce(x: Session, steps: seq<Step>, p: nat)
    requires Coherent(x.queue) && x.log == []
    ensures var r := ActAll(x, steps);
            var start, s, m := x.queue.actions.Values(), r.queue.actions.Values(), x.queue.maxAttempts;
            && (forall j, k :: 0 <= j < k < |r.log| ==> r.log[j].position <= r.log[k].position)
            && Count(r.log, p) <= Allowance(start, p, m)
            && CountDelivered(r.log, p) <= 1
            && (p < |s| ==> s[p].attempts == (if p < |start| then start[p].attempts else 0) + Count(r.log, p))
            && (CountDelivered(r.log, p) == 1 ==> p < |s| && s[p].status == Succeeded)
            && (p < |s| && s[p].status == Succeeded && !(p < |start| && start[p].status == Succeeded) ==>
                  CountDelivered(r.log, p) == 1)
            && (p < |s| && s[p].status == Failed && !(p < |start| && start[p].status == Failed) ==>
                  Count(r.log, p) == Allowance(start, p, m))
            && (p < |s| && Ready(s[p]) ==> Count(r.log, p) < Allowance(start, p, m))
  {
    RunIsExplained(x, steps);
    var r := ActAll(x, steps);
    assert Accounted(x.queue.actions.Values(), r.queue.actions.Values(), r.log, r.queue.maxAttempts, p);
  }

  /** At the moment of every dispatch all actions enqueued earlier are succeeded or failed,
      provided none was left in flight when the run began. */
  lemma EarlierActionsAreSettled(x: Session, steps: seq<Step>, delivered: bool)
    requires Coherent(x.queue) && NoneInFlight(x.queue)
    ensures var r := ActAll(x, steps);
            var s := r.queue.actions.Values();
            var after := Act(r, FlushOnce(delivered));
            && (after.log != r.log ==>
                  var i := after.log[|r.log|].position;
                  i < |s| && Ready(s[i]) && forall j :: 0 <= j < i ==> Done(s[j]))
            && (after.log == r.log <==> forall a :: a in s ==> Done(a))
  {
    RunLeavesNoneInFlight(x, steps);
    var r := ActAll(x, steps);
    var s := r.queue.actions.Values();
    var i := FirstReady(s);
    if i < |s| {
      assert s[i] in s && !Done(s[i]);
      assert Act(r, FlushOnce(delivered)).log[|r.log|] == Attempt(i, delivered);
      forall j | 0 <= j < i ensures Done(s[j]) { assert s[j] in s; }
    }
  }

  // ----- a process that dies during a dispatch -----

  /** The queue reloaded, under any bound, after a lease was stored and nothing else. */
  function Crashed(q: Queue, maxAttempts: int): Queue
    requires q.actions.Valid() && Lease(q).0.actions.Valid()
  {
    Load(Lease(q).0.actions.Values(), maxAttempts)
  }

  /** From every coherent queue with a ready action such a crash leaves a coherent queue
      whose leased action is in flight. */
  lemma CrashLeavesInFlight(q: Queue, maxAttempts: int)
    requires Coherent(q) && FirstReady(q.actions.Values()) < |q.actions.Values()|
    ensures var s, i := q.actions.Values(), FirstReady(q.actions.Values());
            && Lease(q).0.actions.Valid() && Coherent(Crashed(q, maxAttempts))
            && Crashed(q, maxAttempts).actions.Values() == s[i := Leased(s[i])]
            && !NoneInFlight(Crashed(q, maxAttempts))
  {
    var s, i := q.actions.Values(), FirstReady(q.actions.Values());
    LeaseTakesTheFirst(q);
    FiledIdsAreKeys(Lease(q).0);
    LoadIsCoherent(Lease(q).0.actions.Values(), maxAttempts);
    assert s[i := Leased(s[i])][i] == Leased(s[i]);
    assert Leased(s[i]) in Crashed(q, maxAttempts).actions.Values();
  }

  /** After such a crash no run of submissions and flushes ever settles that action. */
  lemma CrashedActionsAreNeverSettled(q: Queue, maxAttempts: int, steps: seq<Step>)
    requires Coherent(q) && FirstReady(q.actions.Values()) < |q.actions.Values()|
    ensures Lease(q).0.actions.Valid() && Coherent(Crashed(q, maxAttempts))
    ensures var s, i := q.actions.Values(), FirstReady(q.actions.Values());
            var t := ActAll(Session(Crashed(q, maxAttempts), []), steps).queue.actions.Values();
            i < |t| && t[i] == Leased(s[i]) && !Done(t[i])
  {
    CrashLeavesInFlight(q, maxAttempts);
    StrandedActionsStayStranded(Session(Crashed(q, maxAttempts), []), steps, FirstReady(q.actions.Values()));
  }

  /** An action in flight at the start of a run is never touched. */
  lemma {:induction false} StrandedActionsStayStranded(x: Session, steps: seq<Step>, p: nat)
    requires Coherent(x.queue) && p < |x.queue.actions.Values()| && x.queue.actions.Values()[p].status == InFlight
    ensures var s := ActAll(x, steps).queue.actions.Values();
            p < |s| && s[p] == x.queue.actions.Values()[p]
  {
    if steps != [] {
      var y := ActAll(x, steps[..|steps| - 1]);
      StrandedActionsStayStranded(x, steps[..|steps| - 1], p);
      ActHasEffect(y, steps[|steps| - 1]);
      EffectSparesInFlight(y.queue.actions.Values(), y.log, ActAll(x, steps).queue.actions.Values(),
                           ActAll(x, steps).log, y.queue.maxAttempts, steps[|steps| - 1], p);
    }
  }

  lemma EffectSparesInFlight(s: seq<Action>, log: seq<Attempt>, t: seq<Action>, log': seq<Attempt>,
                             m: int, step: Step, p: nat)
    requires Effect(s, log, t, log', m, step) && p < |s| && s[p].status == InFlight
    ensures p < |t| && t[p] == s[p]
  {
    assert step.Submit? ==> t[..|s|][p] == t[p] || t == s;
  }
}
