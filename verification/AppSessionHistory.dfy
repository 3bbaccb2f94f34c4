/** Which steps the refresh tokens of the app sessions stem from, and which refreshes succeed. */
module AppSessionHistory {
  import opened Collections
  import opened AppSessions

  /** The step that issued the token: its times, trace and random values. */
  predicate IssuedBy(r: Record, step: Step, ttl: int) {
    && r.tokenHash == step.newHash && r.issuedAt == step.at && r.expiresAt == step.at + ttl
    && r.traceId == step.traceId
    && r.sessionId == step.draw.sessionId && r.refreshTokenId == step.draw.refreshTokenId
  }

  /** The step that opened the family, for the principal of all its tokens. */
  predicate OpenedBy(r: Record, step: Step) {
    step.IssueSession? && step.familyId == r.familyId && step.principal == r.principal
  }

  /** Whoever presents a token of the family made it used at that time. */
  predicate PresentedIn(s: Store, r: Record, step: Step) {
    && step.RefreshSession? && r.usedAt == Some(step.at)
    && step.hash in s.byHash && s.byHash[step.hash].familyId == r.familyId
  }

  ghost predicate Stems(steps: seq<Step>, s: Store, r: Record, ttl: int) {
    && (exists k :: 0 <= k < |steps| && IssuedBy(r, steps[k], ttl))
    && (exists k :: 0 <= k < |steps| && OpenedBy(r, steps[k]))
    && (r.usedAt.Some? ==> exists k :: 0 <= k < |steps| && PresentedIn(s, r, steps[k]))
  }

  /** Records keep what they were issued with, and are never lost. */
  ghost predicate Keeps(s: Store, t: Store) {
    forall h :: h in s.byHash ==>
      h in t.byHash && t.byHash[h] == s.byHash[h].(usedAt := t.byHash[h].usedAt)
  }

  lemma {:induction false} StemsLonger(steps: seq<Step>, step: Step, s: Store, t: Store, r: Record, q: Record,
                                       ttl: int)
    requires Stems(steps, s, r, ttl) && Keeps(s, t) && q == r.(usedAt := q.usedAt)
    requires q.usedAt == r.usedAt || PresentedIn(t, q, step)
    ensures Stems(steps + [step], t, q, ttl)
  {
    var longer := steps + [step];
    var i :| 0 <= i < |steps| && IssuedBy(r, steps[i], ttl);
    assert IssuedBy(q, longer[i], ttl);
    var o :| 0 <= o < |steps| && OpenedBy(r, steps[o]);
    assert OpenedBy(q, longer[o]);
    if q.usedAt.Some? {
      if PresentedIn(t, q, step) {
        assert PresentedIn(t, q, longer[|steps|]);
      } else {
        var p :| 0 <= p < |steps| && PresentedIn(s, r, steps[p]);
        assert PresentedIn(t, q, longer[p]);
      }
    }
  }

  lemma {:induction false} NewStems(steps: seq<Step>, step: Step, s: Store, t: Store, r: Record, opener: Record,
                                    ttl: int)
    requires IssuedBy(r, step, ttl) && r.usedAt.None?
    requires OpenedBy(r, step) ||
             (Stems(steps, s, opener, ttl) && opener.familyId == r.familyId && opener.principal == r.principal)
    ensures Stems(steps + [step], t, r, ttl)
  {
    var longer := steps + [step];
    assert IssuedBy(r, longer[|steps|], ttl);
    if OpenedBy(r, step) {
      assert OpenedBy(r, longer[|steps|]);
    } else {
      var o :| 0 <= o < |steps| && OpenedBy(opener, steps[o]);
      assert OpenedBy(r, longer[o]);
    }
  }

  ghost predicate AllStem(steps: seq<Step>, s: Store, ttl: int) {
    forall h :: h in s.byHash ==> s.byHash[h].tokenHash == h && Stems(steps, s, s.byHash[h], ttl)
  }

  lemma TakeKeeps(s: Store, step: Step, ttl: int)
    requires Enabled(s, step)
    ensures Keeps(s, Take(s, step, ttl))
  {
  }

  /** What a step leaves under a hash: the record that was there, perhaps used by the step, or
      the one the step issues. */
  lemma TakenRecord(s: Store, step: Step, ttl: int, h: string)
    requires Rotating(s) && Enabled(s, step) && h in Take(s, step, ttl).byHash
    ensures var t := Take(s, step, ttl);
            var q := t.byHash[h];
            || (h in s.byHash && (q.usedAt == s.byHash[h].usedAt || PresentedIn(t, q, step)))
            || (h !in s.byHash && IssuedBy(q, step, ttl) && q.usedAt.None?
                && (OpenedBy(q, step)
                    || (step.RefreshSession? && step.hash in s.byHash
                        && s.byHash[step.hash].familyId == q.familyId
                        && s.byHash[step.hash].principal == q.principal)))
  {
  }

  lemma {:induction false} TakeStems(steps: seq<Step>, s: Store, step: Step, ttl: int)
    requires Rotating(s) && AllStem(steps, s, ttl)
    ensures AllStem(steps + [step], Take(s, step, ttl), ttl)
  {
    var t := Take(s, step, ttl);
    forall h | h in t.byHash ensures t.byHash[h].tokenHash == h && Stems(steps + [step], t, t.byHash[h], ttl) {
      if !Enabled(s, step) {
        StemsLonger(steps, step, s, s, s.byHash[h], s.byHash[h], ttl);
      } else {
        TakenRecord(s, step, ttl, h);
        if h in s.byHash {
          TakeKeeps(s, step, ttl);
          StemsLonger(steps, step, s, t, s.byHash[h], t.byHash[h], ttl);
        } else {
          NewStems(steps, step, s, t, t.byHash[h],
                   if step.RefreshSession? then s.byHash[step.hash] else t.byHash[h], ttl);
        }
      }
    }
  }

  lemma {:induction false} StepStems(steps: seq<Step>, ttl: int)
    requires steps != [] && AllStem(steps[..|steps| - 1], Run(EMPTY_STORE, steps[..|steps| - 1], ttl), ttl)
    ensures AllStem(steps, Run(EMPTY_STORE, steps, ttl), ttl)
  {
    var init, step := steps[..|steps| - 1], steps[|steps| - 1];
    var s := Run(EMPTY_STORE, init, ttl);
    assert init + [step] == steps && Run(EMPTY_STORE, steps, ttl) == Take(s, step, ttl);
    FamiliesRotate(init, ttl);
    TakeStems(init, s, step, ttl);
  }

  /** In every run each token was issued by a step of that time and trace, for the principal
      the family was opened for, and was used only when a token of its family was presented. */
  lemma {:induction false} TokensStemFromSteps(steps: seq<Step>, ttl: int)
    ensures AllStem(steps, Run(EMPTY_STORE, steps, ttl), ttl)
  {
    if steps != [] {
      TokensStemFromSteps(steps[..|steps| - 1], ttl);
      StepStems(steps, ttl);
    }
  }

  /** Opening a session stores an unused token in a family of its own. */
  lemma {:induction false} OpeningIssuesAToken(steps: seq<Step>, ttl: int, step: Step)
    requires step.IssueSession? && Enabled(Run(EMPTY_STORE, steps, ttl), step)
    ensures var t := Take(Run(EMPTY_STORE, steps, ttl), step, ttl);
            && step.newHash in t.byHash && t.byHash[step.newHash].usedAt.None?
            && IssuedBy(t.byHash[step.newHash], step, ttl) && OpenedBy(t.byHash[step.newHash], step)
            && (forall h :: h in t.byHash && t.byHash[h].familyId == step.familyId ==> h == step.newHash)
  {
    FamiliesRotate(steps, ttl);
  }

  /** The token was issued less than the time to live ago. */
  ghost predicate Alive(steps: seq<Step>, s: Store, hash: string, now: int, ttl: int) {
    && hash in s.byHash
    && (exists k :: 0 <= k < |steps| && IssuedBy(s.byHash[hash], steps[k], ttl) && now < steps[k].at + ttl)
  }

  /** The family was opened for this device, or for none. */
  ghost predicate FitsDevice(steps: seq<Step>, s: Store, hash: string, device: Option<string>) {
    && hash in s.byHash
    && (exists k :: 0 <= k < |steps| && OpenedBy(s.byHash[hash], steps[k])
                    && steps[k].principal.deviceId in {None, Some(""), device})
  }

  lemma {:induction false} AliveIff(steps: seq<Step>, s: Store, hash: string, now: int, ttl: int)
    requires AllStem(steps, s, ttl)
    ensures Alive(steps, s, hash, now, ttl) <==> hash in s.byHash && now < s.byHash[hash].expiresAt
  {
    if hash in s.byHash {
      assert Stems(steps, s, s.byHash[hash], ttl);
      var i :| 0 <= i < |steps| && IssuedBy(s.byHash[hash], steps[i], ttl);
    }
  }

  lemma {:induction false} FitsIff(steps: seq<Step>, s: Store, hash: string, device: Option<string>, ttl: int)
    requires AllStem(steps, s, ttl) && hash in s.byHash
    ensures FitsDevice(steps, s, hash, device) <==> DeviceAccepted(s.byHash[hash].principal.deviceId, device)
  {
    assert Stems(steps, s, s.byHash[hash], ttl);
    var o :| 0 <= o < |steps| && OpenedBy(s.byHash[hash], steps[o]);
    var bound := steps[o].principal.deviceId;
    if DeviceAccepted(bound, device) {
      assert bound == None || bound == Some("") || bound == device;
    }
  }

  /** In every run a refresh succeeds exactly with a token that was issued less than the time
      to live ago, from the device its session was opened on, if any, and that nobody has
      used; a used one is told to be a replay, another device the mismatch. */
  lemma {:induction false} RefreshSucceedsIff(steps: seq<Step>, ttl: int, hash: string, device: Option<string>,
                                              now: int)
    ensures var s := Run(EMPTY_STORE, steps, ttl);
            var alive, fits := Alive(steps, s, hash, now, ttl), FitsDevice(steps, s, hash, device);
            && (Verdict(s, hash, device, now) == None <==> alive && fits && s.byHash[hash].usedAt == None)
            && (Verdict(s, hash, device, now) == Some(Replayed) <==> alive && fits && s.byHash[hash].usedAt != None)
            && (Verdict(s, hash, device, now) == Some(DeviceMismatch) <==> alive && !fits)
            && (Verdict(s, hash, device, now) == Some(TokenInvalid) <==> !alive)
  {
    TokensStemFromSteps(steps, ttl);
    var s := Run(EMPTY_STORE, steps, ttl);
    AliveIff(steps, s, hash, now, ttl);
    if hash in s.byHash { FitsIff(steps, s, hash, device, ttl); }
  }
}
