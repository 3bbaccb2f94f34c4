/** Which logins the identity sessions stem from, and which logins and refreshes succeed. */
module IdentityHistory {
  import opened Collections
  import opened SessionStores
  import opened IdentityAuth

  const THIRTY_DAYS := 2592000

  /** The password is the user's, and a privileged user gave the code. */
  predicate Authenticated(user: Option<User>, passwordHash: string, mfaCode: Option<string>) {
    && user.Some? && passwordHash == user.value.passwordHash
    && (user.value.privileged ==> mfaCode == Some("123456"))
  }

  /** A login succeeds exactly for a known user with the right password, and the code if the
      user is privileged. A wrong code is told apart from a missing one, which an empty one
      is, and both from wrong credentials. */
  lemma LoginSucceedsIff(user: Option<User>, passwordHash: string, mfaCode: Option<string>)
    ensures LoginVerdict(user, passwordHash, mfaCode) == None <==> Authenticated(user, passwordHash, mfaCode)
    ensures LoginVerdict(user, passwordHash, mfaCode) == Some(InvalidCredentials) <==>
              user == None || user.value.passwordHash != passwordHash
    ensures LoginVerdict(user, passwordHash, mfaCode) == Some(MfaRequired) <==>
              user != None && user.value.passwordHash == passwordHash && user.value.privileged
              && mfaCode in {None, Some("")}
    ensures LoginVerdict(user, passwordHash, mfaCode) == Some(InvalidMfaCode) <==>
              user != None && user.value.passwordHash == passwordHash && user.value.privileged
              && mfaCode !in {None, Some(""), Some("123456")}
  {
  }

  /** The step that issued the token. */
  predicate IssuedBy(r: Session, step: Step) {
    && r.token == step.newToken && r.expiresAt == step.at + THIRTY_DAYS
    && (step.RefreshToken? ==> step.userExists)
  }

  /** The login that opened the family, by the user of all its tokens. */
  predicate OpenedBy(r: Session, step: Step) {
    && step.LogIn? && step.familyId == r.familyId
    && Authenticated(step.user, step.passwordHash, step.mfaCode) && step.user.value.id == r.userId
  }

  /** The step presented this token. */
  predicate Presents(step: Step, token: string) {
    step.RefreshToken? && step.token == token
  }

  ghost predicate Stems(steps: seq<Step>, r: Session) {
    && (exists k :: 0 <= k < |steps| && IssuedBy(r, steps[k]))
    && (exists k :: 0 <= k < |steps| && OpenedBy(r, steps[k]))
    && (r.used ==> exists k :: 0 <= k < |steps| && Presents(steps[k], r.token))
  }

  lemma {:induction false} StemsLonger(steps: seq<Step>, step: Step, r: Session, q: Session)
    requires Stems(steps, r) && q == r.(used := q.used, revoked := q.revoked)
    requires q.used == r.used || Presents(step, r.token)
    ensures Stems(steps + [step], q)
  {
    var longer := steps + [step];
    var i :| 0 <= i < |steps| && IssuedBy(r, steps[i]);
    assert IssuedBy(q, longer[i]);
    var o :| 0 <= o < |steps| && OpenedBy(r, steps[o]);
    assert OpenedBy(q, longer[o]);
    if q.used {
      if Presents(step, r.token) {
        assert Presents(longer[|steps|], q.token);
      } else {
        var p :| 0 <= p < |steps| && Presents(steps[p], r.token);
        assert Presents(longer[p], q.token);
      }
    }
  }

  lemma {:induction false} NewStems(steps: seq<Step>, step: Step, r: Session, opener: Session)
    requires IssuedBy(r, step) && !r.used
    requires OpenedBy(r, step) ||
             (Stems(steps, opener) && opener.familyId == r.familyId && opener.userId == r.userId)
    ensures Stems(steps + [step], r)
  {
    var longer := steps + [step];
    assert IssuedBy(r, longer[|steps|]);
    if OpenedBy(r, step) {
      assert OpenedBy(r, longer[|steps|]);
    } else {
      var o :| 0 <= o < |steps| && OpenedBy(opener, steps[o]);
      assert OpenedBy(r, longer[o]);
    }
  }

  /** What a step leaves under a token: the record that was there, perhaps flagged, or the one
      the step issues. */
  ghost predicate Left(x: Issued, step: Step, t: string, q: Session) {
    || (t in x.store.byToken && q == x.store.byToken[t].(used := q.used, revoked := q.revoked)
        && (q.used == x.store.byToken[t].used || Presents(step, t)))
    || (t !in x.store.byToken && IssuedBy(q, step) && !q.used && !q.revoked
        && (OpenedBy(q, step)
            || (step.RefreshToken? && step.token in x.store.byToken
                && x.store.byToken[step.token].familyId == q.familyId
                && x.store.byToken[step.token].userId == q.userId)))
  }

  lemma LoginLeaves(x: Issued, step: Step, t: string)
    requires Enabled(x, step) && step.LogIn? && t in Take(x, step).store.byToken
    ensures Left(x, step, t, Take(x, step).store.byToken[t])
  {
    LoginSucceedsIff(step.user, step.passwordHash, step.mfaCode);
    if LoginVerdict(step.user, step.passwordHash, step.mfaCode).None? { OneOp(x.store, OpsOf(x, step)[0]); }
  }

  lemma RefreshLeaves(x: Issued, step: Step, t: string)
    requires Enabled(x, step) && step.RefreshToken? && t in Take(x, step).store.byToken
    requires forall u :: u in x.store.byToken ==> x.store.byToken[u].token == u
    ensures Left(x, step, t, Take(x, step).store.byToken[t])
  {
    var ops := OpsOf(x, step);
    if |ops| == 1 {
      OneOp(x.store, ops[0]);
      assert ops == [ops[0]];
    } else if |ops| == 2 {
      TwoOps(x.store, ops[0], ops[1]);
      assert ops == [ops[0], ops[1]];
    }
  }

  ghost predicate AllStem(steps: seq<Step>, x: Issued) {
    forall t :: t in x.store.byToken ==> x.store.byToken[t].token == t && Stems(steps, x.store.byToken[t])
  }

  lemma {:induction false} TakeStems(steps: seq<Step>, x: Issued, step: Step)
    requires AllStem(steps, x)
    ensures AllStem(steps + [step], Take(x, step))
  {
    var y := Take(x, step);
    forall t | t in y.store.byToken
      ensures y.store.byToken[t].token == t && Stems(steps + [step], y.store.byToken[t])
    {
      var q := y.store.byToken[t];
      if !Enabled(x, step) {
        StemsLonger(steps, step, q, q);
      } else {
        if step.LogIn? { LoginLeaves(x, step, t); } else { RefreshLeaves(x, step, t); }
        if t in x.store.byToken {
          StemsLonger(steps, step, x.store.byToken[t], q);
        } else {
          NewStems(steps, step, q, if step.RefreshToken? then x.store.byToken[step.token] else q);
          NewTokenIsTheSteps(x, step, t);
        }
      }
    }
  }

  lemma NewTokenIsTheSteps(x: Issued, step: Step, t: string)
    requires Enabled(x, step) && t in Take(x, step).store.byToken && t !in x.store.byToken
    ensures t == step.newToken
  {
    var ops := OpsOf(x, step);
    if |ops| == 1 {
      OneOp(x.store, ops[0]);
      assert ops == [ops[0]];
    } else if |ops| == 2 {
      TwoOps(x.store, ops[0], ops[1]);
      assert ops == [ops[0], ops[1]];
    }
  }

  lemma {:induction false} StepStems(steps: seq<Step>)
    requires steps != [] && AllStem(steps[..|steps| - 1], Run(NOTHING_ISSUED, steps[..|steps| - 1]))
    ensures AllStem(steps, Run(NOTHING_ISSUED, steps))
  {
    var init, step := steps[..|steps| - 1], steps[|steps| - 1];
    var x := Run(NOTHING_ISSUED, init);
    assert init + [step] == steps && Run(NOTHING_ISSUED, steps) == Take(x, step);
    TakeStems(init, x, step);
  }

  /** In every run each session stems from a login with the right password, and code if
      needed, by its very user; and a token is used only if it was presented. */
  lemma {:induction false} SessionsStemFromLogins(steps: seq<Step>)
    ensures AllStem(steps, Run(NOTHING_ISSUED, steps))
  {
    if steps != [] {
      SessionsStemFromLogins(steps[..|steps| - 1]);
      StepStems(steps);
    }
  }

  /** A login with the right credentials stores an unused token in the new family, and publishes
      one event; any other stores and publishes nothing. */
  lemma LoginIssuesAToken(x: Issued, step: Step)
    requires Enabled(x, step) && step.LogIn?
    ensures var y := Take(x, step);
            if Authenticated(step.user, step.passwordHash, step.mfaCode)
            then && y.store.byToken ==
                      x.store.byToken[step.newToken := Session(step.newToken, step.user.value.id, step.familyId,
                                                               false, false, step.at + THIRTY_DAYS)]
                 && y.tokens == x.tokens + [step.newToken] && |y.events| == |x.events| + 1
            else y == x
  {
    LoginSucceedsIff(step.user, step.passwordHash, step.mfaCode);
    if Authenticated(step.user, step.passwordHash, step.mfaCode) {
      OneOp(x.store, OpsOf(x, step)[0]);
    } else {
      assert x.tokens + [] == x.tokens && x.events + [] == x.events;
    }
  }

  /** A refresh that is not refused spends the token presented, and stores an unused one in its
      family exactly if its user still exists; a replay revokes; any other refusal changes
      nothing. */
  lemma RefreshSpendsTheToken(x: Issued, step: Step)
    requires Enabled(x, step) && step.RefreshToken?
    requires forall u :: u in x.store.byToken ==> x.store.byToken[u].token == u
    ensures var y, verdict := Take(x, step), RefreshVerdict(x.store.byToken, step.token, step.at);
            && (verdict == None ==>
                  && step.token in y.store.byToken && y.store.byToken[step.token].used
                  && (step.newToken in y.store.byToken <==> step.userExists)
                  && (step.userExists ==>
                        && y.store.byToken[step.newToken].familyId == x.store.byToken[step.token].familyId
                        && !y.store.byToken[step.newToken].used && !y.store.byToken[step.newToken].revoked))
            && (verdict == Some(RefreshReplayDetected) ==>
                  forall t :: t in y.store.byToken && t in Family(x.store, x.store.byToken[step.token].familyId) ==>
                                y.store.byToken[t].revoked)
            && (verdict == Some(InvalidRefreshToken) ==> y == x)
  {
    var ops := OpsOf(x, step);
    if |ops| == 1 {
      OneOp(x.store, ops[0]);
      assert ops == [ops[0]];
    } else if |ops| == 2 {
      TwoOps(x.store, ops[0], ops[1]);
      assert ops == [ops[0], ops[1]];
    } else {
      assert x.tokens + [] == x.tokens && x.events + [] == x.events;
    }
  }

  /** The token was issued at most thirty days ago and its family is not revoked. */
  ghost predicate Alive(steps: seq<Step>, x: Issued, token: string, now: int) {
    token in x.store.byToken && !x.store.byToken[token].revoked &&
    exists k :: 0 <= k < |steps| && IssuedBy(x.store.byToken[token], steps[k]) && now <= steps[k].at + THIRTY_DAYS
  }

  /** In every run a refresh succeeds exactly with a token issued at most thirty days ago, not
      revoked and never used; a used one is told to be a replay. */
  lemma {:induction false} RefreshSucceedsIff(steps: seq<Step>, token: string, now: int)
    ensures var x := Run(NOTHING_ISSUED, steps);
            var verdict := RefreshVerdict(x.store.byToken, token, now);
            && (verdict == None <==> Alive(steps, x, token, now) && !x.store.byToken[token].used)
            && (verdict == Some(RefreshReplayDetected) <==> Alive(steps, x, token, now) && x.store.byToken[token].used)
            && (verdict == Some(InvalidRefreshToken) <==> !Alive(steps, x, token, now))
  {
    SessionsStemFromLogins(steps);
    var x := Run(NOTHING_ISSUED, steps);
    if token in x.store.byToken {
      assert Stems(steps, x.store.byToken[token]);
      var i :| 0 <= i < |steps| && IssuedBy(x.store.byToken[token], steps[i]);
    }
  }
}
