/** The two refresh-session stores of the identity service and the rotation over them. */
module SessionStores {
  import opened Collections
  import opened DocumentStore

  datatype Session = Session(
    token: string, userId: string, familyId: string, used: bool, revoked: bool, expiresAt: int)

  datatype StoreOp = Save(session: Session) | MarkUsed(token: string) | RevokeFamily(familyId: string)

  // ----- the store with a family index -----

  datatype Indexed = Indexed(byToken: map<string, Session>, families: map<string, set<string>>)

  function Family(i: Indexed, f: string): set<string> {
    if f in i.families then i.families[f] else {}
  }

  function RevokeTokens(byToken: map<string, Session>, tokens: set<string>): map<string, Session> {
    map t | t in byToken :: if t in tokens then byToken[t].(revoked := true) else byToken[t]
  }

  function ApplyIndexed(i: Indexed, op: StoreOp): Indexed {
    match op
    case Save(r) =>
      Indexed(i.byToken[r.token := r], i.families[r.familyId := Family(i, r.familyId) + {r.token}])
    case MarkUsed(t) =>
      if t !in i.byToken then i else i.(byToken := i.byToken[t := i.byToken[t].(used := true)])
    case RevokeFamily(f) => i.(byToken := RevokeTokens(i.byToken, Family(i, f)))
  }

  // ----- the store that scans its documents -----

  type Scanned = OrderedMap<string, Session>

  function RevokeWhere(data: map<string, Session>, f: string): map<string, Session> {
    map t | t in data :: if data[t].familyId == f then data[t].(revoked := true) else data[t]
  }

  function ApplyScanned(s: Scanned, op: StoreOp): Scanned {
    match op
    case Save(r) => s.Put(r.token, r)
    case MarkUsed(t) => if t !in s.data then s else s.Put(s.data[t].token, s.data[t].(used := true))
    case RevokeFamily(f) => s.(data := RevokeWhere(s.data, f))
  }

  function RunIndexed(i: Indexed, ops: seq<StoreOp>): Indexed {
    if ops == [] then i else ApplyIndexed(RunIndexed(i, ops[..|ops| - 1]), ops[|ops| - 1])
  }

  function RunScanned(s: Scanned, ops: seq<StoreOp>): Scanned {
    if ops == [] then s else ApplyScanned(RunScanned(s, ops[..|ops| - 1]), ops[|ops| - 1])
  }

  const EMPTY_INDEXED := Indexed(map[], map[])

  // ----- refinement -----

  /** Every save of a token already stored keeps its family. */
  ghost predicate TokensKeepFamilies(ops: seq<StoreOp>) {
    forall a, b ::
      0 <= a < b < |ops| && ops[a].Save? && ops[b].Save? && ops[a].session.token == ops[b].session.token ==>
        ops[a].session.familyId == ops[b].session.familyId
  }

  /** Equal records, and an index that lists the members of each family and no other record. */
  ghost predicate Agree(i: Indexed, s: Scanned) {
    && i.byToken == s.data
    && (forall t :: t in s.data ==> s.data[t].token == t)
    && (forall f, t :: t in Family(i, f) <==> t in i.byToken && i.byToken[t].familyId == f)
  }

  lemma ApplyKeepsAgree(i: Indexed, s: Scanned, op: StoreOp)
    requires Agree(i, s)
    requires op.Save? && op.session.token in s.data ==> s.data[op.session.token].familyId == op.session.familyId
    ensures Agree(ApplyIndexed(i, op), ApplyScanned(s, op))
  {
    var j := ApplyIndexed(i, op);
    forall f, t ensures t in Family(j, f) <==> t in j.byToken && j.byToken[t].familyId == f {
      assert t in Family(i, f) <==> t in i.byToken && i.byToken[t].familyId == f;
    }
  }

  lemma {:induction false} StoredFamilyWasSaved(ops: seq<StoreOp>, t: string)
    requires t in RunScanned(EmptyMap(), ops).data
    ensures exists a :: 0 <= a < |ops| && ops[a].Save? && ops[a].session.token == t &&
                        ops[a].session.familyId == RunScanned(EmptyMap(), ops).data[t].familyId
    ensures RunScanned(EmptyMap(), ops).data[t].token == t
  {
    var n := |ops| - 1;
    if ops[n].Save? && ops[n].session.token == t {
    } else {
      forall u | u in RunScanned(EmptyMap(), ops[..n]).data
        ensures RunScanned(EmptyMap(), ops[..n]).data[u].token == u
      {
        StoredFamilyWasSaved(ops[..n], u);
      }
      StoredFamilyWasSaved(ops[..n], t);
      var a :| 0 <= a < n && ops[..n][a].Save? && ops[..n][a].session.token == t &&
               ops[..n][a].session.familyId == RunScanned(EmptyMap(), ops[..n]).data[t].familyId;
      assert ops[a] == ops[..n][a];
    }
  }

  /** After any same sequence of operations in which a token keeps one family, both stores
      answer every look-up alike. */
  lemma {:induction false} StoresAnswerAlike(ops: seq<StoreOp>)
    requires TokensKeepFamilies(ops)
    ensures Agree(RunIndexed(EMPTY_INDEXED, ops), RunScanned(EmptyMap(), ops))
  {
    if ops != [] {
      var n := |ops| - 1;
      StoresAnswerAlike(ops[..n]);
      if ops[n].Save? && ops[n].session.token in RunScanned(EmptyMap(), ops[..n]).data {
        StoredFamilyWasSaved(ops[..n], ops[n].session.token);
      }
      ApplyKeepsAgree(RunIndexed(EMPTY_INDEXED, ops[..n]), RunScanned(EmptyMap(), ops[..n]), ops[n]);
    }
  }

  /** From equal records and an index that misses no member, revoking a family gives equal
      records exactly when the index lists no unrevoked token of another family. */
  lemma RevocationAgreesIff(i: Indexed, s: Scanned, f: string)
    requires i.byToken == s.data
    requires forall t :: t in i.byToken && i.byToken[t].familyId == f ==> t in Family(i, f)
    ensures ApplyIndexed(i, RevokeFamily(f)).byToken == ApplyScanned(s, RevokeFamily(f)).data <==>
              forall t :: t in Family(i, f) && t in i.byToken && i.byToken[t].familyId != f ==> i.byToken[t].revoked
  {
    var a, b := ApplyIndexed(i, RevokeFamily(f)).byToken, ApplyScanned(s, RevokeFamily(f)).data;
    if a == b {
      forall t | t in Family(i, f) && t in i.byToken && i.byToken[t].familyId != f ensures i.byToken[t].revoked {
        assert a[t] == b[t];
      }
    }
  }

  /** A token saved again under another family stays in the old family's index set, and
      revoking the old family then revokes it in one store only. */
  lemma MovedTokenTellsThemApart(r: Session, f: string)
    requires !r.revoked && r.familyId != f
    ensures var ops := [Save(r.(familyId := f)), Save(r), RevokeFamily(f)];
            var i, s := RunIndexed(EMPTY_INDEXED, ops), RunScanned(EmptyMap(), ops);
            && r.token in i.byToken && i.byToken[r.token].revoked
            && r.token in s.data && !s.data[r.token].revoked
  {
    var a, b, c := Save(r.(familyId := f)), Save(r), RevokeFamily(f);
    TwoOps(EMPTY_INDEXED, a, b);
    assert [a, b, c][..2] == [a, b] && [a, b][..1] == [a] && [a][..0] == [];
    assert RunScanned(EmptyMap(), [a]) == ApplyScanned(EmptyMap(), a);
    assert RunScanned(EmptyMap(), [a, b]) == ApplyScanned(RunScanned(EmptyMap(), [a]), b);
  }

  lemma OneOp(i: Indexed, op: StoreOp)
    ensures RunIndexed(i, [op]) == ApplyIndexed(i, op)
  {
    assert [op][..0] == [];
  }

  lemma TwoOps(i: Indexed, a: StoreOp, b: StoreOp)
    ensures RunIndexed(i, [a, b]) == ApplyIndexed(ApplyIndexed(i, a), b)
  {
    OneOp(i, a);
    assert [a, b][..1] == [a];
  }

  // ----- the classes -----

  class InMemorySessionStore {
    var byToken: map<string, Session>
    var tokenFamilies: map<string, set<string>>

    ghost function State(): Indexed
      reads this
    {
      Indexed(byToken, tokenFamilies)
    }

    constructor ()
      ensures State() == EMPTY_INDEXED
    {
      byToken, tokenFamilies := map[], map[];
    }

    method SaveSession(session: Session)
      modifies this
      ensures State() == ApplyIndexed(old(State()), Save(session))
    {
      byToken := byToken[session.token := session];
      var family := if session.familyId in tokenFamilies then tokenFamilies[session.familyId] else {};
      tokenFamilies := tokenFamilies[session.familyId := family + {session.token}];
    }

    method Get(token: string) returns (r: Option<Session>)
      ensures r == if token in byToken then Some(byToken[token]) else None
    {
      r := if token in byToken then Some(byToken[token]) else None;
    }

    method MarkSessionUsed(token: string)
      modifies this
      ensures State() == ApplyIndexed(old(State()), MarkUsed(token))
    {
      if token !in byToken {
        return;
      }
      byToken := byToken[token := byToken[token].(used := true)];
    }

    method RevokeSessions(familyId: string)
      modifies this
      ensures State() == ApplyIndexed(old(State()), RevokeFamily(familyId))
    {
      if familyId !in tokenFamilies {
        return;
      }
      var todo := tokenFamilies[familyId];
      ghost var all := todo;
      ghost var seen: set<string> := {};
      while todo != {}
        invariant seen + todo == all && tokenFamilies == old(tokenFamilies)
        invariant byToken == RevokeTokens(old(byToken), seen)
        decreases todo
      {
        var token :| token in todo;
        todo, seen := todo - {token}, seen + {token};
        if token in byToken {
          byToken := byToken[token := byToken[token].(revoked := true)];
        }
      }
    }
  }

  /** A record once the first `n` documents have been visited. */
  function RevokedRecord(s: Scanned, f: string, n: nat, t: string): Session
    requires n <= |s.keys| && t in s.data
  {
    if t in s.keys[..n] && s.data[t].familyId == f then s.data[t].(revoked := true) else s.data[t]
  }

  function RevokedUpTo(s: Scanned, f: string, n: nat): Scanned
    requires n <= |s.keys|
  {
    s.(data := map t | t in s.data :: RevokedRecord(s, f, n, t))
  }

  lemma RevokeOneMoreRecord(s: Scanned, f: string, n: nat, t: string)
    requires s.Valid() && n < |s.keys| && t in s.data
    ensures RevokedRecord(s, f, n + 1, t) ==
              if t == s.keys[n] && s.data[t].familyId == f then s.data[t].(revoked := true)
              else RevokedRecord(s, f, n, t)
  {
    assert s.keys[..n + 1] == s.keys[..n] + [s.keys[n]];
  }

  lemma RevokeOneMore(s: Scanned, f: string, n: nat)
    requires s.Valid() && n < |s.keys|
    ensures s.keys[n] in s.data
    ensures RevokedUpTo(s, f, n + 1) ==
              var k := s.keys[n];
              if s.data[k].familyId == f then RevokedUpTo(s, f, n).Put(k, s.data[k].(revoked := true))
              else RevokedUpTo(s, f, n)
  {
    var k := s.keys[n];
    assert k in s.keys;
    var before, after := RevokedUpTo(s, f, n).data, RevokedUpTo(s, f, n + 1).data;
    forall t | t in s.data
      ensures after[t] == if t == k && s.data[k].familyId == f then s.data[k].(revoked := true) else before[t]
    {
      RevokeOneMoreRecord(s, f, n, t);
    }
    if s.data[k].familyId == f {
      assert after == before[k := s.data[k].(revoked := true)];
    } else {
      assert after == before;
    }
  }

  lemma AllRevoked(s: Scanned, f: string)
    requires s.Valid()
    ensures RevokedUpTo(s, f, |s.keys|) == s.(data := RevokeWhere(s.data, f))
    ensures s.(data := RevokeWhere(s.data, f)).Valid()
  {
    assert s.keys[..|s.keys|] == s.keys;
  }

  const NAMESPACE := "identity.refresh_sessions"

  class PersistentSessionStore {
    const store: InMemoryDocumentStore<Session>

    ghost function State(): Scanned
      reads store
    {
      store.Documents(NAMESPACE)
    }

    ghost predicate Valid()
      reads store
    {
      State().Valid() && forall t :: t in State().data ==> State().data[t].token == t
    }

    constructor (store: InMemoryDocumentStore<Session>)
      ensures this.store == store
    {
      this.store := store;
    }

    method SaveSession(session: Session)
      requires Valid()
      modifies store
      ensures State() == ApplyScanned(old(State()), Save(session)) && Valid()
    {
      store.Put(NAMESPACE, session.token, session);
      PutKeepsValid(old(State()), session.token, session);
    }

    method Get(token: string) returns (r: Option<Session>)
      ensures r == State().Get(token)
    {
      r := store.Get(NAMESPACE, token);
    }

    method MarkSessionUsed(token: string)
      requires Valid()
      modifies store
      ensures State() == ApplyScanned(old(State()), MarkUsed(token)) && Valid()
    {
      var record := Get(token);
      if record.None? {
        return;
      }
      SaveSession(record.value.(used := true));
    }

    method RevokeSessions(familyId: string)
      requires Valid()
      modifies store
      ensures State() == ApplyScanned(old(State()), RevokeFamily(familyId)) && Valid()
    {
      var keys, values := store.ListEntries(NAMESPACE);
      ghost var before := State();
      for i := 0 to |keys|
        invariant State() == RevokedUpTo(before, familyId, i)
      {
        RevokeOneMore(before, familyId, i);
        if values[i].familyId == familyId {
          store.Put(NAMESPACE, keys[i], values[i].(revoked := true));
        }
      }
      AllRevoked(before, familyId);
    }
  }
}

/** Login and refresh of the identity service. */
module IdentityAuth {
  import opened Collections
  import opened SessionStores

  datatype User = User(id: string, passwordHash: string, privileged: bool)

  datatype AuthError =
    | InvalidCredentials | MfaRequired | InvalidMfaCode | InvalidRefreshToken | RefreshReplayDetected

  const LIFETIME := 30 * 24 * 60 * 60

  function LoginVerdict(user: Option<User>, passwordHash: string, mfaCode: Option<string>): Option<AuthError> {
    if user.None? || user.value.passwordHash != passwordHash then Some(InvalidCredentials)
    else if user.value.privileged && (mfaCode.None? || mfaCode.value == "") then Some(MfaRequired)
    else if user.value.privileged && mfaCode.value != "123456" then Some(InvalidMfaCode)
    else None
  }

  datatype IssueReason = AtLogin | AtRefresh

  /** What the service puts on the event bus. */
  datatype SessionIssued = SessionIssued(userId: string, reason: IssueReason)

  function NewSession(token: string, userId: string, family: string, now: int): Session {
    Session(token, userId, family, false, false, now + LIFETIME)
  }

  function RefreshVerdict(byToken: map<string, Session>, token: string, now: int): Option<AuthError> {
    if token !in byToken || byToken[token].expiresAt < now || byToken[token].revoked then Some(InvalidRefreshToken)
    else if byToken[token].used then Some(RefreshReplayDetected)
    else None
  }

  /** The store operations of a login and of a refresh. The user of a session may be gone. */
  function LoginOps(user: Option<User>, passwordHash: string, mfaCode: Option<string>,
                    token: string, family: string, now: int): seq<StoreOp>
  {
    if LoginVerdict(user, passwordHash, mfaCode).Some? then []
    else [Save(NewSession(token, user.value.id, family, now))]
  }

  function RefreshOps(byToken: map<string, Session>, token: string, userExists: bool, newToken: string, now: int)
    : seq<StoreOp>
  {
    match RefreshVerdict(byToken, token, now)
    case Some(RefreshReplayDetected) => [RevokeFamily(byToken[token].familyId)]
    case Some(_) => []
    case None =>
      [MarkUsed(token)] +
      if userExists then [Save(NewSession(newToken, byToken[token].userId, byToken[token].familyId, now))] else []
  }

  function LoginEvents(user: Option<User>, passwordHash: string, mfaCode: Option<string>): seq<SessionIssued> {
    if LoginVerdict(user, passwordHash, mfaCode).Some? then [] else [SessionIssued(user.value.id, AtLogin)]
  }

  function RefreshEvents(byToken: map<string, Session>, token: string, userExists: bool, now: int): seq<SessionIssued> {
    if RefreshVerdict(byToken, token, now).Some? || !userExists then []
    else [SessionIssued(byToken[token].userId, AtRefresh)]
  }

  class AuthService {
    const store: InMemorySessionStore
    var events: seq<SessionIssued>

    constructor (store: InMemorySessionStore)
      ensures this.store == store && events == []
    {
      this.store, events := store, [];
    }

    /** `familyId` is absent for a new family, which then is the random `newFamily`. */
    method IssueSession(userId: string, reason: IssueReason, familyId: Option<string>,
                        token: string, newFamily: string, now: int)
      returns (r: string)
      modifies store, this`events
      ensures var family := if familyId.Some? then familyId.value else newFamily;
              store.State() == ApplyIndexed(old(store.State()), Save(NewSession(token, userId, family, now)))
      ensures events == old(events) + [SessionIssued(userId, reason)]
      ensures r == token
    {
      var family := if familyId.Some? then familyId.value else newFamily;
      store.SaveSession(Session(token, userId, family, false, false, now + LIFETIME));
      events := events + [SessionIssued(userId, reason)];
      return token;
    }

    /** `token` and `family` are random; `user` is what the look-up by e-mail found. */
    method Login(user: Option<User>, passwordHash: string, mfaCode: Option<string>,
                 token: string, family: string, now: int)
      returns (r: Result<string, AuthError>)
      modifies store, this`events
      ensures store.State() == RunIndexed(old(store.State()), LoginOps(user, passwordHash, mfaCode, token, family, now))
      ensures events == old(events) + LoginEvents(user, passwordHash, mfaCode)
      ensures r == match LoginVerdict(user, passwordHash, mfaCode) case Some(e) => Err(e) case None => Ok(token)
    {
      if user.None? || user.value.passwordHash != passwordHash {
        return Err(InvalidCredentials);
      }
      if user.value.privileged {
        if mfaCode.None? || mfaCode.value == "" {
          return Err(MfaRequired);
        }
        if mfaCode.value != "123456" {
          return Err(InvalidMfaCode);
        }
      }
      OneOp(store.State(), Save(NewSession(token, user.value.id, family, now)));
      var issued := IssueSession(user.value.id, AtLogin, None, token, family, now);
      return Ok(issued);
    }

    method Refresh(token: string, userExists: bool, newToken: string, now: int) returns (r: Result<string, AuthError>)
      requires forall t :: t in store.byToken ==> store.byToken[t].token == t
      modifies store, this`events
      ensures store.State() ==
                RunIndexed(old(store.State()), RefreshOps(old(store.byToken), token, userExists, newToken, now))
      ensures events == old(events) + RefreshEvents(old(store.byToken), token, userExists, now)
      ensures r == match RefreshVerdict(old(store.byToken), token, now)
                   case Some(e) => Err(e)
                   case None => if userExists then Ok(newToken) else Err(InvalidRefreshToken)
    {
      ghost var before := store.State();
      var found := store.Get(token);
      if found.None? {
        return Err(InvalidRefreshToken);
      }
      var record := found.value;
      if record.expiresAt < now || record.revoked {
        return Err(InvalidRefreshToken);
      }
      if record.used {
        store.RevokeSessions(record.familyId);
        OneOp(before, RevokeFamily(record.familyId));
        return Err(RefreshReplayDetected);
      }
      store.MarkSessionUsed(record.token);
      if !userExists {
        OneOp(before, MarkUsed(token));
        return Err(InvalidRefreshToken);
      }
      var issued := IssueSession(record.userId, AtRefresh, Some(record.familyId), newToken, "", now);
      TwoOps(before, MarkUsed(token), Save(NewSession(newToken, record.userId, record.familyId, now)));
      return Ok(issued);
    }
  }

  // ----- runs -----

  datatype Step =
    | LogIn(user: Option<User>, passwordHash: string, mfaCode: Option<string>, newToken: string, familyId: string,
            at: int)
    | RefreshToken(token: string, userExists: bool, newToken: string, at: int)

  /** The store with the tokens issued and the events published so far, oldest first. */
  datatype Issued = Issued(store: Indexed, tokens: seq<string>, events: seq<SessionIssued>)

  function OpsOf(x: Issued, step: Step): seq<StoreOp> {
    match step
    case LogIn(user, hash, mfa, token, family, now) => LoginOps(user, hash, mfa, token, family, now)
    case RefreshToken(token, userExists, newToken, now) => RefreshOps(x.store.byToken, token, userExists, newToken, now)
  }

  function PublishedBy(x: Issued, step: Step): seq<SessionIssued> {
    match step
    case LogIn(user, hash, mfa, _, _, _) => LoginEvents(user, hash, mfa)
    case RefreshToken(token, userExists, _, now) => RefreshEvents(x.store.byToken, token, userExists, now)
  }

  /** Random tokens and families never repeat. */
  predicate Enabled(x: Issued, step: Step) {
    step.newToken !in x.store.byToken && (step.LogIn? ==> step.familyId !in x.store.families)
  }

  function Take(x: Issued, step: Step): Issued {
    if !Enabled(x, step) then x
    else
      var ops := OpsOf(x, step);
      Issued(RunIndexed(x.store, ops),
             x.tokens + (if ops != [] && ops[|ops| - 1].Save? then [step.newToken] else []),
             x.events + PublishedBy(x, step))
  }

  function Run(x: Issued, steps: seq<Step>): Issued {
    if steps == [] then x else Take(Run(x, steps[..|steps| - 1]), steps[|steps| - 1])
  }

  const NOTHING_ISSUED := Issued(EMPTY_INDEXED, [], [])

  /** Every token but the newest of its family is used; families are indexed exactly. */
  ghost predicate Rotated(i: Indexed, tokens: seq<string>) {
    && (forall t :: t in tokens <==> t in i.byToken)
    && Distinct(tokens)
    && (forall t :: t in i.byToken ==> i.byToken[t].token == t)
    && (forall f, t :: t in Family(i, f) <==> t in i.byToken && i.byToken[t].familyId == f)
    && (forall f :: f in i.families ==> Family(i, f) != {})
    && NewestOnly(i.byToken, tokens)
  }

  ghost predicate NewestOnly(byToken: map<string, Session>, tokens: seq<string>)
    requires forall t :: t in tokens ==> t in byToken
  {
    forall i, j :: 0 <= i < j < |tokens| && byToken[tokens[i]].familyId == byToken[tokens[j]].familyId ==>
      byToken[tokens[i]].used && byToken[tokens[i]].userId == byToken[tokens[j]].userId
  }

  /** Changing only flags of records, and only upwards, changes no membership. */
  lemma FlagsKeepRotated(i: Indexed, byToken: map<string, Session>, tokens: seq<string>)
    requires Rotated(i, tokens) && byToken.Keys == i.byToken.Keys
    requires forall t :: t in byToken ==>
               var a, b := i.byToken[t], byToken[t];
               b.token == a.token && b.userId == a.userId && b.familyId == a.familyId && (a.used ==> b.used)
    ensures Rotated(i.(byToken := byToken), tokens)
  {
    var j := i.(byToken := byToken);
    forall t ensures t in tokens <==> t in byToken { assert t in byToken <==> t in byToken.Keys; }
    forall f, t ensures t in Family(j, f) <==> t in byToken && byToken[t].familyId == f {
      assert t in Family(i, f) <==> t in i.byToken && i.byToken[t].familyId == f;
    }
  }

  /** Saving a new token whose family has only used tokens of the same user. */
  lemma SaveKeepsRotated(i: Indexed, r: Session, tokens: seq<string>)
    requires Rotated(i, tokens) && r.token !in i.byToken
    requires forall t :: t in i.byToken && i.byToken[t].familyId == r.familyId ==>
               i.byToken[t].used && i.byToken[t].userId == r.userId
    ensures Rotated(ApplyIndexed(i, Save(r)), tokens + [r.token])
  {
    var j := ApplyIndexed(i, Save(r));
    var longer := tokens + [r.token];
    forall f, t ensures t in Family(j, f) <==> t in j.byToken && j.byToken[t].familyId == f {
      assert t in Family(i, f) <==> t in i.byToken && i.byToken[t].familyId == f;
    }
    forall t ensures t in longer <==> t in j.byToken {
      assert t in tokens <==> t in i.byToken;
    }
    forall a, b | 0 <= a < b < |longer| && j.byToken[longer[a]].familyId == j.byToken[longer[b]].familyId
      ensures j.byToken[longer[a]].used && j.byToken[longer[a]].userId == j.byToken[longer[b]].userId
    {
      assert longer[a] == tokens[a] && tokens[a] in tokens;
      if b < |tokens| { assert longer[b] == tokens[b] && tokens[b] in tokens; }
    }
  }

  lemma RefreshKeepsRotated(x: Issued, step: Step)
    requires Rotated(x.store, x.tokens) && Enabled(x, step) && step.RefreshToken?
    requires RefreshVerdict(x.store.byToken, step.token, step.at).None?
    ensures Rotated(Take(x, step).store, Take(x, step).tokens)
  {
    var r := x.store.byToken[step.token];
    var marked := ApplyIndexed(x.store, MarkUsed(step.token));
    FlagsKeepRotated(x.store, marked.byToken, x.tokens);
    OneOp(x.store, MarkUsed(step.token));
    var ops := OpsOf(x, step);
    if step.userExists {
      var fresh' := NewSession(step.newToken, r.userId, r.familyId, step.at);
      TwoOps(x.store, MarkUsed(step.token), Save(fresh'));
      assert ops == [MarkUsed(step.token), Save(fresh')];
      forall t | t in marked.byToken && marked.byToken[t].familyId == r.familyId
        ensures marked.byToken[t].used && marked.byToken[t].userId == r.userId
      {
        UnusedIsUnique(x.store, x.tokens, t, step.token);
      }
      SaveKeepsRotated(marked, fresh', x.tokens);
    } else {
      assert ops == [MarkUsed(step.token)];
      assert x.tokens + [] == x.tokens;
    }
  }

  lemma UnusedIsUnique(i: Indexed, tokens: seq<string>, t: string, u: string)
    requires Rotated(i, tokens) && t in i.byToken && u in i.byToken
    requires i.byToken[t].familyId == i.byToken[u].familyId && !i.byToken[u].used
    ensures i.byToken[t].userId == i.byToken[u].userId
    ensures t == u || i.byToken[t].used
  {
    assert t in tokens && u in tokens;
    var a :| 0 <= a < |tokens| && tokens[a] == t;
    var b :| 0 <= b < |tokens| && tokens[b] == u;
  }

  lemma TakeKeepsRotated(x: Issued, step: Step)
    requires Rotated(x.store, x.tokens)
    ensures Rotated(Take(x, step).store, Take(x, step).tokens)
  {
    var ops := OpsOf(x, step);
    if !Enabled(x, step) || ops == [] {
      assert x.tokens + [] == x.tokens;
    } else {
      match step
      case LogIn(user, _, _, token, family, now) =>
        OneOp(x.store, ops[0]);
        assert Family(x.store, family) == {};
        SaveKeepsRotated(x.store, NewSession(token, user.value.id, family, now), x.tokens);
      case RefreshToken(token, _, _, now) =>
        if RefreshVerdict(x.store.byToken, token, now).None? {
          RefreshKeepsRotated(x, step);
        } else {
          OneOp(x.store, ops[0]);
          FlagsKeepRotated(x.store, ApplyIndexed(x.store, ops[0]).byToken, x.tokens);
          assert x.tokens + [] == x.tokens;
        }
    }
  }

  /** In every run, of two tokens of one family the older one is used, and both belong to the
      same user. */
  lemma {:induction false} AllButTheNewestAreUsed(steps: seq<Step>)
    ensures Rotated(Run(NOTHING_ISSUED, steps).store, Run(NOTHING_ISSUED, steps).tokens)
  {
    if steps != [] {
      AllButTheNewestAreUsed(steps[..|steps| - 1]);
      TakeKeepsRotated(Run(NOTHING_ISSUED, steps[..|steps| - 1]), steps[|steps| - 1]);
    }
  }

  ghost predicate Revoked(x: Issued, f: string) {
    && f in x.store.families
    && forall t :: t in x.store.byToken && x.store.byToken[t].familyId == f ==> x.store.byToken[t].revoked
  }

  lemma TakeKeepsRevoked(x: Issued, step: Step, f: string)
    requires Rotated(x.store, x.tokens) && Revoked(x, f)
    ensures Revoked(Take(x, step), f)
  {
    var ops := OpsOf(x, step);
    if Enabled(x, step) && ops != [] {
      OneOp(x.store, ops[0]);
      if |ops| == 2 {
        TwoOps(x.store, ops[0], ops[1]);
        assert ops == [ops[0], ops[1]];
      } else {
        assert ops == [ops[0]];
      }
    }
  }

  lemma {:induction false} RevokedStaysRevoked(x: Issued, steps: seq<Step>, f: string)
    requires Rotated(x.store, x.tokens) && Revoked(x, f)
    ensures Rotated(Run(x, steps).store, Run(x, steps).tokens) && Revoked(Run(x, steps), f)
  {
    if steps != [] {
      RevokedStaysRevoked(x, steps[..|steps| - 1], f);
      TakeKeepsRotated(Run(x, steps[..|steps| - 1]), steps[|steps| - 1]);
      TakeKeepsRevoked(Run(x, steps[..|steps| - 1]), steps[|steps| - 1], f);
    }
  }

  /** Once a replay is detected, every later refresh with a token of that family is refused. */
  lemma ReplayRevokesTheFamily(steps: seq<Step>, step: Step, later: seq<Step>, token: string, now: int)
    requires var x := Run(NOTHING_ISSUED, steps);
             && Enabled(x, step) && step.RefreshToken?
             && RefreshVerdict(x.store.byToken, step.token, step.at) == Some(RefreshReplayDetected)
    ensures var x := Run(NOTHING_ISSUED, steps);
            var y := Run(Take(x, step), later);
            token in y.store.byToken && y.store.byToken[token].familyId == x.store.byToken[step.token].familyId ==>
              RefreshVerdict(y.store.byToken, token, now) == Some(InvalidRefreshToken)
  {
    var x := Run(NOTHING_ISSUED, steps);
    AllButTheNewestAreUsed(steps);
    TakeKeepsRotated(x, step);
    var f := x.store.byToken[step.token].familyId;
    OneOp(x.store, RevokeFamily(f));
    assert step.token in Family(x.store, f);
    RevokedStaysRevoked(Take(x, step), later, f);
  }

  // ----- the events -----

  /** No operation changes the user or the family of a record. */
  lemma TakeKeepsOwners(x: Issued, step: Step, t: string)
    requires Rotated(x.store, x.tokens) && t in x.store.byToken
    ensures var y := Take(x, step).store;
            && t in y.byToken && y.byToken[t].userId == x.store.byToken[t].userId
            && y.byToken[t].familyId == x.store.byToken[t].familyId
  {
    var ops := OpsOf(x, step);
    if Enabled(x, step) && ops != [] {
      OneOp(x.store, ops[0]);
      if |ops| == 2 {
        TwoOps(x.store, ops[0], ops[1]);
        assert ops == [ops[0], ops[1]];
      } else {
        assert ops == [ops[0]];
      }
    }
  }

  /** A family none of whose tokens has been issued. */
  ghost predicate NewFamily(i: Indexed, f: string) {
    forall t :: t in i.byToken ==> i.byToken[t].familyId != f
  }

  /** A step issues no token and publishes nothing, or one of each. */
  lemma TakeIssues(x: Issued, step: Step)
    requires Rotated(x.store, x.tokens)
    ensures var y := Take(x, step);
            || (y.tokens == x.tokens && y.events == x.events)
            || (&& y.tokens == x.tokens + [step.newToken] && step.newToken in y.store.byToken
                && var r := y.store.byToken[step.newToken];
                   y.events == x.events +
                     [SessionIssued(r.userId, if NewFamily(x.store, r.familyId) then AtLogin else AtRefresh)])
  {
    var y := Take(x, step);
    if Enabled(x, step) && y.tokens != x.tokens {
      match step
      case LogIn(user, _, _, token, family, now) =>
        OneOp(x.store, Save(NewSession(token, user.value.id, family, now)));
        assert Family(x.store, family) == {};
        assert NewFamily(x.store, family);
      case RefreshToken(token, _, newToken, now) =>
        var r := x.store.byToken[token];
        TwoOps(x.store, MarkUsed(token), Save(NewSession(newToken, r.userId, r.familyId, now)));
        assert OpsOf(x, step) == [MarkUsed(token), Save(NewSession(newToken, r.userId, r.familyId, now))];
        assert !NewFamily(x.store, r.familyId);
    }
  }

  /** The event at a position names the user of the token there, and says login exactly when
      that token is the first of its family. */
  ghost predicate AnnouncedAt(x: Issued, i: nat)
    requires i < |x.tokens| && forall t :: t in x.tokens ==> t in x.store.byToken
  {
    var r := x.store.byToken[x.tokens[i]];
    i < |x.events|
    && x.events[i].userId == r.userId
    && (x.events[i].reason == AtLogin <==>
          forall j :: 0 <= j < i ==> x.store.byToken[x.tokens[j]].familyId != r.familyId)
  }

  ghost predicate Announced(x: Issued)
    requires forall t :: t in x.tokens ==> t in x.store.byToken
  {
    |x.events| == |x.tokens| && forall i :: 0 <= i < |x.tokens| ==> AnnouncedAt(x, i)
  }

  lemma EarlierStaysAnnounced(x: Issued, step: Step, i: nat)
    requires Rotated(x.store, x.tokens) && i < |x.tokens| && AnnouncedAt(x, i)
    requires Rotated(Take(x, step).store, Take(x, step).tokens)
    ensures i < |Take(x, step).tokens| && AnnouncedAt(Take(x, step), i)
  {
    var y := Take(x, step);
    forall j | 0 <= j <= i
      ensures x.tokens[j] in x.store.byToken && y.tokens[j] == x.tokens[j]
      ensures y.store.byToken[x.tokens[j]].userId == x.store.byToken[x.tokens[j]].userId
      ensures y.store.byToken[x.tokens[j]].familyId == x.store.byToken[x.tokens[j]].familyId
    {
      assert x.tokens[j] in x.tokens;
      TakeKeepsOwners(x, step, x.tokens[j]);
    }
  }

  lemma NewestIsAnnounced(x: Issued, step: Step)
    requires Rotated(x.store, x.tokens) && |x.events| == |x.tokens| < |Take(x, step).tokens|
    requires Rotated(Take(x, step).store, Take(x, step).tokens)
    ensures AnnouncedAt(Take(x, step), |x.tokens|)
  {
    var y := Take(x, step);
    TakeIssues(x, step);
    var f := y.store.byToken[step.newToken].familyId;
    forall j | 0 <= j < |x.tokens|
      ensures x.tokens[j] in x.store.byToken && y.tokens[j] == x.tokens[j]
      ensures y.store.byToken[x.tokens[j]].familyId == x.store.byToken[x.tokens[j]].familyId
    {
      assert x.tokens[j] in x.tokens;
      TakeKeepsOwners(x, step, x.tokens[j]);
    }
    if t :| t in x.store.byToken && x.store.byToken[t].familyId == f {
      assert t in x.tokens;
      var j :| 0 <= j < |x.tokens| && x.tokens[j] == t;
      assert y.store.byToken[y.tokens[j]].familyId == f;
    }
  }

  lemma TakeKeepsAnnounced(x: Issued, step: Step)
    requires Rotated(x.store, x.tokens) && Announced(x)
    ensures Rotated(Take(x, step).store, Take(x, step).tokens) && Announced(Take(x, step))
  {
    TakeKeepsRotated(x, step);
    TakeIssues(x, step);
    forall i | 0 <= i < |Take(x, step).tokens| ensures AnnouncedAt(Take(x, step), i) {
      if i < |x.tokens| { EarlierStaysAnnounced(x, step, i); } else { NewestIsAnnounced(x, step); }
    }
  }

  /** In every run there is exactly one event per session issued, in order; it names the
      session's user and says login exactly for the first session of a family. */
  lemma {:induction false} EverySessionIsAnnounced(steps: seq<Step>)
    ensures Rotated(Run(NOTHING_ISSUED, steps).store, Run(NOTHING_ISSUED, steps).tokens)
    ensures Announced(Run(NOTHING_ISSUED, steps))
  {
    if steps != [] {
      EverySessionIsAnnounced(steps[..|steps| - 1]);
      TakeKeepsAnnounced(Run(NOTHING_ISSUED, steps[..|steps| - 1]), steps[|steps| - 1]);
    }
  }

  // ----- the same rotation over the scanning store -----

  /** The service over the scanning store: every decision is taken on that store's records. */
  function TakeOverDocuments(s: Scanned, step: Step): Scanned {
    match step
    case LogIn(user, hash, mfa, token, family, now) => RunScanned(s, LoginOps(user, hash, mfa, token, family, now))
    case RefreshToken(token, userExists, newToken, now) =>
      RunScanned(s, RefreshOps(s.data, token, userExists, newToken, now))
  }

  function RunOverDocuments(steps: seq<Step>): Scanned {
    if steps == [] then EmptyMap()
    else
      var before, x := RunOverDocuments(steps[..|steps| - 1]), Run(NOTHING_ISSUED, steps[..|steps| - 1]);
      if Enabled(x, steps[|steps| - 1]) then TakeOverDocuments(before, steps[|steps| - 1]) else before
  }

  lemma RefreshKeepsAgree(i: Indexed, s: Scanned, token: string, userExists: bool, newToken: string, now: int)
    requires Agree(i, s) && newToken !in i.byToken
    ensures Agree(RunIndexed(i, RefreshOps(i.byToken, token, userExists, newToken, now)),
                  RunScanned(s, RefreshOps(s.data, token, userExists, newToken, now)))
  {
    var ops := RefreshOps(i.byToken, token, userExists, newToken, now);
    if ops != [] {
      OneOpAgrees(i, s, ops[0]);
      if |ops| == 1 {
        assert ops == [ops[0]];
      } else {
        assert ops == [ops[0], ops[1]];
        TwoOpsAgree(i, s, ops[0], ops[1]);
      }
    }
  }

  lemma LoginKeepsAgree(i: Indexed, s: Scanned, r: Session)
    requires Agree(i, s) && r.token !in i.byToken
    ensures Agree(RunIndexed(i, [Save(r)]), RunScanned(s, [Save(r)]))
  {
    OneOpAgrees(i, s, Save(r));
  }

  lemma TakeKeepsAgree(x: Issued, s: Scanned, step: Step)
    requires Agree(x.store, s) && Enabled(x, step)
    ensures Agree(RunIndexed(x.store, OpsOf(x, step)), TakeOverDocuments(s, step))
  {
    match step
    case LogIn(user, hash, mfa, token, family, now) =>
      if LoginVerdict(user, hash, mfa).None? {
        LoginKeepsAgree(x.store, s, NewSession(token, user.value.id, family, now));
      }
    case RefreshToken(token, userExists, newToken, now) =>
      RefreshKeepsAgree(x.store, s, token, userExists, newToken, now);
  }

  lemma OneOpAgrees(i: Indexed, s: Scanned, op: StoreOp)
    requires Agree(i, s) && (op.Save? ==> op.session.token !in s.data)
    ensures Agree(ApplyIndexed(i, op), ApplyScanned(s, op))
    ensures RunIndexed(i, [op]) == ApplyIndexed(i, op) && RunScanned(s, [op]) == ApplyScanned(s, op)
  {
    OneOp(i, op);
    assert [op][..0] == [];
    ApplyKeepsAgree(i, s, op);
  }

  lemma TwoOpsAgree(i: Indexed, s: Scanned, a: StoreOp, b: StoreOp)
    requires Agree(ApplyIndexed(i, a), ApplyScanned(s, a)) && (b.Save? ==> b.session.token !in ApplyScanned(s, a).data)
    ensures Agree(RunIndexed(i, [a, b]), RunScanned(s, [a, b]))
  {
    TwoOps(i, a, b);
    assert [a, b][..1] == [a] && [a][..0] == [];
    assert RunScanned(s, [a]) == ApplyScanned(s, a);
    assert RunScanned(s, [a, b]) == ApplyScanned(RunScanned(s, [a]), b);
    ApplyKeepsAgree(ApplyIndexed(i, a), ApplyScanned(s, a), b);
  }

  /** In every run of logins and refreshes the service over the scanning store holds the same
      records, and so gives the same verdicts, as over the indexed one. */
  lemma {:induction false} BothStoresRotateAlike(steps: seq<Step>)
    ensures Agree(Run(NOTHING_ISSUED, steps).store, RunOverDocuments(steps))
  {
    if steps != [] {
      BothStoresRotateAlike(steps[..|steps| - 1]);
      var x := Run(NOTHING_ISSUED, steps[..|steps| - 1]);
      if Enabled(x, steps[|steps| - 1]) {
        TakeKeepsAgree(x, RunOverDocuments(steps[..|steps| - 1]), steps[|steps| - 1]);
      }
    }
  }
}
