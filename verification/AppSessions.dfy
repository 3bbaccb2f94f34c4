/** Refresh-token rotation of the app sessions: one live token per family, and a replay ends
    the family (section 4.14.2 of RFC 9700). */
module AppSessions {
  import opened Collections

  /** Whom a session is for; None is an unbound device. */
  datatype Principal = Principal(userId: string, role: string, persona: string, deviceId: Option<string>)

  datatype Record = Record(
    tokenHash: string, familyId: string, sessionId: string, principal: Principal, traceId: string,
    refreshTokenId: string, issuedAt: int, expiresAt: int, usedAt: Option<int>)

  /** The random values of one issue. */
  datatype Draw = Draw(sessionId: string, refreshTokenId: string, refreshToken: string)

  datatype RefreshError = TokenInvalid | DeviceMismatch | Replayed

  datatype Store = Store(byHash: map<string, Record>, hashesByFamily: map<string, set<string>>)

  const EMPTY_STORE := Store(map[], map[])

  function FamilyHashes(s: Store, family: string): set<string> {
    if family in s.hashesByFamily then s.hashesByFamily[family] else {}
  }

  function Put(s: Store, r: Record): Store {
    Store(s.byHash[r.tokenHash := r],
          s.hashesByFamily[r.familyId := FamilyHashes(s, r.familyId) + {r.tokenHash}])
  }

  function MarkUsed(s: Store, hash: string, at: int): Store {
    if hash !in s.byHash then s else s.(byHash := s.byHash[hash := s.byHash[hash].(usedAt := Some(at))])
  }

  /** The records whose hash is in `hashes` count as used from `at` on. */
  function UseAll(byHash: map<string, Record>, hashes: set<string>, at: int): map<string, Record> {
    map h | h in byHash :: if h in hashes then byHash[h].(usedAt := Some(at)) else byHash[h]
  }

  function RevokeFamily(s: Store, family: string, at: int): Store {
    s.(byHash := UseAll(s.byHash, FamilyHashes(s, family), at))
  }

  function NewRecord(hash: string, family: string, p: Principal, traceId: string, d: Draw, now: int, ttl: int): Record {
    Record(hash, family, d.sessionId, p, traceId, d.refreshTokenId, now, now + ttl, None)
  }

  predicate DeviceAccepted(bound: Option<string>, presented: Option<string>) {
    bound.None? || bound.value == "" || bound == presented
  }

  /** What a refresh answers before anything is written. */
  function Verdict(s: Store, hash: string, device: Option<string>, now: int): Option<RefreshError> {
    if hash !in s.byHash || s.byHash[hash].expiresAt <= now then Some(TokenInvalid)
    else if !DeviceAccepted(s.byHash[hash].principal.deviceId, device) then Some(DeviceMismatch)
    else if s.byHash[hash].usedAt.Some? then Some(Replayed)
    else None
  }

  function Issue(s: Store, family: string, p: Principal, traceId: string, newHash: string, d: Draw, now: int, ttl: int)
    : Store
  {
    Put(s, NewRecord(newHash, family, p, traceId, d, now, ttl))
  }

  function Refresh(s: Store, hash: string, device: Option<string>, traceId: string,
                   newHash: string, d: Draw, now: int, ttl: int): Store {
    match Verdict(s, hash, device, now)
    case Some(Replayed) => RevokeFamily(s, s.byHash[hash].familyId, now)
    case Some(_) => s
    case None =>
      Issue(MarkUsed(s, hash, now), s.byHash[hash].familyId, s.byHash[hash].principal, traceId, newHash, d, now, ttl)
  }

  // ----- runs -----

  datatype Step =
    | IssueSession(familyId: string, principal: Principal, traceId: string, newHash: string, draw: Draw, at: int)
    | RefreshSession(hash: string, deviceId: Option<string>, traceId: string, newHash: string, draw: Draw, at: int)

  /** Random families and tokens are never drawn twice. */
  predicate Enabled(s: Store, step: Step) {
    && step.newHash !in s.byHash
    && (step.IssueSession? ==> step.familyId !in s.hashesByFamily)
  }

  function Take(s: Store, step: Step, ttl: int): Store {
    if !Enabled(s, step) then s
    else
      match step
      case IssueSession(family, p, traceId, newHash, d, now) => Issue(s, family, p, traceId, newHash, d, now, ttl)
      case RefreshSession(hash, device, traceId, newHash, d, now) =>
        Refresh(s, hash, device, traceId, newHash, d, now, ttl)
  }

  function Run(s: Store, steps: seq<Step>, ttl: int): Store {
    if steps == [] then s else Take(Run(s, steps[..|steps| - 1], ttl), steps[|steps| - 1], ttl)
  }

  /** The family index is exact. */
  ghost predicate Indexed(s: Store) {
    && (forall h :: h in s.byHash ==> s.byHash[h].tokenHash == h && s.byHash[h].familyId in s.hashesByFamily)
    && (forall f, h :: f in s.hashesByFamily ==>
          (h in s.hashesByFamily[f] <==> h in s.byHash && s.byHash[h].familyId == f))
  }

  /** Members of a family: at most one unused, all for the same principal. */
  ghost predicate Kin(a: Record, b: Record) {
    a.familyId == b.familyId ==>
      && (a.usedAt.None? && b.usedAt.None? ==> a.tokenHash == b.tokenHash)
      && a.principal == b.principal
  }

  ghost predicate Rotating(s: Store) {
    && Indexed(s)
    && forall g, h :: g in s.byHash && h in s.byHash ==> Kin(s.byHash[g], s.byHash[h])
  }

  lemma IssueKeepsRotating(s: Store, r: Record)
    requires Rotating(s) && r.tokenHash !in s.byHash
    requires forall h :: h in s.byHash && s.byHash[h].familyId == r.familyId ==>
               s.byHash[h].usedAt.Some? && s.byHash[h].principal == r.principal
    ensures Rotating(Put(s, r))
  {
    var t := Put(s, r);
    forall g, h | g in t.byHash && h in t.byHash ensures Kin(t.byHash[g], t.byHash[h]) {
      if g != r.tokenHash && h != r.tokenHash { assert Kin(s.byHash[g], s.byHash[h]); }
    }
  }

  lemma UsingKeepsRotating(s: Store, hashes: set<string>, at: int)
    requires Rotating(s)
    ensures Rotating(s.(byHash := UseAll(s.byHash, hashes, at)))
  {
    var t := s.(byHash := UseAll(s.byHash, hashes, at));
    forall g, h | g in t.byHash && h in t.byHash ensures Kin(t.byHash[g], t.byHash[h]) {
      assert Kin(s.byHash[g], s.byHash[h]);
    }
  }

  lemma MarkIsUse(s: Store, hash: string, at: int)
    ensures MarkUsed(s, hash, at) == s.(byHash := UseAll(s.byHash, {hash}, at))
  {
  }

  lemma TakeKeepsRotating(s: Store, step: Step, ttl: int)
    requires Rotating(s)
    ensures Rotating(Take(s, step, ttl))
  {
    if Enabled(s, step) {
      match step
      case IssueSession(family, p, traceId, newHash, d, now) =>
        assert forall h :: h in s.byHash ==> s.byHash[h].familyId != family;
        IssueKeepsRotating(s, NewRecord(newHash, family, p, traceId, d, now, ttl));
      case RefreshSession(hash, device, traceId, newHash, d, now) =>
        match Verdict(s, hash, device, now)
        case Some(Replayed) => UsingKeepsRotating(s, FamilyHashes(s, s.byHash[hash].familyId), now);
        case Some(_) =>
        case None =>
          var r := s.byHash[hash];
          MarkIsUse(s, hash, now);
          UsingKeepsRotating(s, {hash}, now);
          var u := MarkUsed(s, hash, now);
          forall h | h in u.byHash && u.byHash[h].familyId == r.familyId
            ensures u.byHash[h].usedAt.Some? && u.byHash[h].principal == r.principal
          {
            assert Kin(s.byHash[h], s.byHash[hash]);
          }
          IssueKeepsRotating(u, NewRecord(newHash, r.familyId, r.principal, traceId, d, now, ttl));
    }
  }

  /** In every reachable state a family has at most one unused token, all its records name
      the same user, role, persona and device, and the index lists exactly its members. */
  lemma {:induction false} FamiliesRotate(steps: seq<Step>, ttl: int)
    ensures Rotating(Run(EMPTY_STORE, steps, ttl))
  {
    if steps != [] {
      FamiliesRotate(steps[..|steps| - 1], ttl);
      TakeKeepsRotating(Run(EMPTY_STORE, steps[..|steps| - 1], ttl), steps[|steps| - 1], ttl);
    }
  }

  /** A family that exists and whose tokens are all used. */
  ghost predicate Ended(s: Store, family: string) {
    family in s.hashesByFamily &&
    forall h :: h in s.byHash && s.byHash[h].familyId == family ==> s.byHash[h].usedAt.Some?
  }

  lemma {:induction false} EndedStaysEnded(s: Store, steps: seq<Step>, family: string, ttl: int)
    requires Rotating(s) && Ended(s, family)
    ensures Rotating(Run(s, steps, ttl)) && Ended(Run(s, steps, ttl), family)
  {
    if steps != [] {
      EndedStaysEnded(s, steps[..|steps| - 1], family, ttl);
      TakeKeepsRotating(Run(s, steps[..|steps| - 1], ttl), steps[|steps| - 1], ttl);
    }
  }

  /** A used token that is presented in time from its device is always detected, and from
      then on no refresh of any token of that family succeeds, in any run. */
  lemma ReplayEndsTheFamily(steps: seq<Step>, hash: string, device: Option<string>, traceId: string,
                            newHash: string, d: Draw, now: int, ttl: int,
                            later: seq<Step>, other: string, otherDevice: Option<string>, otherNow: int)
    requires Verdict(Run(EMPTY_STORE, steps, ttl), hash, device, now) == Some(Replayed)
    ensures var s := Run(EMPTY_STORE, steps, ttl);
            var t := Run(Refresh(s, hash, device, traceId, newHash, d, now, ttl), later, ttl);
            other in t.byHash && t.byHash[other].familyId == s.byHash[hash].familyId ==>
              Verdict(t, other, otherDevice, otherNow).Some?
  {
    FamiliesRotate(steps, ttl);
    var s := Run(EMPTY_STORE, steps, ttl);
    var family := s.byHash[hash].familyId;
    UsingKeepsRotating(s, FamilyHashes(s, family), now);
    EndedStaysEnded(RevokeFamily(s, family, now), later, family, ttl);
  }

  lemma {:induction false} UsedStaysUsed(s: Store, steps: seq<Step>, hash: string, ttl: int)
    requires hash in s.byHash && s.byHash[hash].usedAt.Some?
    ensures hash in Run(s, steps, ttl).byHash && Run(s, steps, ttl).byHash[hash].usedAt.Some?
  {
    if steps != [] { UsedStaysUsed(s, steps[..|steps| - 1], hash, ttl); }
  }

  /** A token is redeemed at most once, and the redemption leaves its family exactly one
      unused token: the one just issued. */
  lemma TokensAreRedeemedOnce(steps: seq<Step>, step: Step, later: seq<Step>, ttl: int,
                              device: Option<string>, now: int)
    requires var s := Run(EMPTY_STORE, steps, ttl);
             step.RefreshSession? && Enabled(s, step) && Verdict(s, step.hash, step.deviceId, step.at).None?
    ensures var s := Run(EMPTY_STORE, steps, ttl);
            var t := Take(s, step, ttl);
            && step.newHash in t.byHash && t.byHash[step.newHash].familyId == s.byHash[step.hash].familyId
            && (forall h :: h in t.byHash && t.byHash[h].familyId == s.byHash[step.hash].familyId ==>
                  (t.byHash[h].usedAt.None? <==> h == step.newHash))
            && Verdict(Run(t, later, ttl), step.hash, device, now).Some?
  {
    FamiliesRotate(steps, ttl);
    var s := Run(EMPTY_STORE, steps, ttl);
    TakeKeepsRotating(s, step, ttl);
    var t := Take(s, step, ttl);
    forall h | h in t.byHash && t.byHash[h].familyId == s.byHash[step.hash].familyId
      ensures t.byHash[h].usedAt.None? <==> h == step.newHash
    {
      assert Kin(t.byHash[h], t.byHash[step.newHash]);
    }
    UsedStaysUsed(t, later, step.hash, ttl);
  }

  class InMemoryRefreshSessionStore {
    var byHash: map<string, Record>
    var hashesByFamily: map<string, set<string>>

    ghost function State(): Store
      reads this
    {
      Store(byHash, hashesByFamily)
    }

    constructor ()
      ensures State() == EMPTY_STORE
    {
      byHash, hashesByFamily := map[], map[];
    }

    method PutRecord(record: Record)
      modifies this
      ensures State() == Put(old(State()), record)
    {
      byHash := byHash[record.tokenHash := record];
      var familyHashes := if record.familyId in hashesByFamily then hashesByFamily[record.familyId] else {};
      hashesByFamily := hashesByFamily[record.familyId := familyHashes + {record.tokenHash}];
    }

    method Get(hash: string) returns (r: Option<Record>)
      ensures r == if hash in byHash then Some(byHash[hash]) else None
    {
      r := if hash in byHash then Some(byHash[hash]) else None;
    }

    method MarkRecordUsed(hash: string, usedAt: int)
      modifies this
      ensures State() == MarkUsed(old(State()), hash, usedAt)
    {
      if hash !in byHash {
        return;
      }
      byHash := byHash[hash := byHash[hash].(usedAt := Some(usedAt))];
    }

    method RevokeFamilyAt(family: string, revokedAt: int)
      modifies this
      ensures State() == RevokeFamily(old(State()), family, revokedAt)
    {
      if family !in hashesByFamily {
        return;
      }
      var todo := hashesByFamily[family];
      ghost var all := todo;
      ghost var seen: set<string> := {};
      while todo != {}
        invariant seen + todo == all && hashesByFamily == old(hashesByFamily)
        invariant byHash == UseAll(old(byHash), seen, revokedAt)
        decreases todo
      {
        var hash :| hash in todo;
        todo, seen := todo - {hash}, seen + {hash};
        if hash in byHash {
          byHash := byHash[hash := byHash[hash].(usedAt := Some(revokedAt))];
        }
      }
    }
  }

  class AppSessionAuthService {
    const store: InMemoryRefreshSessionStore
    const refreshTtl: int
    const hashToken: string -> string

    constructor (store: InMemoryRefreshSessionStore, refreshTtl: int, hashToken: string -> string)
      ensures this.store == store && this.refreshTtl == refreshTtl && this.hashToken == hashToken
    {
      this.store, this.refreshTtl, this.hashToken := store, refreshTtl, hashToken;
    }

    method IssueInternal(family: string, p: Principal, traceId: string, d: Draw, now: int)
      modifies store
      ensures store.State() ==
                Issue(old(store.State()), family, p, traceId, hashToken(d.refreshToken), d, now, refreshTtl)
    {
      store.PutRecord(Record(hashToken(d.refreshToken), family, d.sessionId, p, traceId, d.refreshTokenId,
                             now, now + refreshTtl, None));
    }

    /** `family` is the random identifier of a new family. */
    method IssueAppSession(family: string, p: Principal, traceId: string, d: Draw, now: int) returns (token: string)
      modifies store
      ensures store.State() ==
                Issue(old(store.State()), family, p, traceId, hashToken(d.refreshToken), d, now, refreshTtl)
      ensures token == d.refreshToken
    {
      IssueInternal(family, p, traceId, d, now);
      return d.refreshToken;
    }

    method RefreshAppSession(refreshToken: string, device: Option<string>, traceId: string, d: Draw, now: int)
      returns (r: Result<string, RefreshError>)
      modifies store
      ensures store.State() == Refresh(old(store.State()), hashToken(refreshToken), device, traceId,
                                       hashToken(d.refreshToken), d, now, refreshTtl)
      ensures r == match Verdict(old(store.State()), hashToken(refreshToken), device, now)
                   case Some(error) => Err(error)
                   case None => Ok(d.refreshToken)
    {
      var hash := hashToken(refreshToken);
      var found := store.Get(hash);
      if found.None? {
        return Err(TokenInvalid);
      }
      var record := found.value;
      if record.expiresAt <= now {
        return Err(TokenInvalid);
      }
      var bound := record.principal.deviceId;
      if bound.Some? && bound.value != "" && bound != device {
        return Err(DeviceMismatch);
      }
      if record.usedAt.Some? {
        store.RevokeFamilyAt(record.familyId, now);
        return Err(Replayed);
      }
      store.MarkRecordUsed(hash, now);
      IssueInternal(record.familyId, record.principal, traceId, d, now);
      return Ok(d.refreshToken);
    }
  }
}
