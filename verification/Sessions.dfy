/** Sessions with rotating refresh tokens (src/sessions/index.ts), as src/api/router.ts uses them. */
module Sessions {
  // Issued tokens are fresh and their hashes are injective.

  import opened Common

  type Token = nat

  datatype Hash = Sha256(token: Token)

  datatype Session = Session(
    id: string, userId: string, deviceId: string, roleId: string, tokenFamily: string,
    refreshTokenHash: Hash, previousRefreshTokenHash: Option<Hash>, refreshGeneration: nat,
    createdAt: int, lastActivityAt: int, expiresAt: int, revoked: bool, lastIp: Option<string>, userAgent: Option<string>)

  datatype NewSessionParams = NewSessionParams(
    userId: string, deviceId: string, roleId: string, ttlDays: int, ip: Option<string>, userAgent: Option<string>)

  const DAY_MS := 86_400_000

  type Store = map<string, Session>

  datatype Rotation = UnknownToken | Revoked | Expired | Reused | NotRecognized | Rotated(sessionId: string)

  predicate Matches(s: Session, deviceId: string, hash: Hash) {
    s.deviceId == deviceId && !s.revoked && (s.refreshTokenHash == hash || s.previousRefreshTokenHash == Some(hash))
  }

  function NewSession(id: string, params: NewSessionParams, family: string, token: Token, now: int): Session {
    Session(id, params.userId, params.deviceId, params.roleId, family, Sha256(token), None, 0,
            now, now, now + params.ttlDays * DAY_MS, false, params.ip, params.userAgent)
  }

  /** What rotate answers for a session in the store. */
  function Judge(s: Session, presented: Token, now: int): Rotation {
    if s.revoked then Revoked
    else if s.expiresAt < now then Expired
    else if s.previousRefreshTokenHash == Some(Sha256(presented)) then Reused
    else if s.refreshTokenHash != Sha256(presented) then NotRecognized
    else Rotated(s.id)
  }

  function Advance(s: Session, token: Token, now: int): Session {
    s.(previousRefreshTokenHash := Some(s.refreshTokenHash), refreshTokenHash := Sha256(token),
       refreshGeneration := s.refreshGeneration + 1, lastActivityAt := now)
  }

  function Touched(s: Session, ip: Option<string>, now: int): Session {
    s.(lastActivityAt := now, lastIp := if ip.Some? then ip else s.lastIp)
  }

  datatype Scope = OneFamily(family: string) | OneUser(userId: string) | OneDevice(deviceId: string) | Everyone

  predicate InScope(scope: Scope, s: Session) {
    match scope
    case OneFamily(family) => s.tokenFamily == family
    case OneUser(userId) => s.userId == userId
    case OneDevice(deviceId) => s.deviceId == deviceId
    case Everyone => true
  }

  function RevokeScope(store: Store, scope: Scope): Store {
    map id | id in store :: if InScope(scope, store[id]) then store[id].(revoked := true) else store[id]
  }

  ghost predicate SweptExcept(before: Store, scope: Scope, todo: set<string>, now: Store) {
    now.Keys == before.Keys &&
    forall id :: id in before ==>
      now[id] == if InScope(scope, before[id]) && id !in todo then before[id].(revoked := true) else before[id]
  }

  lemma SweptStep(before: Store, scope: Scope, todo: set<string>, now: Store, id: string)
    requires SweptExcept(before, scope, todo, now) && id in before && InScope(scope, before[id])
    ensures SweptExcept(before, scope, todo - {id}, now[id := before[id].(revoked := true)])
  {}

  class SessionsService {
    var store: Store

    constructor ()
      ensures store == map[]
    {
      store := map[];
    }

    /** The id, the family and the token are drawn at random. */
    method Create(id: string, params: NewSessionParams, family: string, token: Token, now: int)
      modifies this
      ensures store == old(store)[id := NewSession(id, params, family, token, now)]
    {
      var session := Session(id, params.userId, params.deviceId, params.roleId, family, Sha256(token), None, 0,
                             now, now, now + params.ttlDays * DAY_MS, false, params.ip, params.userAgent);
      store := store[id := session];
    }

    method FindByRefreshToken(deviceId: string, presented: Token) returns (found: Option<string>)
      ensures found.Some? ==> found.value in store && Matches(store[found.value], deviceId, Sha256(presented))
      ensures found.None? ==> forall id :: id in store ==> !Matches(store[id], deviceId, Sha256(presented))
    {
      var todo := store.Keys;
      while todo != {}
        invariant todo <= store.Keys
        invariant forall id :: id in store && id !in todo ==> !Matches(store[id], deviceId, Sha256(presented))
        decreases todo
      {
        var id :| id in todo;
        if Matches(store[id], deviceId, Sha256(presented)) {
          return Some(id);
        }
        todo := todo - {id};
      }
      return None;
    }

    /** Uninterrupted: revokeFamily's loop runs to its end. */
    method Rotate(sessionId: string, presented: Token, successor: Token, now: int) returns (answer: Rotation)
      requires forall id :: id in store ==> store[id].id == id
      modifies this
      ensures sessionId !in old(store) ==> answer == UnknownToken && store == old(store)
      ensures sessionId in old(store) ==>
        && var s := old(store)[sessionId];
        && answer == Judge(s, presented, now)
        && (answer == Revoked <==> s.revoked)
        && (answer == Expired <==> !s.revoked && s.expiresAt < now)
        && (answer == Reused ==> s.previousRefreshTokenHash == Some(Sha256(presented)))
        && (answer.Rotated? ==> s.refreshTokenHash == Sha256(presented))
        && (answer == NotRecognized ==> s.previousRefreshTokenHash != Some(Sha256(presented)) && s.refreshTokenHash != Sha256(presented))
        && store == match answer
                    case Rotated(_) => old(store)[sessionId := Advance(s, successor, now)]
                    case Reused => RevokeScope(old(store), OneFamily(s.tokenFamily))
                    case _ => old(store)
    {
      if sessionId !in store {
        return UnknownToken;
      }
      var session := store[sessionId];
      if session.revoked {
        return Revoked;
      }
      if session.expiresAt < now {
        return Expired;
      }
      if session.previousRefreshTokenHash == Some(Sha256(presented)) {
        RevokeAllIn(OneFamily(session.tokenFamily));
        return Reused;
      }
      if session.refreshTokenHash != Sha256(presented) {
        return NotRecognized;
      }
      var updated := session.(previousRefreshTokenHash := Some(session.refreshTokenHash), refreshTokenHash := Sha256(successor),
                              refreshGeneration := session.refreshGeneration + 1, lastActivityAt := now);
      store := store[sessionId := updated];
      return Rotated(sessionId);
    }

    method Touch(sessionId: string, ip: Option<string>, now: int)
      modifies this
      ensures store == if sessionId in old(store) then old(store)[sessionId := Touched(old(store)[sessionId], ip, now)] else old(store)
    {
      if sessionId in store {
        var session := store[sessionId];
        store := store[sessionId := session.(lastActivityAt := now, lastIp := if ip.Some? then ip else session.lastIp)];
      }
    }

    method Revoke(sessionId: string)
      modifies this
      ensures store == if sessionId in old(store) then old(store)[sessionId := old(store)[sessionId].(revoked := true)] else old(store)
    {
      if sessionId in store {
        store := store[sessionId := store[sessionId].(revoked := true)];
      }
    }

    method RevokeFamily(tokenFamily: string)
      modifies this
      ensures store.Keys == old(store).Keys
      ensures forall id :: id in store ==>
        store[id] == if old(store)[id].tokenFamily == tokenFamily then old(store)[id].(revoked := true) else old(store)[id]
    {
      RevokeAllIn(OneFamily(tokenFamily));
    }

    method RevokeAllForUser(userId: string)
      modifies this
      ensures store.Keys == old(store).Keys
      ensures forall id :: id in store ==>
        store[id] == if old(store)[id].userId == userId then old(store)[id].(revoked := true) else old(store)[id]
    {
      RevokeAllIn(OneUser(userId));
    }

    method RevokeAllForDevice(deviceId: string)
      modifies this
      ensures store.Keys == old(store).Keys
      ensures forall id :: id in store ==>
        store[id] == if old(store)[id].deviceId == deviceId then old(store)[id].(revoked := true) else old(store)[id]
    {
      RevokeAllIn(OneDevice(deviceId));
    }

    method RevokeAll()
      modifies this
      ensures store.Keys == old(store).Keys
      ensures forall id :: id in store ==> store[id] == old(store)[id].(revoked := true)
    {
      RevokeAllIn(Everyone);
    }

    /** The loop they share: puts one by one the sessions that were in scope when it began. */
    method RevokeAllIn(scope: Scope)
      modifies this
      ensures store == RevokeScope(old(store), scope)
    {
      var matching := map id | id in store && InScope(scope, store[id]) :: store[id];
      var todo := matching.Keys;
      while todo != {}
        invariant todo <= matching.Keys
        invariant SweptExcept(old(store), scope, todo, store)
        decreases todo
      {
        var id :| id in todo;
        SweptStep(old(store), scope, todo, store, id);
        store := store[id := matching[id].(revoked := true)];
        todo := todo - {id};
      }
    }
  }
}
