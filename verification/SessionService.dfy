/**
 * The session methods as they run: tables and cache are updated in place. Every public method keeps the invariant;
 * the private ones may also run between two updates of one method.
 */
module SessionService {
  import opened Common
  import opened SessionModel
  import opened SessionInvariants
  import opened SessionOutcomes

  /** The methods of `AuthSessionCacheService` and the session part of `AuthService`. */
  class Service {
    var sessions: map<SessionId, Session>
    var tokens: map<TokenId, Token>
    var cache: map<SessionId, Entry>
    var nextSession: SessionId
    var nextToken: TokenId

    ghost function State(): Db
      reads this
    {
      Db(sessions, tokens, cache, nextSession, nextToken)
    }

    constructor ()
      ensures State() == EMPTY && Inv(State())
    {
      sessions, tokens, cache, nextSession, nextToken := map[], map[], map[], 0, 0;
    }

    /** The entry lives for at least a minute, and past the expiry for less than one. */
    method CacheStore(c: Context, now: int)
      modifies this`cache
      ensures State() == CacheSet(old(State()), c, now)
      ensures c.session in cache && cache[c.session].context == c && cache[c.session].until >= now + 60_000
      ensures now < c.expiresAt ==> cache[c.session].until < c.expiresAt + 60_000
    {
      var seconds := (c.expiresAt - now) / 1000;
      if seconds < 60 {
        seconds := 60;
      }
      cache := cache[c.session := Entry(c, now + 1000 * seconds)];
    }

    method RevokeInternal(id: SessionId, status: SessionStatus)
      modifies this`sessions, this`tokens, this`cache
      ensures State() == Revoke(old(State()), {id}, status)
    {
      if id in sessions && !sessions[id].revoked {
        sessions := sessions[id := sessions[id].(revoked := true, status := status)];
      }
      tokens := map t | t in tokens ::
        if tokens[t].session == id && !tokens[t].revoked then tokens[t].(revoked := true, status := Withdrawn)
        else tokens[t];
      cache := cache - {id};
      RevokeOneRow(old(sessions), id, status);
      RevokeOneTokens(old(tokens), id);
    }

    method HandleReuse(t: Token)
      modifies this`sessions, this`tokens, this`cache
      ensures State() == EndFamily(old(State()), t)
    {
      tokens := map i | i in tokens ::
        if tokens[i].family == t.family && tokens[i].user == t.user then tokens[i].(status := Reused, revoked := true)
        else tokens[i];
      assert State() == MarkFamily(old(State()), t.family, t.user);
      RevokeInternal(t.session, Revoked);
    }

    method GetSessionContext(id: SessionId, force: bool, now: int) returns (reply: Reply)
      requires Inv(State())
      modifies this`sessions, this`tokens, this`cache
      ensures (State(), reply) == GetContext(old(State()), id, force, now) && Inv(State())
      ensures reply.Ok? ==> id in sessions && !sessions[id].revoked && reply.value == ContextOf(id, sessions[id])
    {
      GetInv(State(), id, force, now);
      reply := ReadContext(id, force, now);
    }

    method ReadContext(id: SessionId, force: bool, now: int) returns (reply: Reply)
      modifies this`sessions, this`tokens, this`cache
      ensures (State(), reply) == GetContext(old(State()), id, force, now)
    {
      if !force && id in cache && now < cache[id].until {
        return Ok(cache[id].context);
      }
      if id !in sessions || sessions[id].revoked || sessions[id].status != Active {
        return Error(SessionRevoked);
      }
      if sessions[id].expiresAt <= now || sessions[id].idleExpiresAt <= now {
        RevokeInternal(id, Expired);
        return Error(SessionExpired);
      }
      var c := ContextOf(id, sessions[id]);
      CacheStore(c, now);
      reply := Ok(c);
    }

    method SignIn(user: UserId, ttlSeconds: int, org: Option<nat>, workspace: Option<nat>, now: int)
      returns (reply: Reply)
      requires Inv(State())
      modifies this
      ensures (State(), reply) == CreateSession(old(State()), user, ttlSeconds, org, workspace, now) && Inv(State())
      ensures reply.Ok? <==> ttlSeconds > 0
      ensures reply.Ok? ==>
                && old(nextSession) in sessions && Tells(reply.value, old(nextSession), sessions[old(nextSession)])
                && reply.value.user == user && reply.value.org == org && reply.value.workspace == workspace
                && reply.value.expiresAt == now + 1000 * ttlSeconds
    {
      CreateInv(State(), user, ttlSeconds, org, workspace, now);
      SignInOutcome(State(), user, ttlSeconds, org, workspace, now);
      reply := InsertRows(user, ttlSeconds, org, workspace, now);
    }

    method InsertRows(user: UserId, ttlSeconds: int, org: Option<nat>, workspace: Option<nat>, now: int)
      returns (reply: Reply)
      modifies this
      ensures (State(), reply) == CreateSession(old(State()), user, ttlSeconds, org, workspace, now)
    {
      var id := nextSession;
      var expiry := now + 1000 * ttlSeconds;
      sessions := sessions[id := Session(user, Active, false, 1, org, workspace, now, expiry, expiry)];
      nextSession := nextSession + 1;
      tokens := tokens[nextToken := Token(id, user, id, None, Fresh, false, expiry)];
      nextToken := nextToken + 1;
      reply := ReadContext(id, true, now);
    }

    method RefreshSession(id: Option<TokenId>, now: int) returns (reply: Reply)
      requires Inv(State())
      modifies this
      ensures (State(), reply) == Refresh(old(State()), id, now) && Inv(State())
      ensures reply.Ok? <==> id.Some? && Spendable(old(State()), id.value, now)
    {
      RefreshInv(State(), id, now);
      RefreshAnswersIff(State(), id, now);
      reply := RotateToken(id, now);
    }

    method RotateToken(id: Option<TokenId>, now: int) returns (reply: Reply)
      modifies this
      ensures (State(), reply) == Refresh(old(State()), id, now)
    {
      if id.None? || id.value !in tokens {
        return Error(InvalidToken);
      }
      var t := tokens[id.value];
      if t.status != Fresh || t.revoked || t.expiresAt <= now {
        HandleReuse(t);
        return Error(InvalidToken);
      }
      if t.session !in sessions || sessions[t.session].revoked || sessions[t.session].status != Active
         || sessions[t.session].expiresAt <= now {
        return Error(SessionExpired);
      }
      tokens := tokens[id.value := t.(status := Used)];
      tokens := tokens[nextToken := Token(t.session, t.user, t.family, Some(id.value), Fresh, false, t.expiresAt)];
      nextToken := nextToken + 1;
      sessions := sessions[t.session := sessions[t.session].(lastRefreshedAt := now)];
      assert State() == Rotate(old(State()), id.value, now);
      reply := ReadContext(t.session, true, now);
    }

    method SwitchWorkspace(user: UserId, id: SessionId, org: Option<nat>, workspace: Option<nat>, allowed: bool,
                           now: int)
      returns (reply: Reply)
      requires Inv(State())
      modifies this
      ensures (State(), reply) == SelectWorkspace(old(State()), user, id, org, workspace, allowed, now)
      ensures Inv(State())
      ensures reply.Ok? <==> Granted(old(State()), user, id, allowed, now)
      ensures reply.Ok? ==>
                && id in sessions && sessions - {id} == old(sessions) - {id}
                && sessions[id].org == reply.value.org == org
                && sessions[id].workspace == reply.value.workspace == workspace
                && sessions[id].version == reply.value.version == old(sessions)[id].version + 1
    {
      SelectInv(State(), user, id, org, workspace, allowed, now);
      SwitchOutcome(State(), user, id, org, workspace, allowed, now);
      reply := WriteSelection(user, id, org, workspace, allowed, now);
    }

    method WriteSelection(user: UserId, id: SessionId, org: Option<nat>, workspace: Option<nat>, allowed: bool,
                          now: int)
      returns (reply: Reply)
      modifies this
      ensures (State(), reply) == SelectWorkspace(old(State()), user, id, org, workspace, allowed, now)
    {
      reply := ReadContext(id, true, now);
      if reply.Error? {
        return;
      }
      if reply.value.user != user || !allowed {
        return Error(Forbidden);
      }
      var s := sessions[id];
      sessions := sessions[id := s.(org := org, workspace := workspace, version := s.version + 1)];
      reply := ReadContext(id, true, now);
    }

    method RevokeOne(user: UserId, id: SessionId) returns (found: bool)
      requires Inv(State())
      modifies this`sessions, this`tokens, this`cache
      ensures State() == RevokeSession(old(State()), user, id) && Inv(State())
      ensures found <==> id in old(sessions) && old(sessions)[id].user == user
    {
      RevokeInv(State(), {id}, Revoked, None);
      found := id in sessions && sessions[id].user == user;
      if found {
        RevokeInternal(id, Revoked);
      }
    }

    method RevokeAllSessions(user: UserId, except: Option<SessionId>) returns (count: nat)
      requires Inv(State())
      modifies this`sessions, this`tokens, this`cache
      ensures State() == RevokeAll(old(State()), user, except) && Inv(State())
      ensures count == |LiveSessions(old(State()), user, except)| && LiveSessions(State(), user, except) == {}
    {
      RevokeInv(State(), LiveSessions(State(), user, except), Revoked, None);
      count := RevokeEach(user, except);
    }

    /** The loop revokes the sessions found by the query one after the other. */
    method RevokeEach(user: UserId, except: Option<SessionId>) returns (count: nat)
      modifies this`sessions, this`tokens, this`cache
      ensures State() == RevokeAll(old(State()), user, except)
      ensures count == |LiveSessions(old(State()), user, except)|
    {
      ghost var start := State();
      var found := set i | i in sessions && sessions[i].user == user && !sessions[i].revoked && Some(i) != except;
      assert found == LiveSessions(start, user, except);
      count := |found|;
      var todo := found;
      RevokeNone(start);
      while todo != {}
        invariant todo <= found
        invariant State() == Revoke(start, found - todo, Revoked)
        decreases todo
      {
        ghost var done := found - todo;
        var id :| id in todo;
        RevokeInternal(id, Revoked);
        todo := todo - {id};
        RevokeMore(start, done, id);
        assert found - todo == done + {id};
      }
      assert found - todo == found;
    }
  }

  lemma RevokeOneRow(sessions: map<SessionId, Session>, id: SessionId, status: SessionStatus)
    ensures (map i | i in sessions :: RevokedRow(i, sessions[i], {id}, status))
         == if id in sessions && !sessions[id].revoked
            then sessions[id := sessions[id].(revoked := true, status := status)] else sessions
  {
  }

  lemma RevokeOneTokens(tokens: map<TokenId, Token>, id: SessionId)
    ensures (map t | t in tokens :: WithdrawnRow(tokens[t], {id}))
         == map t | t in tokens ::
              if tokens[t].session == id && !tokens[t].revoked then tokens[t].(revoked := true, status := Withdrawn)
              else tokens[t]
  {
  }

  lemma RevokeNone(db: Db)
    ensures Revoke(db, {}, Revoked) == db
  {
    var d := Revoke(db, {}, Revoked);
    assert d.sessions == db.sessions && d.tokens == db.tokens && d.cache == db.cache;
  }

  /** Revoking one session after others is revoking them all. */
  lemma RevokeMore(db: Db, ids: set<SessionId>, id: SessionId)
    ensures Revoke(Revoke(db, ids, Revoked), {id}, Revoked) == Revoke(db, ids + {id}, Revoked)
  {
    var d, e := Revoke(Revoke(db, ids, Revoked), {id}, Revoked), Revoke(db, ids + {id}, Revoked);
    assert d.sessions == e.sessions;
    assert d.tokens == e.tokens;
    assert d.cache == e.cache;
  }
}
