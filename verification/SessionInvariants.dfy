/** What every run of sign-ins, refreshes, workspace switches and revocations keeps. */
module SessionInvariants {
  import opened Common
  import opened SessionModel

  /** `chain` lists the tokens of a session, each pointing back at the one before; only the last can be fresh. */
  ghost predicate IsChain(tokens: map<TokenId, Token>, id: SessionId, chain: seq<TokenId>) {
    && chain != []
    && (forall i | 0 <= i < |chain| :: chain[i] in tokens && tokens[chain[i]].session == id)
    && (forall t | t in tokens && tokens[t].session == id :: t in chain)
    && (forall i, j | 0 <= i < j < |chain| :: chain[i] < chain[j])
    && tokens[chain[0]].prev.None?
    && (forall i | 0 < i < |chain| :: tokens[chain[i]].prev == Some(chain[i - 1]))
    && (forall i | 0 <= i < |chain| - 1 :: tokens[chain[i]].status != Fresh)
  }

  ghost predicate Chained(id: SessionId, tokens: map<TokenId, Token>) {
    exists chain :: IsChain(tokens, id, chain)
  }

  ghost predicate AllChained(sessions: map<SessionId, Session>, tokens: map<TokenId, Token>) {
    forall id | id in sessions :: Chained(id, tokens)
  }

  predicate SessionOk(s: Session) {
    (s.revoked <==> s.status != Active) && s.idleExpiresAt == s.expiresAt
  }

  /** The session a token hangs from, which it must agree with. */
  predicate Agrees(t: Token, s: Session) {
    && t.family == t.session && t.user == s.user && t.expiresAt == s.expiresAt
    && (t.revoked ==> t.status == Reused || t.status == Withdrawn)
    && (s.revoked ==> t.revoked)
  }

  ghost predicate SessionsOk(sessions: map<SessionId, Session>, next: SessionId) {
    forall i | i in sessions :: i < next && SessionOk(sessions[i])
  }

  ghost predicate TokensOk(tokens: map<TokenId, Token>, sessions: map<SessionId, Session>, next: TokenId) {
    forall t | t in tokens ::
      t < next && tokens[t].session in sessions && Agrees(tokens[t], sessions[tokens[t].session])
  }

  predicate EntryOk(id: SessionId, e: Entry, s: Session) {
    !s.revoked && e.context == ContextOf(id, s) && e.until < s.expiresAt + 60_000
  }

  /** Every cache entry, except perhaps that of `skip`, agrees with its row. */
  ghost predicate CacheOk(cache: map<SessionId, Entry>, sessions: map<SessionId, Session>, skip: Option<SessionId>) {
    forall i | i in cache && Some(i) != skip :: i in sessions && EntryOk(i, cache[i], sessions[i])
  }

  ghost predicate InvExcept(db: Db, skip: Option<SessionId>) {
    && SessionsOk(db.sessions, db.nextSession)
    && TokensOk(db.tokens, db.sessions, db.nextToken)
    && AllChained(db.sessions, db.tokens)
    && CacheOk(db.cache, db.sessions, skip)
  }

  ghost predicate Inv(db: Db) {
    InvExcept(db, None)
  }

  // ---------------------------------------------------------------- chains

  /** A token table whose rows may only have left the fresh status. */
  ghost predicate Aged(t: map<TokenId, Token>, u: map<TokenId, Token>) {
    && t.Keys == u.Keys
    && forall i | i in t ::
         u[i].session == t[i].session && u[i].prev == t[i].prev && (u[i].status == Fresh ==> t[i].status == Fresh)
  }

  lemma AgingKeepsChains(sessions: map<SessionId, Session>, s: map<SessionId, Session>, t: map<TokenId, Token>,
                         u: map<TokenId, Token>)
    requires AllChained(sessions, t) && Aged(t, u) && s.Keys == sessions.Keys
    ensures AllChained(s, u)
  {
    forall id | id in s ensures Chained(id, u) {
      assert Chained(id, t);
      var chain :| IsChain(t, id, chain);
      assert IsChain(u, id, chain);
    }
  }

  /** The fresh token of a session is the last of its chain, so rotating it extends the chain. */
  lemma ChainGrows(t: map<TokenId, Token>, id: TokenId, chain: seq<TokenId>, next: TokenId, n: Token)
    requires id in t && IsChain(t, t[id].session, chain) && t[id].status == Fresh
    requires forall i | i in t :: i < next
    requires n.session == t[id].session && n.prev == Some(id)
    ensures IsChain(t[id := t[id].(status := Used)][next := n], t[id].session, chain + [next])
  {
    var u, c, last := t[id := t[id].(status := Used)][next := n], chain + [next], |chain| - 1;
    assert chain[last] == id;
    forall i, j | 0 <= i < j < |c| ensures c[i] < c[j] {
      assert c[i] == chain[i];
    }
    forall i | 0 < i < |c| ensures u[c[i]].prev == Some(c[i - 1]) {
      if i < |chain| {
        assert c[i] == chain[i] && c[i] in t;
      }
    }
    forall i | 0 <= i < |c| - 1 ensures u[c[i]].status != Fresh {
      assert c[i] == chain[i] && c[i] in t;
    }
    assert chain[0] in t;
  }

  lemma OwnChainGrows(t: map<TokenId, Token>, id: TokenId, next: TokenId, n: Token)
    requires id in t && Chained(t[id].session, t) && t[id].status == Fresh
    requires forall i | i in t :: i < next
    requires n.session == t[id].session && n.prev == Some(id)
    ensures Chained(t[id].session, t[id := t[id].(status := Used)][next := n])
  {
    var chain :| IsChain(t, t[id].session, chain);
    ChainGrows(t, id, chain, next, n);
  }

  /** The tables differ only in tokens of `sid`. */
  ghost predicate SameBeyond(t: map<TokenId, Token>, u: map<TokenId, Token>, sid: SessionId) {
    && (forall i | i in t :: i in u && (u[i] == t[i] || t[i].session == u[i].session == sid))
    && (forall i | i in u :: i in t || u[i].session == sid)
  }

  lemma OtherChainsStay(t: map<TokenId, Token>, u: map<TokenId, Token>, sid: SessionId, id: SessionId)
    requires Chained(id, t) && id != sid && SameBeyond(t, u, sid)
    ensures Chained(id, u)
  {
    var chain :| IsChain(t, id, chain);
    assert IsChain(u, id, chain);
  }

  lemma AllButOneStay(sessions: map<SessionId, Session>, s: map<SessionId, Session>, t: map<TokenId, Token>,
                      u: map<TokenId, Token>, sid: SessionId)
    requires AllChained(sessions, t) && SameBeyond(t, u, sid) && Chained(sid, u)
    requires s.Keys == sessions.Keys + {sid}
    ensures AllChained(s, u)
  {
    forall i | i in s && i != sid ensures Chained(i, u) {
      OtherChainsStay(t, u, sid, i);
    }
  }

  lemma OnlyOwnTokens(t: map<TokenId, Token>, id: TokenId, next: TokenId, n: Token)
    requires id in t && next !in t && n.session == t[id].session
    ensures SameBeyond(t, t[id := t[id].(status := Used)][next := n], t[id].session)
  {
  }

  lemma RotateKeepsChains(db: Db, id: TokenId, now: int)
    requires Inv(db) && id in db.tokens && db.tokens[id].status == Fresh
    ensures AllChained(Rotate(db, id, now).sessions, Rotate(db, id, now).tokens)
  {
    var d, sid := Rotate(db, id, now), db.tokens[id].session;
    OwnChainGrows(db.tokens, id, db.nextToken, d.tokens[db.nextToken]);
    OnlyOwnTokens(db.tokens, id, db.nextToken, d.tokens[db.nextToken]);
    AllButOneStay(db.sessions, d.sessions, db.tokens, d.tokens, sid);
  }

  lemma InsertKeepsChains(db: Db, user: UserId, org: Option<nat>, workspace: Option<nat>, now: int, expiry: int)
    requires Inv(db)
    ensures var d := InsertSession(db, user, org, workspace, now, expiry); AllChained(d.sessions, d.tokens)
  {
    var d, id := InsertSession(db, user, org, workspace, now, expiry), db.nextSession;
    assert IsChain(d.tokens, id, [db.nextToken]);
    AllButOneStay(db.sessions, d.sessions, db.tokens, d.tokens, id);
  }

  // ---------------------------------------------------------------- steps

  lemma RevokeTables(db: Db, ids: set<SessionId>, status: SessionStatus)
    requires SessionsOk(db.sessions, db.nextSession) && TokensOk(db.tokens, db.sessions, db.nextToken)
             && status != Active
    ensures var d := Revoke(db, ids, status);
            SessionsOk(d.sessions, d.nextSession) && TokensOk(d.tokens, d.sessions, d.nextToken)
  {
    var d := Revoke(db, ids, status);
    forall t | t in d.tokens
      ensures d.tokens[t].session in d.sessions && Agrees(d.tokens[t], d.sessions[d.tokens[t].session])
    {
      assert Agrees(db.tokens[t], db.sessions[db.tokens[t].session]);
    }
  }

  lemma RevokeCache(db: Db, ids: set<SessionId>, status: SessionStatus, skip: Option<SessionId>)
    requires CacheOk(db.cache, db.sessions, skip) && (skip.Some? ==> skip.value in ids)
    ensures var d := Revoke(db, ids, status); CacheOk(d.cache, d.sessions, None)
  {
    var d := Revoke(db, ids, status);
    forall i | i in d.cache ensures i in d.sessions && EntryOk(i, d.cache[i], d.sessions[i]) {
      assert i in db.cache && i !in ids && EntryOk(i, db.cache[i], db.sessions[i]);
    }
  }

  lemma RevokeChains(db: Db, ids: set<SessionId>, status: SessionStatus)
    requires AllChained(db.sessions, db.tokens)
    ensures AllChained(Revoke(db, ids, status).sessions, Revoke(db, ids, status).tokens)
  {
    var d := Revoke(db, ids, status);
    AgingKeepsChains(db.sessions, d.sessions, db.tokens, d.tokens);
  }

  lemma RevokeInv(db: Db, ids: set<SessionId>, status: SessionStatus, skip: Option<SessionId>)
    requires InvExcept(db, skip) && status != Active
    requires skip.Some? ==> skip.value in ids
    ensures Inv(Revoke(db, ids, status))
  {
    var d := Revoke(db, ids, status);
    RevokeTables(db, ids, status);
    RevokeCache(db, ids, status, skip);
    RevokeChains(db, ids, status);
  }

  lemma MarkFamilyInv(db: Db, family: SessionId, user: UserId)
    requires Inv(db)
    ensures Inv(MarkFamily(db, family, user))
  {
    var tokens := MarkFamily(db, family, user).tokens;
    MarkedTokensOk(db, family, user);
    AgingKeepsChains(db.sessions, db.sessions, db.tokens, tokens);
  }

  lemma MarkedTokensOk(db: Db, family: SessionId, user: UserId)
    requires TokensOk(db.tokens, db.sessions, db.nextToken)
    ensures TokensOk(MarkFamily(db, family, user).tokens, db.sessions, db.nextToken)
    ensures Aged(db.tokens, MarkFamily(db, family, user).tokens)
  {
  }

  lemma CacheSetInv(db: Db, id: SessionId, now: int)
    requires InvExcept(db, Some(id)) && id in db.sessions && !db.sessions[id].revoked && now < db.sessions[id].expiresAt
    ensures Inv(CacheSet(db, ContextOf(id, db.sessions[id]), now))
  {
    var d := CacheSet(db, ContextOf(id, db.sessions[id]), now);
    assert EntryOk(id, d.cache[id], d.sessions[id]);
  }

  /** A forced read replaces the entry of a session whose row has just changed. */
  lemma ForcedGetInv(db: Db, id: SessionId, now: int)
    requires InvExcept(db, Some(id)) && id in db.sessions && !db.sessions[id].revoked
    ensures Inv(GetContext(db, id, true, now).0)
  {
    assert SessionOk(db.sessions[id]);
    if db.sessions[id].expiresAt <= now {
      RevokeInv(db, {id}, Expired, Some(id));
    } else {
      CacheSetInv(db, id, now);
    }
  }

  lemma GetInv(db: Db, id: SessionId, force: bool, now: int)
    requires Inv(db)
    ensures Inv(GetContext(db, id, force, now).0)
  {
    if id in db.sessions && !db.sessions[id].revoked && (force || CacheGet(db, id, now).None?) {
      ForcedGetInv(db, id, now);
    }
  }

  lemma InsertInv(db: Db, user: UserId, org: Option<nat>, workspace: Option<nat>, now: int, expiry: int)
    requires Inv(db)
    ensures InvExcept(InsertSession(db, user, org, workspace, now, expiry), Some(db.nextSession))
  {
    var d := InsertSession(db, user, org, workspace, now, expiry);
    InsertKeepsChains(db, user, org, workspace, now, expiry);
    assert TokensOk(d.tokens, d.sessions, d.nextToken);
    assert CacheOk(d.cache, d.sessions, Some(db.nextSession));
  }

  lemma InsertIsLive(db: Db, user: UserId, org: Option<nat>, workspace: Option<nat>, now: int, expiry: int)
    ensures var d := InsertSession(db, user, org, workspace, now, expiry);
            db.nextSession in d.sessions && !d.sessions[db.nextSession].revoked
  {
  }

  lemma InsertAndReadInv(db: Db, user: UserId, org: Option<nat>, workspace: Option<nat>, now: int, expiry: int)
    requires Inv(db)
    ensures Inv(GetContext(InsertSession(db, user, org, workspace, now, expiry), db.nextSession, true, now).0)
  {
    InsertInv(db, user, org, workspace, now, expiry);
    InsertIsLive(db, user, org, workspace, now, expiry);
    ForcedGetInv(InsertSession(db, user, org, workspace, now, expiry), db.nextSession, now);
  }

  lemma CreateInv(db: Db, user: UserId, ttlSeconds: int, org: Option<nat>, workspace: Option<nat>, now: int)
    requires Inv(db)
    ensures Inv(CreateSession(db, user, ttlSeconds, org, workspace, now).0)
  {
    var expiry := now + 1000 * ttlSeconds;
    var d := GetContext(InsertSession(db, user, org, workspace, now, expiry), db.nextSession, true, now).0;
    assert Inv(d) by {
      InsertAndReadInv(db, user, org, workspace, now, expiry);
    }
    assert d == CreateSession(db, user, ttlSeconds, org, workspace, now).0;
  }

  /** In every reachable state the session checks of a refresh are implied by its token checks. */
  lemma TokenChecksImplySessionChecks(steps: seq<Step>, id: TokenId, now: int)
    ensures var db := Run(EMPTY, steps);
            id in db.tokens && !Stale(db.tokens[id], now) ==>
              && db.tokens[id].session in db.sessions
              && var s := db.sessions[db.tokens[id].session];
                 !s.revoked && s.status == Active && now < s.expiresAt
  {
    RunInv(steps);
  }

  lemma RotateTokens(db: Db, id: TokenId, now: int)
    requires Inv(db) && id in db.tokens && !Stale(db.tokens[id], now)
    ensures var d := Rotate(db, id, now); TokensOk(d.tokens, d.sessions, d.nextToken)
  {
    var d := Rotate(db, id, now);
    assert Agrees(db.tokens[id], db.sessions[db.tokens[id].session]);
    forall t | t in d.tokens
      ensures t < d.nextToken && d.tokens[t].session in d.sessions
      ensures Agrees(d.tokens[t], d.sessions[d.tokens[t].session])
    {
      assert t != db.nextToken ==> t in db.tokens;
    }
  }

  lemma RotateInv(db: Db, id: TokenId, now: int)
    requires Inv(db) && id in db.tokens && !Stale(db.tokens[id], now)
    ensures InvExcept(Rotate(db, id, now), Some(db.tokens[id].session))
  {
    var d, sid := Rotate(db, id, now), db.tokens[id].session;
    RotateTokens(db, id, now);
    RotateKeepsChains(db, id, now);
    assert SessionOk(db.sessions[sid]);
    assert CacheOk(d.cache, d.sessions, Some(sid));
  }

  lemma RefreshInv(db: Db, token: Option<TokenId>, now: int)
    requires Inv(db)
    ensures Inv(Refresh(db, token, now).0)
  {
    if token.Some? && token.value in db.tokens {
      var t := db.tokens[token.value];
      if Stale(t, now) {
        MarkFamilyInv(db, t.family, t.user);
        RevokeInv(MarkFamily(db, t.family, t.user), {t.session}, Revoked, None);
      } else {
        RotateInv(db, token.value, now);
        ForcedGetInv(Rotate(db, token.value, now), t.session, now);
      }
    }
  }

  lemma SwitchInv(db: Db, id: SessionId, org: Option<nat>, workspace: Option<nat>)
    requires Inv(db) && id in db.sessions
    ensures InvExcept(SwitchTo(db, id, org, workspace), Some(id))
  {
    AgingKeepsChains(db.sessions, SwitchTo(db, id, org, workspace).sessions, db.tokens, db.tokens);
    assert SessionOk(db.sessions[id]);
  }

  lemma SelectInv(db: Db, user: UserId, id: SessionId, org: Option<nat>, workspace: Option<nat>, allowed: bool,
                  now: int)
    requires Inv(db)
    ensures Inv(SelectWorkspace(db, user, id, org, workspace, allowed, now).0)
  {
    GetInv(db, id, true, now);
    var (seen, reply) := GetContext(db, id, true, now);
    if reply.Ok? && reply.value.user == user && allowed {
      SwitchInv(seen, id, org, workspace);
      ForcedGetInv(SwitchTo(seen, id, org, workspace), id, now);
    }
  }

  lemma StepInv(db: Db, s: Step)
    requires Inv(db)
    ensures Inv(Apply(db, s))
  {
    match s
    case DoCreate(user, ttl, org, workspace, now) => CreateInv(db, user, ttl, org, workspace, now);
    case DoGet(id, force, now) => GetInv(db, id, force, now);
    case DoRefresh(token, now) => RefreshInv(db, token, now);
    case DoSelect(user, id, org, workspace, allowed, now) => SelectInv(db, user, id, org, workspace, allowed, now);
    case DoRevoke(user, id) => RevokeInv(db, {id}, Revoked, None);
    case DoRevokeAll(user, except) => RevokeInv(db, LiveSessions(db, user, except), Revoked, None);
  }

  lemma {:induction false} RunInv(steps: seq<Step>)
    ensures Inv(Run(EMPTY, steps))
    decreases |steps|
  {
    if steps != [] {
      RunInv(steps[..|steps| - 1]);
      StepInv(Run(EMPTY, steps[..|steps| - 1]), steps[|steps| - 1]);
    }
  }
}
