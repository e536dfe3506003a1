/** Safety of sessions over whole runs. */
module SessionSafety {
  import opened Common
  import opened SessionModel
  import opened SessionInvariants

  // ---------------------------------------------------------------- what never changes

  /** A session keeps its user and its expiry, and a revocation is final. */
  predicate SameSession(s: Session, r: Session) {
    r.user == s.user && r.expiresAt == s.expiresAt && (s.revoked ==> r.revoked)
  }

  /** A token keeps its place in its chain and its expiry, and never becomes fresh again. */
  predicate SameToken(t: Token, u: Token) {
    && u.session == t.session && u.family == t.family && u.prev == t.prev && u.expiresAt == t.expiresAt
    && (u.status == Fresh ==> t.status == Fresh)
  }

  ghost predicate Continues(db: Db, d: Db) {
    && (forall i | i in db.sessions :: i in d.sessions && SameSession(db.sessions[i], d.sessions[i]))
    && (forall t | t in db.tokens :: t in d.tokens && SameToken(db.tokens[t], d.tokens[t]))
  }

  lemma ContinuesTransitive(a: Db, b: Db, c: Db)
    requires Continues(a, b) && Continues(b, c)
    ensures Continues(a, c)
  {
  }

  lemma RevokeContinues(db: Db, ids: set<SessionId>, status: SessionStatus)
    ensures Continues(db, Revoke(db, ids, status))
  {
  }

  lemma RevokeOneContinues(db: Db, user: UserId, id: SessionId)
    ensures Continues(db, RevokeSession(db, user, id))
  {
    RevokeContinues(db, {id}, Revoked);
  }

  lemma GetContinues(db: Db, id: SessionId, force: bool, now: int)
    ensures Continues(db, GetContext(db, id, force, now).0)
  {
    RevokeContinues(db, {id}, Expired);
  }

  lemma EndFamilyContinues(db: Db, t: Token)
    ensures Continues(db, EndFamily(db, t))
  {
    var d := MarkFamily(db, t.family, t.user);
    assert Continues(db, d);
    RevokeContinues(d, {t.session}, Revoked);
    ContinuesTransitive(db, d, Revoke(d, {t.session}, Revoked));
  }

  lemma RotateContinues(db: Db, id: TokenId, now: int)
    requires id in db.tokens && db.tokens[id].session in db.sessions && db.nextToken !in db.tokens
    ensures Continues(db, Rotate(db, id, now))
  {
  }

  lemma RotateAndReadContinues(db: Db, id: TokenId, now: int)
    requires id in db.tokens && db.tokens[id].session in db.sessions && db.nextToken !in db.tokens
    ensures Continues(db, GetContext(Rotate(db, id, now), db.tokens[id].session, true, now).0)
  {
    var d, sid := Rotate(db, id, now), db.tokens[id].session;
    RotateContinues(db, id, now);
    GetContinues(d, sid, true, now);
    ContinuesTransitive(db, d, GetContext(d, sid, true, now).0);
  }

  lemma RefreshContinues(db: Db, token: Option<TokenId>, now: int)
    requires Inv(db)
    ensures Continues(db, Refresh(db, token, now).0)
  {
    if token.Some? && token.value in db.tokens {
      var t := db.tokens[token.value];
      if Stale(t, now) {
        EndFamilyContinues(db, t);
      } else {
        RotateAndReadContinues(db, token.value, now);
      }
    }
  }

  lemma InsertContinues(db: Db, user: UserId, org: Option<nat>, workspace: Option<nat>, now: int, expiry: int)
    requires db.nextSession !in db.sessions && db.nextToken !in db.tokens
    ensures Continues(db, InsertSession(db, user, org, workspace, now, expiry))
  {
  }

  lemma CreateContinues(db: Db, user: UserId, ttlSeconds: int, org: Option<nat>, workspace: Option<nat>, now: int)
    requires Inv(db)
    ensures Continues(db, CreateSession(db, user, ttlSeconds, org, workspace, now).0)
  {
    var d := InsertSession(db, user, org, workspace, now, now + 1000 * ttlSeconds);
    InsertContinues(db, user, org, workspace, now, now + 1000 * ttlSeconds);
    GetContinues(d, db.nextSession, true, now);
    ContinuesTransitive(db, d, GetContext(d, db.nextSession, true, now).0);
  }

  lemma SelectContinues(db: Db, user: UserId, id: SessionId, org: Option<nat>, workspace: Option<nat>, allowed: bool,
                        now: int)
    ensures Continues(db, SelectWorkspace(db, user, id, org, workspace, allowed, now).0)
  {
    GetContinues(db, id, true, now);
    var (seen, reply) := GetContext(db, id, true, now);
    if reply.Ok? && reply.value.user == user && allowed {
      var d := SwitchTo(seen, id, org, workspace);
      assert Continues(seen, d);
      GetContinues(d, id, true, now);
      ContinuesTransitive(seen, d, GetContext(d, id, true, now).0);
      ContinuesTransitive(db, seen, GetContext(d, id, true, now).0);
    }
  }

  lemma StepContinues(db: Db, s: Step)
    requires Inv(db)
    ensures Continues(db, Apply(db, s))
  {
    match s
    case DoCreate(user, ttl, org, workspace, now) => CreateContinues(db, user, ttl, org, workspace, now);
    case DoGet(id, force, now) => GetContinues(db, id, force, now);
    case DoRefresh(token, now) => RefreshContinues(db, token, now);
    case DoSelect(user, id, org, workspace, allowed, now) =>
      SelectContinues(db, user, id, org, workspace, allowed, now);
    case DoRevoke(user, id) => RevokeOneContinues(db, user, id);
    case DoRevokeAll(user, except) => RevokeContinues(db, LiveSessions(db, user, except), Revoked);
  }

  lemma {:induction false} RunContinues(db: Db, steps: seq<Step>)
    requires Inv(db)
    ensures Inv(Run(db, steps)) && Continues(db, Run(db, steps))
    decreases |steps|
  {
    if steps != [] {
      var mid := Run(db, steps[..|steps| - 1]);
      RunContinues(db, steps[..|steps| - 1]);
      StepInv(mid, steps[|steps| - 1]);
      StepContinues(mid, steps[|steps| - 1]);
      ContinuesTransitive(db, mid, Run(db, steps));
    }
  }

  // ---------------------------------------------------------------- main results

  /** Per session the tokens form one unbranched, acyclic chain whose last member alone can be fresh. */
  lemma TokensFormOneChain(steps: seq<Step>, id: SessionId)
    requires id in Run(EMPTY, steps).sessions
    ensures exists chain :: IsChain(Run(EMPTY, steps).tokens, id, chain)
  {
    RunInv(steps);
    assert Chained(id, Run(EMPTY, steps).tokens);
  }

  lemma NoRepeats(chain: seq<TokenId>, i: nat, j: nat)
    requires forall a, b | 0 <= a < b < |chain| :: chain[a] < chain[b]
    requires i < |chain| && j < |chain| && chain[i] == chain[j]
    ensures i == j
  {
  }

  lemma ChainNeverBranches(tokens: map<TokenId, Token>, id: SessionId, chain: seq<TokenId>, t: TokenId, u: TokenId)
    requires IsChain(tokens, id, chain) && t in tokens && u in tokens
    requires tokens[t].session == tokens[u].session == id && tokens[t].prev == tokens[u].prev
    ensures t == u && (tokens[t].prev.Some? ==> tokens[t].prev.value < t)
  {
    var i :| 0 <= i < |chain| && chain[i] == t;
    var j :| 0 <= j < |chain| && chain[j] == u;
    assert i > 0 ==> tokens[chain[i]].prev == Some(chain[i - 1]);
    assert j > 0 ==> tokens[chain[j]].prev == Some(chain[j - 1]);
    if i > 0 && j > 0 {
      NoRepeats(chain, i - 1, j - 1);
      assert chain[i - 1] < chain[i];
    }
  }

  /** No token has two successors, no session two first tokens, and a predecessor is always older. */
  lemma NoBranches(steps: seq<Step>, t: TokenId, u: TokenId)
    ensures var tokens := Run(EMPTY, steps).tokens;
            t in tokens && u in tokens && tokens[t].session == tokens[u].session && tokens[t].prev == tokens[u].prev ==>
              t == u && (tokens[t].prev.Some? ==> tokens[t].prev.value < t)
  {
    var db := Run(EMPTY, steps);
    RunInv(steps);
    if t in db.tokens && u in db.tokens && db.tokens[t].session == db.tokens[u].session
       && db.tokens[t].prev == db.tokens[u].prev {
      assert Chained(db.tokens[t].session, db.tokens);
      var chain :| IsChain(db.tokens, db.tokens[t].session, chain);
      ChainNeverBranches(db.tokens, db.tokens[t].session, chain, t, u);
    }
  }

  /** No number of refreshes extends a session: every token ever issued for it has the expiry set at sign-in. */
  lemma RefreshesNeverExtend(steps: seq<Step>, more: seq<Step>, id: SessionId, t: TokenId)
    requires id in Run(EMPTY, steps).sessions
    ensures var db, d := Run(EMPTY, steps), Run(Run(EMPTY, steps), more);
            && id in d.sessions && d.sessions[id].expiresAt == db.sessions[id].expiresAt
            && (t in d.tokens && d.tokens[t].session == id ==> d.tokens[t].expiresAt == db.sessions[id].expiresAt)
  {
    RunInv(steps);
    RunContinues(Run(EMPTY, steps), more);
  }

  lemma StaleRefreshRevokes(db: Db, id: TokenId, now: int)
    requires Inv(db) && id in db.tokens && Stale(db.tokens[id], now)
    ensures var d := Refresh(db, Some(id), now).0;
            db.tokens[id].session in d.sessions && d.sessions[db.tokens[id].session].revoked
  {
  }

  /** The tokens of a revoked session are all refused, at any time, and so is the session itself. */
  lemma RevokedIsShut(db: Db, id: SessionId, t: TokenId, now: int, force: bool)
    requires Inv(db) && id in db.sessions && db.sessions[id].revoked
    ensures t in db.tokens && db.tokens[t].family == id ==>
              db.tokens[t].status != Fresh && Refresh(db, Some(t), now).1 == Error(InvalidToken)
    ensures GetContext(db, id, force, now).1 == Error(SessionRevoked)
  {
    assert id !in db.cache;
  }

  /** Presenting a used, revoked, reused or expired token ends its family for good, whatever comes later. */
  lemma ReuseEndsTheFamily(steps: seq<Step>, presented: TokenId, now: int, more: seq<Step>, t: TokenId, later: int,
                           force: bool)
    requires presented in Run(EMPTY, steps).tokens && Stale(Run(EMPTY, steps).tokens[presented], now)
    ensures var db := Run(EMPTY, steps);
            var d := Run(Refresh(db, Some(presented), now).0, more);
            var family := db.tokens[presented].family;
            && (t in d.tokens && d.tokens[t].family == family ==>
                  d.tokens[t].status != Fresh && Refresh(d, Some(t), later).1 == Error(InvalidToken))
            && GetContext(d, family, force, later).1 == Error(SessionRevoked)
  {
    RunInv(steps);
    var db := Run(EMPTY, steps);
    var d := Refresh(db, Some(presented), now).0;
    RefreshInv(db, Some(presented), now);
    StaleRefreshRevokes(db, presented, now);
    RunContinues(d, more);
    RevokedIsShut(Run(d, more), db.tokens[presented].family, t, later, force);
  }

  /** A rotation leaves the session exactly one fresh token, the new one. */
  lemma RotateHandsOver(db: Db, id: TokenId, now: int, t: TokenId)
    requires Inv(db) && id in db.tokens && !Stale(db.tokens[id], now)
    ensures var d := Rotate(db, id, now).tokens;
            && d[db.nextToken].prev == Some(id) && Stale(d[id], now)
            && (t in d && d[t].session == db.tokens[id].session ==> (d[t].status == Fresh <==> t == db.nextToken))
  {
    OnlyOneFresh(db.tokens, db.sessions, id, t);
  }

  lemma OnlyOneFresh(tokens: map<TokenId, Token>, sessions: map<SessionId, Session>, id: TokenId, t: TokenId)
    requires AllChained(sessions, tokens) && id in tokens && tokens[id].session in sessions
             && tokens[id].status == Fresh
    ensures t in tokens && tokens[t].session == tokens[id].session && tokens[t].status == Fresh ==> t == id
  {
    assert Chained(tokens[id].session, tokens);
    if t in tokens && tokens[t].session == tokens[id].session && tokens[t].status == Fresh {
      OneFresh(tokens, tokens[id].session, id, t);
    }
  }

  /** Two fresh tokens of a session are the same. */
  lemma OneFresh(tokens: map<TokenId, Token>, id: SessionId, t: TokenId, u: TokenId)
    requires Chained(id, tokens) && t in tokens && u in tokens
    requires tokens[t].session == tokens[u].session == id && tokens[t].status == tokens[u].status == Fresh
    ensures t == u
  {
    var chain :| IsChain(tokens, id, chain);
    FreshIsLast(tokens, id, chain, t);
    FreshIsLast(tokens, id, chain, u);
  }

  lemma FreshIsLast(tokens: map<TokenId, Token>, id: SessionId, chain: seq<TokenId>, t: TokenId)
    requires IsChain(tokens, id, chain) && t in tokens && tokens[t].session == id && tokens[t].status == Fresh
    ensures chain[|chain| - 1] == t
  {
    var i :| 0 <= i < |chain| && chain[i] == t;
  }

  lemma RefreshRotates(db: Db, id: TokenId, now: int)
    requires Inv(db) && id in db.tokens && !Stale(db.tokens[id], now)
    ensures Refresh(db, Some(id), now).1.Ok? && Refresh(db, Some(id), now).0.tokens == Rotate(db, id, now).tokens
  {
    var t := db.tokens[id];
    assert SessionOk(db.sessions[t.session]);
    ForcedGetKeepsTokens(Rotate(db, id, now), t.session, now);
  }

  /** A forced read of a live session changes the cache only. */
  lemma ForcedGetKeepsTokens(db: Db, id: SessionId, now: int)
    requires id in db.sessions && !db.sessions[id].revoked && db.sessions[id].status == Active
    requires now < db.sessions[id].expiresAt && now < db.sessions[id].idleExpiresAt
    ensures GetContext(db, id, true, now).1.Ok? && GetContext(db, id, true, now).0.tokens == db.tokens
  {
  }

  /** A refresh succeeds exactly for a token that is not stale; it spends that token and makes one new fresh one. */
  lemma RefreshHandsOverTheFreshToken(steps: seq<Step>, id: TokenId, now: int, t: TokenId)
    ensures var db := Run(EMPTY, steps);
            var (d, reply) := Refresh(db, Some(id), now);
            && (reply.Ok? <==> id in db.tokens && !Stale(db.tokens[id], now))
            && (reply.Ok? ==>
                  && db.nextToken in d.tokens && d.tokens[db.nextToken].prev == Some(id)
                  && id in d.tokens && Stale(d.tokens[id], now)
                  && (t in d.tokens && d.tokens[t].session == db.tokens[id].session ==>
                        (d.tokens[t].status == Fresh <==> t == db.nextToken)))
  {
    RunInv(steps);
    var db := Run(EMPTY, steps);
    if id in db.tokens && !Stale(db.tokens[id], now) {
      RotateHandsOver(db, id, now, t);
      RefreshRotates(db, id, now);
    }
  }

  /** What the fast path answers is what the row says, of a live session less than a minute past its expiry at most. */
  lemma CacheAgrees(steps: seq<Step>, id: SessionId, now: int)
    requires CacheGet(Run(EMPTY, steps), id, now).Some?
    ensures var db := Run(EMPTY, steps);
            && id in db.sessions && !db.sessions[id].revoked && db.sessions[id].status == Active
            && CacheGet(db, id, now).value == ContextOf(id, db.sessions[id])
            && now < db.sessions[id].expiresAt + 60_000
  {
    RunInv(steps);
    var db := Run(EMPTY, steps);
    assert EntryOk(id, db.cache[id], db.sessions[id]) && SessionOk(db.sessions[id]);
  }

  /**
   * Before the expiry the fast path and the forced read give the same answer. From the expiry on
   * they differ exactly while the entry lives.
   */
  lemma FastPathRefinesForcedRead(steps: seq<Step>, id: SessionId, now: int)
    ensures var db := Run(EMPTY, steps);
            GetContext(db, id, false, now).1 == GetContext(db, id, true, now).1
            <==> (CacheGet(db, id, now).Some? ==> now < CacheGet(db, id, now).value.expiresAt)
  {
    var db := Run(EMPTY, steps);
    RunInv(steps);
    if CacheGet(db, id, now).Some? {
      CacheAgrees(steps, id, now);
      assert SessionOk(db.sessions[id]);
    }
  }

  /** The minute's floor on the TTL is what lets the fast path outlive the session: here by 59 seconds. */
  lemma FastPathOutlivesExpiry() returns (steps: seq<Step>)
    ensures var db := Run(EMPTY, steps);
            0 in db.sessions && db.sessions[0].expiresAt == 1000 && GetContext(db, 0, false, 59_999).1.Ok?
  {
    steps := [DoCreate(7, 1, None, None, 0)];
    assert steps[..0] == [] && Run(EMPTY, []) == EMPTY;
    assert Run(EMPTY, steps) == CreateSession(EMPTY, 7, 1, None, None, 0).0;
  }
}
