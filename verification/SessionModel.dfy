/** Sessions, refresh tokens and the Redis session cache. Times are in milliseconds. */
module SessionModel {
  import opened Common

  type UserId = nat
  type SessionId = nat
  type TokenId = nat

  datatype SessionStatus = Active | Revoked | Expired

  datatype TokenStatus = Fresh | Used | Reused | Withdrawn  // ACTIVE, USED, REUSED, REVOKED

  /** `revoked` says that `revokedAt` is set. */
  datatype Session = Session(
    user: UserId, status: SessionStatus, revoked: bool, version: nat, org: Option<nat>, workspace: Option<nat>,
    lastRefreshedAt: int, expiresAt: int, idleExpiresAt: int)

  datatype Token = Token(
    session: SessionId, user: UserId, family: SessionId, prev: Option<TokenId>,
    status: TokenStatus, revoked: bool, expiresAt: int)

  /** The fields of a session context that come from the session row. */
  datatype Context = Context(
    session: SessionId, user: UserId, version: nat, org: Option<nat>, workspace: Option<nat>,
    lastRefreshedAt: int, expiresAt: int, idleExpiresAt: int)

  /** A Redis key that is gone from time `until` on. */
  datatype Entry = Entry(context: Context, until: int)

  datatype Db = Db(
    sessions: map<SessionId, Session>, tokens: map<TokenId, Token>, cache: map<SessionId, Entry>,
    nextSession: SessionId, nextToken: TokenId)

  const EMPTY := Db(map[], map[], map[], 0, 0)

  datatype AuthError = InvalidToken | SessionRevoked | SessionExpired | NotFound | Forbidden

  type Reply = Result<Context, AuthError>

  // ---------------------------------------------------------------- the cache

  function ContextOf(id: SessionId, s: Session): Context {
    Context(id, s.user, s.version, s.org, s.workspace, s.lastRefreshedAt, s.expiresAt, s.idleExpiresAt)
  }

  /** The TTL of a cache entry: what is left of the session in whole seconds, but at least a minute. */
  function TtlSeconds(expiresAt: int, now: int): int {
    Max(60, (expiresAt - now) / 1000)
  }

  function CacheSet(db: Db, c: Context, now: int): Db {
    db.(cache := db.cache[c.session := Entry(c, now + 1000 * TtlSeconds(c.expiresAt, now))])
  }

  function CacheGet(db: Db, id: SessionId, now: int): Option<Context> {
    if id in db.cache && now < db.cache[id].until then Some(db.cache[id].context) else None
  }

  // ---------------------------------------------------------------- revocation

  /** A session row after the revocation of `ids`: a revocation already recorded is kept. */
  function RevokedRow(i: SessionId, s: Session, ids: set<SessionId>, status: SessionStatus): Session {
    if i in ids && !s.revoked then s.(revoked := true, status := status) else s
  }

  function WithdrawnRow(t: Token, ids: set<SessionId>): Token {
    if t.session in ids && !t.revoked then t.(revoked := true, status := Withdrawn) else t
  }

  /** `revokeSessionInternal` for a set of sessions. */
  function Revoke(db: Db, ids: set<SessionId>, status: SessionStatus): Db {
    db.(sessions := map i | i in db.sessions :: RevokedRow(i, db.sessions[i], ids, status),
        tokens := map t | t in db.tokens :: WithdrawnRow(db.tokens[t], ids),
        cache := db.cache - ids)
  }

  function ReusedRow(t: Token, family: SessionId, user: UserId): Token {
    if t.family == family && t.user == user then t.(status := Reused, revoked := true) else t
  }

  function MarkFamily(db: Db, family: SessionId, user: UserId): Db {
    db.(tokens := map t | t in db.tokens :: ReusedRow(db.tokens[t], family, user))
  }

  /** `handleRefreshTokenReuse`: the whole family is marked, then the session is revoked. */
  function EndFamily(db: Db, t: Token): Db {
    Revoke(MarkFamily(db, t.family, t.user), {t.session}, Revoked)
  }

  // ---------------------------------------------------------------- requests

  /** `getSessionContext`. */
  function GetContext(db: Db, id: SessionId, force: bool, now: int): (Db, Reply) {
    var cached := CacheGet(db, id, now);
    if !force && cached.Some? then (db, Ok(cached.value))
    else if id !in db.sessions || db.sessions[id].revoked || db.sessions[id].status != Active then
      (db, Error(SessionRevoked))
    else if db.sessions[id].expiresAt <= now || db.sessions[id].idleExpiresAt <= now then
      (Revoke(db, {id}, Expired), Error(SessionExpired))
    else
      var c := ContextOf(id, db.sessions[id]);
      (CacheSet(db, c, now), Ok(c))
  }

  /** The rows a sign-in inserts. */
  function InsertSession(db: Db, user: UserId, org: Option<nat>, workspace: Option<nat>, now: int, expiry: int): Db {
    var id := db.nextSession;
    db.(sessions := db.sessions[id := Session(user, Active, false, 1, org, workspace, now, expiry, expiry)],
        tokens := db.tokens[db.nextToken := Token(id, user, id, None, Fresh, false, expiry)],
        nextSession := db.nextSession + 1, nextToken := db.nextToken + 1)
  }

  function CreateSession(db: Db, user: UserId, ttlSeconds: int, org: Option<nat>, workspace: Option<nat>,
                         now: int): (Db, Reply) {
    GetContext(InsertSession(db, user, org, workspace, now, now + 1000 * ttlSeconds), db.nextSession, true, now)
  }

  /** A token that a refresh does not accept. */
  predicate Stale(t: Token, now: int) {
    t.status != Fresh || t.revoked || t.expiresAt <= now
  }

  /** The transaction that rotates token `id`. */
  function Rotate(db: Db, id: TokenId, now: int): Db
    requires id in db.tokens && db.tokens[id].session in db.sessions
  {
    var t := db.tokens[id];
    var next := Token(t.session, t.user, t.family, Some(id), Fresh, false, t.expiresAt);
    db.(tokens := db.tokens[id := t.(status := Used)][db.nextToken := next],
        nextToken := db.nextToken + 1,
        sessions := db.sessions[t.session := db.sessions[t.session].(lastRefreshedAt := now)])
  }

  /** `refreshSession`; `id` is the token found by the hash of the presented one, if any. */
  function Refresh(db: Db, id: Option<TokenId>, now: int): (Db, Reply) {
    if id.None? || id.value !in db.tokens then (db, Error(InvalidToken))
    else
      var t := db.tokens[id.value];
      if Stale(t, now) then (EndFamily(db, t), Error(InvalidToken))
      else if t.session !in db.sessions || db.sessions[t.session].revoked || db.sessions[t.session].status != Active
              || db.sessions[t.session].expiresAt <= now then (db, Error(SessionExpired))
      else GetContext(Rotate(db, id.value, now), t.session, true, now)
  }

  function SwitchTo(db: Db, id: SessionId, org: Option<nat>, workspace: Option<nat>): Db
    requires id in db.sessions
  {
    var s := db.sessions[id];
    db.(sessions := db.sessions[id := s.(org := org, workspace := workspace, version := s.version + 1)])
  }

  /** `selectWorkspace`; `allowed` is the outcome of the role checks. */
  function SelectWorkspace(db: Db, user: UserId, id: SessionId, org: Option<nat>, workspace: Option<nat>,
                           allowed: bool, now: int): (Db, Reply) {
    var (seen, reply) := GetContext(db, id, true, now);
    if reply.Error? then (seen, reply)
    else if reply.value.user != user || !allowed then (seen, Error(Forbidden))
    else if id !in seen.sessions then (seen, Error(NotFound))
    else
      GetContext(SwitchTo(seen, id, org, workspace), id, true, now)
  }

  function RevokeSession(db: Db, user: UserId, id: SessionId): Db {
    if id in db.sessions && db.sessions[id].user == user then Revoke(db, {id}, Revoked) else db
  }

  function LiveSessions(db: Db, user: UserId, except: Option<SessionId>): set<SessionId> {
    set i | i in db.sessions && db.sessions[i].user == user && !db.sessions[i].revoked && Some(i) != except
  }

  function RevokeAll(db: Db, user: UserId, except: Option<SessionId>): Db {
    Revoke(db, LiveSessions(db, user, except), Revoked)
  }

  // ---------------------------------------------------------------- runs

  datatype Step =
    | DoCreate(user: UserId, ttlSeconds: int, org: Option<nat>, workspace: Option<nat>, now: int)
    | DoGet(id: SessionId, force: bool, now: int)
    | DoRefresh(token: Option<TokenId>, now: int)
    | DoSelect(user: UserId, id: SessionId, org: Option<nat>, workspace: Option<nat>, allowed: bool, now: int)
    | DoRevoke(user: UserId, id: SessionId)
    | DoRevokeAll(user: UserId, except: Option<SessionId>)

  function Apply(db: Db, s: Step): Db {
    match s
    case DoCreate(user, ttl, org, workspace, now) => CreateSession(db, user, ttl, org, workspace, now).0
    case DoGet(id, force, now) => GetContext(db, id, force, now).0
    case DoRefresh(token, now) => Refresh(db, token, now).0
    case DoSelect(user, id, org, workspace, allowed, now) =>
      SelectWorkspace(db, user, id, org, workspace, allowed, now).0
    case DoRevoke(user, id) => RevokeSession(db, user, id)
    case DoRevokeAll(user, except) => RevokeAll(db, user, except)
  }

  function Run(db: Db, steps: seq<Step>): Db
    decreases |steps|
  {
    if steps == [] then db else Apply(Run(db, steps[..|steps| - 1]), steps[|steps| - 1])
  }
}
