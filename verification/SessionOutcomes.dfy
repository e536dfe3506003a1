/** What each request answers and what it writes, told from the rows before it. */
module SessionOutcomes {
  import opened Common
  import opened SessionModel
  import opened SessionInvariants

  /** A session that may be used at `now`. */
  predicate Usable(db: Db, id: SessionId, now: int) {
    && id in db.sessions && db.sessions[id].status == Active && !db.sessions[id].revoked
    && now < db.sessions[id].expiresAt && now < db.sessions[id].idleExpiresAt
  }

  /** A token that a refresh may spend at `now`. */
  predicate Spendable(db: Db, t: TokenId, now: int) {
    t in db.tokens && db.tokens[t].status == Fresh && !db.tokens[t].revoked && now < db.tokens[t].expiresAt
  }

  /** A context that says of session `id` what its row says. */
  predicate Tells(c: Context, id: SessionId, s: Session) {
    && c.session == id && c.user == s.user && c.version == s.version && c.org == s.org && c.workspace == s.workspace
    && c.lastRefreshedAt == s.lastRefreshedAt && c.expiresAt == s.expiresAt && c.idleExpiresAt == s.idleExpiresAt
  }

  /** An entry kept for the whole seconds that are left of the session, or for a minute if those are fewer. */
  predicate KeptFor(e: Entry, expiresAt: int, now: int) {
    if expiresAt - now < 60_000 then e.until == now + 60_000
    else expiresAt - 1000 < e.until <= expiresAt && (e.until - now) % 1000 == 0
  }

  /** Nothing but the cache entry of `id` differs, which now holds `c`. */
  predicate OnlyCached(db: Db, d: Db, id: SessionId, c: Context, now: int) {
    && d.sessions == db.sessions && d.tokens == db.tokens
    && d.nextSession == db.nextSession && d.nextToken == db.nextToken
    && d.cache - {id} == db.cache - {id}
    && id in d.cache && d.cache[id].context == c && KeptFor(d.cache[id], c.expiresAt, now)
  }

  /** Session `id` is over, with the given status unless it was over before, and so are all its tokens. */
  ghost predicate Closed(db: Db, d: Db, id: SessionId, status: SessionStatus) {
    && d.nextSession == db.nextSession && d.nextToken == db.nextToken && d.cache == db.cache - {id}
    && d.sessions.Keys == db.sessions.Keys && d.tokens.Keys == db.tokens.Keys
    && (forall i | i in db.sessions :: d.sessions[i] ==
          if i == id && !db.sessions[i].revoked then db.sessions[i].(revoked := true, status := status)
          else db.sessions[i])
    && (forall t | t in db.tokens :: d.tokens[t] ==
          if db.tokens[t].session == id && !db.tokens[t].revoked
          then db.tokens[t].(revoked := true, status := Withdrawn)
          else db.tokens[t])
  }

  // ---------------------------------------------------------------- reads

  /** A read past the cache answers exactly for a usable session, and puts an end to one that has run out. */
  lemma ForcedReadOutcome(db: Db, id: SessionId, now: int)
    ensures var (d, reply) := GetContext(db, id, true, now);
            && (reply.Ok? <==> Usable(db, id, now))
            && (reply.Ok? ==> Tells(reply.value, id, db.sessions[id]) && OnlyCached(db, d, id, reply.value, now))
            && (reply.Error? && (id !in db.sessions || db.sessions[id].revoked || db.sessions[id].status != Active) ==>
                  reply.error == SessionRevoked && d == db)
            && (reply.Error? && id in db.sessions && !db.sessions[id].revoked && db.sessions[id].status == Active ==>
                  reply.error == SessionExpired && Closed(db, d, id, Expired))
  {
  }

  /** A plain read answers from an entry that is still there, touching nothing, and else reads past the cache. */
  lemma PlainReadOutcome(db: Db, id: SessionId, now: int)
    ensures GetContext(db, id, false, now)
         == if id in db.cache && now < db.cache[id].until then (db, Ok(db.cache[id].context))
            else GetContext(db, id, true, now)
  {
  }

  // ---------------------------------------------------------------- sign-in

  /** One session more, and one token more that starts its chain. */
  ghost predicate SignedIn(db: Db, d: Db, user: UserId, org: Option<nat>, workspace: Option<nat>, now: int, expiry: int)
  {
    var (id, t) := (db.nextSession, db.nextToken);
    && id !in db.sessions && d.sessions.Keys == db.sessions.Keys + {id} && d.nextSession == id + 1
    && (forall i | i in db.sessions :: d.sessions[i] == db.sessions[i])
    && t !in db.tokens && d.tokens.Keys == db.tokens.Keys + {t} && d.nextToken == t + 1
    && (forall i | i in db.tokens :: d.tokens[i] == db.tokens[i])
    && d.sessions[id].user == user && d.sessions[id].org == org && d.sessions[id].workspace == workspace
    && d.sessions[id].version == 1 && d.sessions[id].lastRefreshedAt == now
    && d.sessions[id].expiresAt == d.sessions[id].idleExpiresAt == expiry
    && d.tokens[t].session == d.tokens[t].family == id && d.tokens[t].user == user
    && d.tokens[t].prev == None && d.tokens[t].expiresAt == expiry
  }

  /** The session and its token as they were inserted. */
  predicate Unspent(d: Db, id: SessionId, t: TokenId) {
    && id in d.sessions && d.sessions[id].status == Active && !d.sessions[id].revoked
    && t in d.tokens && d.tokens[t].status == Fresh && !d.tokens[t].revoked
  }

  lemma InsertOutcome(db: Db, user: UserId, org: Option<nat>, workspace: Option<nat>, now: int, expiry: int)
    requires Inv(db)
    ensures var d := InsertSession(db, user, org, workspace, now, expiry);
            SignedIn(db, d, user, org, workspace, now, expiry) && Unspent(d, db.nextSession, db.nextToken)
  {
  }

  lemma ClosedKeepsSignIn(db: Db, d: Db, e: Db, user: UserId, org: Option<nat>, workspace: Option<nat>, now: int,
                          expiry: int)
    requires Inv(db) && SignedIn(db, d, user, org, workspace, now, expiry) && Closed(d, e, db.nextSession, Expired)
    ensures SignedIn(db, e, user, org, workspace, now, expiry)
  {
  }

  /** The session is answered for if it has not run out already; else it is closed at once. */
  ghost predicate SignInEnds(db: Db, end: (Db, Reply), user: UserId, org: Option<nat>, workspace: Option<nat>, now: int,
                             expiry: int)
  {
    var (d, reply) := end;
    && SignedIn(db, d, user, org, workspace, now, expiry)
    && (reply.Ok? <==> now < expiry)
    && (reply.Ok? ==> Unspent(d, db.nextSession, db.nextToken)
                      && Tells(reply.value, db.nextSession, d.sessions[db.nextSession]))
    && (reply.Error? ==> reply.error == SessionExpired && d.sessions[db.nextSession].status == Expired)
  }

  lemma FirstReadOutcome(db: Db, d: Db, user: UserId, org: Option<nat>, workspace: Option<nat>, now: int, expiry: int)
    requires Inv(db) && SignedIn(db, d, user, org, workspace, now, expiry)
    requires Unspent(d, db.nextSession, db.nextToken)
    ensures SignInEnds(db, GetContext(d, db.nextSession, true, now), user, org, workspace, now, expiry)
  {
    ForcedReadOutcome(d, db.nextSession, now);
    var (e, reply) := GetContext(d, db.nextSession, true, now);
    if expiry <= now {
      ClosedKeepsSignIn(db, d, e, user, org, workspace, now, expiry);
    } else {
      assert e.sessions == d.sessions && e.tokens == d.tokens;
    }
  }

  /** A sign-in adds one session with one token; both run out `ttlSeconds` later. */
  lemma SignInOutcome(db: Db, user: UserId, ttlSeconds: int, org: Option<nat>, workspace: Option<nat>, now: int)
    requires Inv(db)
    ensures SignInEnds(db, CreateSession(db, user, ttlSeconds, org, workspace, now), user, org, workspace, now,
                       now + 1000 * ttlSeconds)
  {
    var expiry := now + 1000 * ttlSeconds;
    var d := InsertSession(db, user, org, workspace, now, expiry);
    assert CreateSession(db, user, ttlSeconds, org, workspace, now) == GetContext(d, db.nextSession, true, now);
    assert SignInEnds(db, GetContext(d, db.nextSession, true, now), user, org, workspace, now, expiry) by {
      InsertOutcome(db, user, org, workspace, now, expiry);
      FirstReadOutcome(db, d, user, org, workspace, now, expiry);
    }
  }

  // ---------------------------------------------------------------- refresh

  /** A refresh is answered exactly for a spendable token. */
  lemma RefreshAnswersIff(db: Db, id: Option<TokenId>, now: int)
    requires Inv(db)
    ensures var reply := Refresh(db, id, now).1;
            && (reply.Ok? <==> id.Some? && Spendable(db, id.value, now))
            && (reply.Error? ==> reply.error == InvalidToken)
  {
    if id.Some? && Spendable(db, id.value, now) {
      RefreshOutcome(db, id.value, now);
    }
  }

  /** The spent token is used up, a new one follows it with the same expiry, and the session notes the time. */
  ghost predicate HandedOver(db: Db, d: Db, id: TokenId, now: int)
    requires id in db.tokens && db.tokens[id].session in db.sessions
  {
    var (t, next) := (db.tokens[id], db.nextToken);
    && next !in db.tokens && d.nextToken == next + 1 && d.nextSession == db.nextSession
    && d.tokens == db.tokens[id := t.(status := Used)]
                            [next := Token(t.session, t.user, t.family, Some(id), Fresh, false, t.expiresAt)]
    && d.sessions == db.sessions[t.session := db.sessions[t.session].(lastRefreshedAt := now)]
    && d.cache - {t.session} == db.cache - {t.session}
  }

  lemma RotatedRead(db: Db, d: Db, id: TokenId, now: int)
    requires Inv(db) && Spendable(db, id, now) && HandedOver(db, d, id, now)
    ensures var (e, reply) := GetContext(d, db.tokens[id].session, true, now);
            && reply.Ok? && HandedOver(db, e, id, now)
            && Tells(reply.value, db.tokens[id].session, e.sessions[db.tokens[id].session])
  {
    assert SessionOk(db.sessions[db.tokens[id].session]);
    ForcedReadOutcome(d, db.tokens[id].session, now);
  }

  lemma RefreshOutcome(db: Db, id: TokenId, now: int)
    requires Inv(db) && Spendable(db, id, now)
    ensures var (d, reply) := Refresh(db, Some(id), now);
            && reply.Ok? && HandedOver(db, d, id, now)
            && Tells(reply.value, db.tokens[id].session, d.sessions[db.tokens[id].session])
  {
    assert SessionOk(db.sessions[db.tokens[id].session]);
    assert HandedOver(db, Rotate(db, id, now), id, now);
    RotatedRead(db, Rotate(db, id, now), id, now);
    assert Refresh(db, Some(id), now) == GetContext(Rotate(db, id, now), db.tokens[id].session, true, now);
  }

  /** Any other known token ends its session: every token of it is marked as reused, and nothing else changes. */
  lemma ReuseOutcome(db: Db, id: TokenId, now: int)
    requires Inv(db) && id in db.tokens && !Spendable(db, id, now)
    ensures var (d, reply) := Refresh(db, Some(id), now);
            var (sid, row) := (db.tokens[id].session, db.sessions[db.tokens[id].session]);
            && reply == Error(InvalidToken) && d.nextToken == db.nextToken && d.nextSession == db.nextSession
            && d.cache == db.cache - {sid} && d.tokens.Keys == db.tokens.Keys
            && (forall t | t in db.tokens :: d.tokens[t] ==
                  if db.tokens[t].session == sid then db.tokens[t].(status := Reused, revoked := true)
                  else db.tokens[t])
            && d.sessions == (if row.revoked then db.sessions
                              else db.sessions[sid := row.(revoked := true, status := Revoked)])
  {
    MarkOutcome(db, db.tokens[id]);
    EndOutcome(db, db.tokens[id]);
    assert Refresh(db, Some(id), now) == (EndFamily(db, db.tokens[id]), Error(InvalidToken));
  }

  lemma EndOutcome(db: Db, t: Token)
    requires t.session in db.sessions
    ensures var (d, row) := (EndFamily(db, t), db.sessions[t.session]);
            && d.nextToken == db.nextToken && d.nextSession == db.nextSession && d.cache == db.cache - {t.session}
            && d.sessions == if row.revoked then db.sessions
                             else db.sessions[t.session := row.(revoked := true, status := Revoked)]
  {
  }

  lemma MarkOutcome(db: Db, t: Token)
    requires Inv(db) && t.session in db.sessions && t.family == t.session && t.user == db.sessions[t.session].user
    ensures var d := EndFamily(db, t);
            d.tokens.Keys == db.tokens.Keys
            && forall i | i in db.tokens :: d.tokens[i] ==
                 if db.tokens[i].session == t.session then db.tokens[i].(status := Reused, revoked := true)
                 else db.tokens[i]
  {
    forall i | i in db.tokens
      ensures EndFamily(db, t).tokens[i] ==
              if db.tokens[i].session == t.session then db.tokens[i].(status := Reused, revoked := true)
              else db.tokens[i]
    {
      assert Agrees(db.tokens[i], db.sessions[db.tokens[i].session]);
    }
  }

  /** A token that is not known changes nothing. */
  lemma UnknownTokenOutcome(db: Db, id: Option<TokenId>, now: int)
    requires id.Some? ==> id.value !in db.tokens
    ensures Refresh(db, id, now) == (db, Error(InvalidToken))
  {
  }

  // ---------------------------------------------------------------- switch

  /** A switch the caller is entitled to. */
  predicate Granted(db: Db, user: UserId, id: SessionId, allowed: bool, now: int) {
    Usable(db, id, now) && db.sessions[id].user == user && allowed
  }

  /** A switch happens exactly if it is granted; then row and reply show the new place, one version later. */
  lemma SwitchOutcome(db: Db, user: UserId, id: SessionId, org: Option<nat>, workspace: Option<nat>, allowed: bool,
                      now: int)
    ensures var (d, reply) := SelectWorkspace(db, user, id, org, workspace, allowed, now);
            && (reply.Ok? <==> Granted(db, user, id, allowed, now))
            && (reply.Ok? ==>
                  && d.sessions.Keys == db.sessions.Keys && d.sessions - {id} == db.sessions - {id}
                  && d.sessions[id].org == org && d.sessions[id].workspace == workspace
                  && d.sessions[id].version == db.sessions[id].version + 1
                  && d.sessions[id].(org := None, workspace := None, version := 0)
                     == db.sessions[id].(org := None, workspace := None, version := 0)
                  && Tells(reply.value, id, d.sessions[id])
                  && OnlyCached(db.(sessions := d.sessions), d, id, reply.value, now))
  {
    ForcedReadOutcome(db, id, now);
    var (seen, reply) := GetContext(db, id, true, now);
    if Granted(db, user, id, allowed, now) {
      ForcedReadOutcome(SwitchTo(seen, id, org, workspace), id, now);
    }
  }

  /** Any other switch is refused like a read, or as forbidden, and changes no more than a read does. */
  lemma RefusedSwitchOutcome(db: Db, user: UserId, id: SessionId, org: Option<nat>, workspace: Option<nat>,
                             allowed: bool, now: int)
    requires !Granted(db, user, id, allowed, now)
    ensures var (d, reply) := SelectWorkspace(db, user, id, org, workspace, allowed, now);
            && d == GetContext(db, id, true, now).0
            && reply == if Usable(db, id, now) then Error(Forbidden) else GetContext(db, id, true, now).1
  {
  }

  // ---------------------------------------------------------------- revocation

  /** A user can close a session of their own, and only that. */
  lemma RevokeOutcome(db: Db, user: UserId, id: SessionId)
    ensures var d := RevokeSession(db, user, id);
            if id in db.sessions && db.sessions[id].user == user then Closed(db, d, id, Revoked) else d == db
  {
  }

  /** Closing all sessions of a user spares the excepted one and everybody else's. */
  lemma RevokeAllOutcome(db: Db, user: UserId, except: Option<SessionId>, i: SessionId, t: TokenId)
    requires Inv(db)
    ensures var d := RevokeAll(db, user, except);
            && d.sessions.Keys == db.sessions.Keys && d.tokens.Keys == db.tokens.Keys
            && d.nextSession == db.nextSession && d.nextToken == db.nextToken
            && (i in db.sessions ==>
                  d.sessions[i] == if db.sessions[i].user == user && Some(i) != except && !db.sessions[i].revoked
                                   then db.sessions[i].(revoked := true, status := Revoked) else db.sessions[i])
            && (t in db.tokens ==>
                  var u := db.tokens[t];
                  d.tokens[t] == if u.user == user && Some(u.session) != except && !u.revoked
                                 then u.(revoked := true, status := Withdrawn) else u)
            && (i in d.cache <==>
                  i in db.cache && !(db.sessions[i].user == user && Some(i) != except))
            && (i in d.cache ==> d.cache[i] == db.cache[i])
  {
    if t in db.tokens {
      assert Agrees(db.tokens[t], db.sessions[db.tokens[t].session]);
    }
    if i in db.cache {
      assert EntryOk(i, db.cache[i], db.sessions[i]);
    }
  }

  // ---------------------------------------------------------------- over whole runs

  /** The steps that say where session `id` works: its sign-in and the switches granted to it. */
  predicate Places(db: Db, s: Step, id: SessionId) {
    match s
    case DoCreate(_, _, _, _, _) => id == db.nextSession
    case DoSelect(user, i, _, _, allowed, now) => i == id && Granted(db, user, id, allowed, now)
    case _ => false
  }

  predicate SamePlace(s: Session, r: Session) {
    r.org == s.org && r.workspace == s.workspace && r.version == s.version
  }

  lemma RevokeStays(db: Db, ids: set<SessionId>, status: SessionStatus, id: SessionId)
    requires id in db.sessions
    ensures var d := Revoke(db, ids, status); id in d.sessions && SamePlace(db.sessions[id], d.sessions[id])
  {
  }

  lemma ReadStays(db: Db, id: SessionId, force: bool, now: int, i: SessionId)
    requires i in db.sessions
    ensures var d := GetContext(db, id, force, now).0; i in d.sessions && SamePlace(db.sessions[i], d.sessions[i])
  {
    RevokeStays(db, {id}, Expired, i);
  }

  lemma RefreshStays(db: Db, token: Option<TokenId>, now: int, i: SessionId)
    requires Inv(db) && i in db.sessions
    ensures var d := Refresh(db, token, now).0; i in d.sessions && SamePlace(db.sessions[i], d.sessions[i])
  {
    if token.Some? && token.value in db.tokens {
      if Spendable(db, token.value, now) {
        RefreshOutcome(db, token.value, now);
      } else {
        ReuseOutcome(db, token.value, now);
      }
    }
  }

  lemma SwitchStays(db: Db, user: UserId, id: SessionId, org: Option<nat>, workspace: Option<nat>, allowed: bool,
                    now: int, i: SessionId)
    requires i in db.sessions && (i == id ==> !Granted(db, user, id, allowed, now))
    ensures var d := SelectWorkspace(db, user, id, org, workspace, allowed, now).0;
            i in d.sessions && SamePlace(db.sessions[i], d.sessions[i])
  {
    SwitchOutcome(db, user, id, org, workspace, allowed, now);
    if Granted(db, user, id, allowed, now) {
      var d := SelectWorkspace(db, user, id, org, workspace, allowed, now).0;
      assert i in db.sessions - {id} && i in d.sessions - {id};
      assert (db.sessions - {id})[i] == db.sessions[i] && (d.sessions - {id})[i] == d.sessions[i];
    } else {
      RefusedSwitchOutcome(db, user, id, org, workspace, allowed, now);
      ReadStays(db, id, true, now, i);
    }
  }

  lemma SignInStays(db: Db, s: Step, i: SessionId)
    requires Inv(db) && s.DoCreate? && i in db.sessions
    ensures var d := Apply(db, s); i in d.sessions && d.sessions[i] == db.sessions[i]
  {
    SignInOutcome(db, s.user, s.ttlSeconds, s.org, s.workspace, s.now);
  }

  /** A step that is not one of them leaves a session where it was. */
  lemma StepStays(db: Db, s: Step, id: SessionId)
    requires Inv(db) && id in db.sessions && !Places(db, s, id)
    ensures var d := Apply(db, s); id in d.sessions && SamePlace(db.sessions[id], d.sessions[id])
  {
    match s
    case DoCreate(_, _, _, _, _) => SignInStays(db, s, id);
    case DoGet(i, force, now) => ReadStays(db, i, force, now, id);
    case DoRefresh(token, now) => RefreshStays(db, token, now, id);
    case DoSelect(user, i, org, workspace, allowed, now) =>
      SwitchStays(db, user, i, org, workspace, allowed, now, id);
    case DoRevoke(user, i) => RevokeStays(db, {i}, Revoked, id);
    case DoRevokeAll(user, except) => RevokeStays(db, LiveSessions(db, user, except), Revoked, id);
  }

  /** A step that is one of them puts the session where it says. */
  lemma StepPlaces(db: Db, s: Step, id: SessionId)
    requires Inv(db) && Places(db, s, id)
    ensures var d := Apply(db, s);
            && id in d.sessions && d.sessions[id].org == s.org && d.sessions[id].workspace == s.workspace
            && (s.DoCreate? ==> id !in db.sessions && d.sessions[id].version == 1)
            && (s.DoSelect? ==> id in db.sessions && d.sessions[id].version == db.sessions[id].version + 1)
  {
    match s
    case DoCreate(user, ttl, org, workspace, now) => SignInOutcome(db, user, ttl, org, workspace, now);
    case DoSelect(user, i, org, workspace, allowed, now) =>
      SwitchOutcome(db, user, i, org, workspace, allowed, now);
  }

  lemma RefreshAddsNoSession(db: Db, token: Option<TokenId>, now: int)
    requires Inv(db)
    ensures Refresh(db, token, now).0.sessions.Keys == db.sessions.Keys
  {
    if token.Some? && token.value in db.tokens {
      if Spendable(db, token.value, now) {
        RefreshOutcome(db, token.value, now);
      } else {
        ReuseOutcome(db, token.value, now);
      }
    }
  }

  lemma SwitchAddsNoSession(db: Db, user: UserId, id: SessionId, org: Option<nat>, workspace: Option<nat>,
                            allowed: bool, now: int)
    ensures SelectWorkspace(db, user, id, org, workspace, allowed, now).0.sessions.Keys == db.sessions.Keys
  {
    SwitchOutcome(db, user, id, org, workspace, allowed, now);
    if !Granted(db, user, id, allowed, now) {
      RefusedSwitchOutcome(db, user, id, org, workspace, allowed, now);
    }
  }

  /** Only a sign-in makes a session. */
  lemma NewSession(db: Db, s: Step, id: SessionId)
    requires Inv(db) && id !in db.sessions && id in Apply(db, s).sessions
    ensures Places(db, s, id)
  {
    match s
    case DoCreate(user, ttl, org, workspace, now) => SignInOutcome(db, user, ttl, org, workspace, now);
    case DoRefresh(token, now) => RefreshAddsNoSession(db, token, now);
    case DoSelect(user, i, org, workspace, allowed, now) =>
      SwitchAddsNoSession(db, user, i, org, workspace, allowed, now);
    case _ =>
  }

  /** The step of the run that says where session `id` works now: the last of its kind. */
  ghost predicate LastPlacing(steps: seq<Step>, id: SessionId, i: nat) {
    && i < |steps| && Places(Run(EMPTY, steps[..i]), steps[i], id)
    && forall j | i < j < |steps| :: !Places(Run(EMPTY, steps[..j]), steps[j], id)
  }

  /** The version counts the sign-in and the switches granted since. */
  ghost function Placings(steps: seq<Step>, id: SessionId): nat
    decreases |steps|
  {
    if steps == [] then 0
    else
      var n := |steps| - 1;
      Placings(steps[..n], id) + if Places(Run(EMPTY, steps[..n]), steps[n], id) then 1 else 0
  }

  /** The row shows what the last placing step said, and has its number as version. */
  ghost predicate AtLastPlace(steps: seq<Step>, id: SessionId, s: Session) {
    && s.version == Placings(steps, id)
    && exists i: nat :: LastPlacing(steps, id, i) && s.org == steps[i].org && s.workspace == steps[i].workspace
  }

  lemma PlacingExtends(steps: seq<Step>, last: Step, id: SessionId, s: Session, r: Session)
    requires AtLastPlace(steps, id, s) && SamePlace(s, r) && !Places(Run(EMPTY, steps), last, id)
    ensures AtLastPlace(steps + [last], id, r)
  {
    var all := steps + [last];
    var i: nat :| LastPlacing(steps, id, i) && s.org == steps[i].org && s.workspace == steps[i].workspace;
    assert all[..|steps|] == steps && all[..i] == steps[..i] && all[i] == steps[i];
    forall j | i < j < |all| ensures !Places(Run(EMPTY, all[..j]), all[j], id) {
      if j < |steps| {
        assert all[..j] == steps[..j] && all[j] == steps[j];
      }
    }
    assert LastPlacing(all, id, i);
  }

  lemma PlacingIsLast(steps: seq<Step>, last: Step, id: SessionId, s: Session)
    requires Places(Run(EMPTY, steps), last, id)
    requires s.org == last.org && s.workspace == last.workspace && s.version == Placings(steps, id) + 1
    ensures AtLastPlace(steps + [last], id, s)
  {
    var all := steps + [last];
    assert all[..|steps|] == steps;
    assert LastPlacing(all, id, |steps|);
  }

  /** What the steps say about session `id` is what its row shows, if there is one. */
  ghost predicate Tracks(db: Db, steps: seq<Step>, id: SessionId) {
    if id in db.sessions then AtLastPlace(steps, id, db.sessions[id]) else Placings(steps, id) == 0
  }

  lemma OneMorePlaces(steps: seq<Step>, last: Step, db: Db, id: SessionId)
    requires Inv(db) && db == Run(EMPTY, steps) && Tracks(db, steps, id)
    ensures Tracks(Apply(db, last), steps + [last], id)
  {
    var d := Apply(db, last);
    assert (steps + [last])[..|steps|] == steps;
    if Places(db, last, id) {
      StepPlaces(db, last, id);
      PlacingIsLast(steps, last, id, d.sessions[id]);
    } else if id in db.sessions {
      StepStays(db, last, id);
      PlacingExtends(steps, last, id, db.sessions[id], d.sessions[id]);
    } else if id in d.sessions {
      NewSession(db, last, id);
    }
  }

  lemma {:induction false} RunPlaces(steps: seq<Step>, id: SessionId)
    ensures Tracks(Run(EMPTY, steps), steps, id)
    decreases |steps|
  {
    if steps != [] {
      var n := |steps| - 1;
      assert steps == steps[..n] + [steps[n]];
      RunPlaces(steps[..n], id);
      RunInv(steps[..n]);
      OneMorePlaces(steps[..n], steps[n], Run(EMPTY, steps[..n]), id);
    }
  }

  /**
   * Whatever way a session is read after any run, the answer names the organization and the workspace of the last
   * switch granted to it, or of its sign-in, and its version is the number of these.
   */
  lemma ContextFollowsTheLastSwitch(steps: seq<Step>, id: SessionId, force: bool, now: int)
    ensures var reply := GetContext(Run(EMPTY, steps), id, force, now).1;
            reply.Ok? ==>
              && reply.value.version == Placings(steps, id)
              && exists i: nat :: LastPlacing(steps, id, i)
                                  && reply.value.org == steps[i].org && reply.value.workspace == steps[i].workspace
  {
    var db := Run(EMPTY, steps);
    RunInv(steps);
    RunPlaces(steps, id);
    if id in db.cache {
      assert EntryOk(id, db.cache[id], db.sessions[id]);
    }
    if id in db.sessions {
      assert AtLastPlace(steps, id, db.sessions[id]);
    }
  }
}
