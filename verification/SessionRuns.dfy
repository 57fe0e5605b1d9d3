/** Runs of whole requests: the cache is invisible, lifetimes end, revocation is for ever. */
module SessionRuns {
  import opened Common
  import opened Text
  import opened SessionModel

  datatype Request =
    | Login(id: string, userId: string, token: string)
    | Look(token: string)
    | Use(token: string, newToken: string)
    | Logout(token: string)
    | RevokeById(id: string, userId: string)
    | RevokeByUser(userId: string, except: Option<string>)
    | Evict(hash: string)
    | Tick(elapsed: nat)

  /** Ids and tokens that the service generates are new. */
  ghost predicate Enabled(s: State, request: Request) {
    match request
    case Login(id, _, token) => id !in s.rows && FreshToken(s, token)
    case Use(_, newToken) => FreshToken(s, newToken)
    case _ => true
  }

  datatype Reply = Denied | Accepted(id: string, userId: string)

  function ReplyOf(session: Option<Session>): Reply {
    if session.Some? then Accepted(session.value.id, session.value.userId) else Denied
  }

  /** The answer of the lookup a request starts with; requests without one are denied nothing and accept nothing. */
  ghost function Answer(s: State, request: Request, config: Config): Reply {
    match request
    case Look(token) => ReplyOf(Find(s, token, config).session)
    case Use(token, _) => ReplyOf(Find(s, token, config).session)
    case Logout(token) => ReplyOf(Find(s, token, config).session)
    case _ => Denied
  }

  /** An authenticated request: find, then refresh or touch, as the guard does. */
  ghost function UseSession(s: State, token: string, newToken: string, config: Config): State {
    var found := Find(s, token, config);
    if found.session.None? || found.session.value.id !in found.state.rows then found.state
    else
      var session := found.session.value;
      var refreshed := RefreshIfNeeded(found.state, session, newToken);
      if NeedsRefresh(session, found.state.now) then refreshed else Touch(refreshed, session)
  }

  ghost function Next(s: State, request: Request, config: Config): State {
    match request
    case Login(id, userId, token) => Create(s, id, userId, token)
    case Look(token) => Find(s, token, config).state
    case Use(token, newToken) => UseSession(s, token, newToken, config)
    case Logout(token) => DeleteByToken(Find(s, token, config).state, token)
    case RevokeById(id, userId) => DeleteById(s, id, userId)
    case RevokeByUser(userId, except) => RevokeAll(s, userId, except)
    case Evict(hash) => s.(cache := s.cache - {hash})
    case Tick(elapsed) => s.(now := s.now + elapsed)
  }

  /** The same store with the cache emptied before the request: every lookup goes to the rows. */
  function Uncached(s: State): State {
    s.(cache := map[])
  }

  const Empty := State(map[], map[], 0)

  ghost predicate IsRun(states: seq<State>, requests: seq<Request>, config: Config) {
    && |states| == |requests| + 1
    && forall i {:trigger requests[i]} :: 0 <= i < |requests| ==>
                     Enabled(states[i], requests[i]) && states[i + 1] == Next(states[i], requests[i], config)
  }

  // ---- Lookups ----

  lemma HashIsUnique(rows: Rows, id: string, hash: string)
    requires HashesUnique(rows) && id in rows && rows[id].tokenHash == hash
    ensures RowByHash(rows, hash) == Some(id)
  {
    var found := RowByHash(rows, hash);
    assert found.Some?;
  }

  /** A lookup answers, and changes the rows, as a lookup in the rows alone would. */
  lemma FindIgnoresCache(s: State, token: string, config: Config)
    requires Inv(s)
    ensures Find(s, token, config).session == Find(Uncached(s), token, config).session
    ensures Find(s, token, config).state.rows == Find(Uncached(s), token, config).state.rows
  {
    var hash := TokenHash(token);
    if hash in s.cache {
      assert EntryMatches(hash, s.cache[hash], s.rows);
      HashIsUnique(s.rows, s.cache[hash].sessionId, hash);
    }
  }

  lemma FindInCacheKeeps(s: State, token: string, config: Config)
    requires Inv(s) && TokenHash(token) in s.cache && TokenHash(token) != ""
    ensures FindsWell(s, Find(s, token, config), token, config)
  {
    var hash := TokenHash(token);
    TrimIsIdempotent(token);
    assert EntryMatches(hash, s.cache[hash], s.rows);
  }

  lemma FindInRowsKeeps(s: State, token: string, config: Config)
    requires Inv(s) && TokenHash(token) !in s.cache
    ensures FindsWell(s, FindInRows(s, token, config), token, config)
  {
    TrimIsIdempotent(token);
  }

  /** The store stays consistent, and an accepted session is the current state of a live row. */
  ghost predicate FindsWell(s: State, found: Found, token: string, config: Config) {
    && Inv(found.state) && found.state.now == s.now
    && (found.session.Some? ==>
          var session := found.session.value;
          && IsCurrent(found.state, session)
          && found.state.rows == s.rows
          && !RowExpired(s.rows[session.id], s.now, config)
          && session.token == Trim(token))
  }

  lemma FindKeeps(s: State, token: string, config: Config)
    requires Inv(s)
    ensures FindsWell(s, Find(s, token, config), token, config)
  {
    if TokenHash(token) != "" {
      if TokenHash(token) in s.cache {
        FindInCacheKeeps(s, token, config);
      } else {
        FindInRowsKeeps(s, token, config);
      }
    }
  }

  // ---- Each request keeps the invariant ----

  lemma TouchKeeps(s: State, session: Session)
    requires Inv(s) && IsCurrent(s, session)
    ensures Inv(Touch(s, session))
    ensures Touch(s, session).rows == s.rows[session.id := s.rows[session.id].(lastActiveAt := s.now)]
    ensures IsCurrent(Touch(s, session), session.(lastActiveAt := s.now))
    ensures Touch(Touch(s, session), session) == Touch(s, session)
  {
  }

  lemma RotateKeeps(s: State, session: Session, token: string)
    requires Inv(s) && IsCurrent(s, session) && FreshToken(s, token)
    ensures Inv(Rotate(s, session, token))
  {
  }

  lemma CreateKeeps(s: State, id: string, userId: string, token: string)
    requires Inv(s) && id !in s.rows && FreshToken(s, token)
    ensures Inv(Create(s, id, userId, token))
  {
  }

  lemma UseKeeps(s: State, token: string, newToken: string, config: Config)
    requires Inv(s) && FreshToken(s, newToken)
    ensures Inv(UseSession(s, token, newToken, config))
  {
    FindKeeps(s, token, config);
    var found := Find(s, token, config);
    if found.session.Some? {
      TouchKeeps(found.state, found.session.value);
      RotateKeeps(found.state, found.session.value, newToken);
    }
  }

  lemma DeleteByTokenKeeps(s: State, token: string)
    requires Inv(s)
    ensures Inv(DeleteByToken(s, token))
  {
  }

  lemma DeleteByIdKeeps(s: State, id: string, userId: string)
    requires Inv(s)
    ensures Inv(DeleteById(s, id, userId))
  {
  }

  lemma RevokeAllKeeps(s: State, userId: string, except: Option<string>)
    requires Inv(s)
    ensures Inv(RevokeAll(s, userId, except))
  {
  }

  lemma RequestKeeps(s: State, request: Request, config: Config)
    requires Inv(s) && Enabled(s, request)
    ensures Inv(Next(s, request, config))
  {
    match request
    case Login(id, userId, token) => CreateKeeps(s, id, userId, token);
    case Look(token) => FindKeeps(s, token, config);
    case Use(token, newToken) => UseKeeps(s, token, newToken, config);
    case Logout(token) =>
      FindKeeps(s, token, config);
      DeleteByTokenKeeps(Find(s, token, config).state, token);
    case RevokeById(id, userId) => DeleteByIdKeeps(s, id, userId);
    case RevokeByUser(userId, except) => RevokeAllKeeps(s, userId, except);
    case Evict(hash) =>
    case Tick(elapsed) =>
  }

  lemma {:induction false} RunKeeps(states: seq<State>, requests: seq<Request>, config: Config, i: nat)
    requires IsRun(states, requests, config) && Inv(states[0]) && i < |states|
    ensures Inv(states[i])
  {
    if i > 0 {
      RunKeeps(states, requests, config, i - 1);
      RequestKeeps(states[i - 1], requests[i - 1], config);
    }
  }

  // ---- The cache is invisible ----

  lemma UseIgnoresCache(s: State, token: string, newToken: string, config: Config)
    requires Inv(s)
    ensures UseSession(s, token, newToken, config).rows == UseSession(Uncached(s), token, newToken, config).rows
    ensures UseSession(s, token, newToken, config).now == UseSession(Uncached(s), token, newToken, config).now
  {
    FindIgnoresCache(s, token, config);
    FindKeeps(s, token, config);
    FindKeeps(Uncached(s), token, config);
    var a, b := Find(s, token, config), Find(Uncached(s), token, config);
    if a.session.Some? {
      UseRows(a.state, a.session.value, newToken);
      UseRows(b.state, a.session.value, newToken);
    }
  }

  /** What an accepted request writes to the rows. */
  function RowInUse(row: Row, session: Session, newToken: string, now: nat): Row {
    if NeedsRefresh(session, now) then
      row.(tokenHash := TokenHash(newToken), expiresAt := now + SESSION_TTL_MS, lastActiveAt := now)
    else row.(lastActiveAt := now)
  }

  lemma UseRows(s: State, session: Session, newToken: string)
    requires session.id in s.rows
    ensures
      var refreshed := RefreshIfNeeded(s, session, newToken);
      var after := if NeedsRefresh(session, s.now) then refreshed else Touch(refreshed, session);
      && after.rows == s.rows[session.id := RowInUse(s.rows[session.id], session, newToken, s.now)]
      && after.now == s.now
  {
  }

  lemma DeleteIgnoresCache(a: State, b: State, token: string)
    requires a.rows == b.rows && a.now == b.now
    ensures DeleteByToken(a, token).rows == DeleteByToken(b, token).rows
    ensures DeleteByToken(a, token).now == DeleteByToken(b, token).now
  {
  }

  lemma LogoutIgnoresCache(s: State, token: string, config: Config)
    requires Inv(s)
    ensures
      var a, b := Find(s, token, config).state, Find(Uncached(s), token, config).state;
      && DeleteByToken(a, token).rows == DeleteByToken(b, token).rows
      && DeleteByToken(a, token).now == DeleteByToken(b, token).now
  {
    FindIgnoresCache(s, token, config);
    FindKeeps(s, token, config);
    FindKeeps(Uncached(s), token, config);
    DeleteIgnoresCache(Find(s, token, config).state, Find(Uncached(s), token, config).state, token);
  }

  /** One request: same answer, same rows, with the cache or without it. */
  lemma RequestIgnoresCache(s: State, request: Request, config: Config)
    requires Inv(s) && Enabled(s, request)
    ensures Answer(s, request, config) == Answer(Uncached(s), request, config)
    ensures Next(s, request, config).rows == Next(Uncached(s), request, config).rows
    ensures Next(s, request, config).now == Next(Uncached(s), request, config).now
  {
    match request
    case Look(token) => FindIgnoresCache(s, token, config);
    case Use(token, newToken) =>
      FindIgnoresCache(s, token, config);
      UseIgnoresCache(s, token, newToken, config);
    case Logout(token) =>
      FindIgnoresCache(s, token, config);
      LogoutIgnoresCache(s, token, config);
    case Login(_, _, _) =>
    case RevokeById(_, _) =>
    case RevokeByUser(_, _) =>
    case Evict(_) =>
    case Tick(_) =>
  }

  /** A store that never uses its cache, driven by the same requests. */
  ghost predicate IsUncachedRun(states: seq<State>, requests: seq<Request>, config: Config) {
    && |states| == |requests| + 1
    && forall i {:trigger requests[i]} :: 0 <= i < |requests|
        ==> states[i + 1] == Next(Uncached(states[i]), requests[i], config)
  }

  /**
   * Along every run, with entries evicted at any time, each lookup is answered as in the run
   * without a cache, and both runs hold the same rows throughout.
   */
  lemma {:induction false} CacheIsTransparent(
    states: seq<State>, plain: seq<State>, requests: seq<Request>, config: Config, i: nat)
    requires IsRun(states, requests, config) && IsUncachedRun(plain, requests, config)
    requires states[0] == Empty == plain[0] && i < |states|
    ensures states[i].rows == plain[i].rows && states[i].now == plain[i].now
    ensures i < |requests| ==>
              Answer(states[i], requests[i], config) == Answer(Uncached(plain[i]), requests[i], config)
  {
    if i > 0 {
      CacheIsTransparent(states, plain, requests, config, i - 1);
      RunKeeps(states, requests, config, i - 1);
      RequestIgnoresCache(states[i - 1], requests[i - 1], config);
      assert Uncached(states[i - 1]) == Uncached(plain[i - 1]);
    }
    if i < |requests| {
      RunKeeps(states, requests, config, i);
      RequestIgnoresCache(states[i], requests[i], config);
      assert Uncached(states[i]) == Uncached(plain[i]);
    }
  }

  // ---- What rows never lose ----

  predicate RowGrows(a: Row, b: Row) {
    && b.userId == a.userId && b.createdAt == a.createdAt
    && a.lastActiveAt <= b.lastActiveAt
    && (a.revoked ==> b.revoked)
  }

  ghost predicate RowsGrow(a: Rows, b: Rows) {
    forall id :: id in a ==> id in b && RowGrows(a[id], b[id])
  }

  lemma UseGrows(s: State, token: string, newToken: string, config: Config)
    requires Inv(s)
    ensures RowsGrow(s.rows, UseSession(s, token, newToken, config).rows)
    ensures UseSession(s, token, newToken, config).now == s.now
  {
    FindKeeps(s, token, config);
    FindGrows(s, token, config);
    var found := Find(s, token, config);
    if found.session.Some? {
      UseRows(found.state, found.session.value, newToken);
      RowInUseGrows(found.state, found.session.value, newToken);
    }
  }

  lemma RowInUseGrows(s: State, session: Session, newToken: string)
    requires Inv(s) && session.id in s.rows
    ensures RowsGrow(s.rows, s.rows[session.id := RowInUse(s.rows[session.id], session, newToken, s.now)])
  {
  }

  ghost predicate StateGrows(a: State, b: State) {
    RowsGrow(a.rows, b.rows) && a.now <= b.now
  }

  lemma GrowsTransitive(a: State, b: State, c: State)
    requires StateGrows(a, b) && StateGrows(b, c)
    ensures StateGrows(a, c)
  {
  }

  lemma RunStep(states: seq<State>, requests: seq<Request>, config: Config, i: nat)
    requires IsRun(states, requests, config) && i < |requests|
    ensures Enabled(states[i], requests[i]) && states[i + 1] == Next(states[i], requests[i], config)
  {
  }

  lemma FindGrows(s: State, token: string, config: Config)
    ensures RowsGrow(s.rows, Find(s, token, config).state.rows)
    ensures Find(s, token, config).state.now == s.now
  {
  }

  lemma DeleteByTokenGrows(s: State, token: string)
    ensures RowsGrow(s.rows, DeleteByToken(s, token).rows) && DeleteByToken(s, token).now == s.now
  {
  }

  lemma RequestGrows(s: State, request: Request, config: Config)
    requires Inv(s) && Enabled(s, request)
    ensures RowsGrow(s.rows, Next(s, request, config).rows)
    ensures s.now <= Next(s, request, config).now
  {
    match request
    case Use(token, newToken) => UseGrows(s, token, newToken, config);
    case Logout(token) =>
      FindGrows(s, token, config);
      DeleteByTokenGrows(Find(s, token, config).state, token);
    case Look(token) => FindGrows(s, token, config);
    case Login(_, _, _) =>
    case RevokeById(_, _) =>
    case RevokeByUser(_, _) =>
    case Evict(_) =>
    case Tick(_) =>
  }

  lemma StepOfRunGrows(states: seq<State>, requests: seq<Request>, config: Config, i: nat)
    requires IsRun(states, requests, config) && Inv(states[0]) && i < |requests|
    ensures StateGrows(states[i], states[i + 1])
  {
    RunKeeps(states, requests, config, i);
    RunStep(states, requests, config, i);
    RequestGrows(states[i], requests[i], config);
  }

  lemma {:induction false} RunGrows(states: seq<State>, requests: seq<Request>, config: Config, i: nat, j: nat)
    requires IsRun(states, requests, config) && Inv(states[0]) && i <= j < |states|
    ensures StateGrows(states[i], states[j])
    decreases j
  {
    if i < j {
      RunGrows(states, requests, config, i, j - 1);
      StepOfRunGrows(states, requests, config, j - 1);
      GrowsTransitive(states[i], states[j - 1], states[j]);
    }
  }

  // ---- Lifetime and revocation ----

  lemma AcceptedRowIsLive(s: State, request: Request, config: Config, id: string, userId: string)
    requires Inv(s) && Answer(s, request, config) == Accepted(id, userId)
    ensures id in s.rows && !s.rows[id].revoked && s.rows[id].userId == userId
    ensures !RowExpired(s.rows[id], s.now, config)
  {
    match request
    case Look(token) => FindKeeps(s, token, config);
    case Use(token, _) => FindKeeps(s, token, config);
    case Logout(token) => FindKeeps(s, token, config);
    case _ =>
  }

  /**
   * A session row seen at point i of a run is accepted at point j only before its creation time
   * plus the absolute timeout, before its last activity plus the idle timeout and before its
   * expiry, whatever touches and rotations lie in between.
   */
  lemma LifetimeIsBounded(
    states: seq<State>, requests: seq<Request>, config: Config, i: nat, j: nat, id: string, userId: string)
    requires IsRun(states, requests, config) && Inv(states[0]) && i <= j < |requests|
    requires id in states[i].rows && Answer(states[j], requests[j], config) == Accepted(id, userId)
    ensures states[j].now < states[i].rows[id].createdAt + config.absoluteMs
    ensures id in states[j].rows
    ensures states[j].now < states[j].rows[id].lastActiveAt + config.idleMs
    ensures states[j].now < states[j].rows[id].expiresAt
    ensures userId == states[i].rows[id].userId
  {
    RunKeeps(states, requests, config, j);
    RunGrows(states, requests, config, i, j);
    AcceptedRowIsLive(states[j], requests[j], config, id, userId);
  }

  /** Once revoked, a session is never accepted again in any continuation. */
  lemma RevokedForEver(
    states: seq<State>, requests: seq<Request>, config: Config, i: nat, j: nat, id: string, userId: string)
    requires IsRun(states, requests, config) && Inv(states[0]) && i <= j < |requests|
    requires id in states[i].rows && states[i].rows[id].revoked
    ensures Answer(states[j], requests[j], config) != Accepted(id, userId)
  {
    if Answer(states[j], requests[j], config) == Accepted(id, userId) {
      RunKeeps(states, requests, config, j);
      RunGrows(states, requests, config, i, j);
      AcceptedRowIsLive(states[j], requests[j], config, id, userId);
    }
  }

  /** Logout, revocation by id and bulk revocation do revoke; so does a lookup of an expired session. */
  lemma RequestsThatRevoke(s: State, request: Request, config: Config, id: string)
    requires Inv(s) && id in s.rows
    requires match request
             case Logout(token) => TokenHash(token) == s.rows[id].tokenHash != ""
             case RevokeById(target, userId) => target == id && userId == s.rows[id].userId
             case RevokeByUser(userId, except) => userId == s.rows[id].userId && except != Some(id)
             case Look(token) => TokenHash(token) == s.rows[id].tokenHash != "" && RowExpired(s.rows[id], s.now, config)
             case _ => false
    ensures id in Next(s, request, config).rows && Next(s, request, config).rows[id].revoked
  {
    match request
    case Logout(token) =>
      FindKeeps(s, token, config);
      HashIsUnique(s.rows, id, TokenHash(token));
      HashIsUnique(Find(s, token, config).state.rows, id, TokenHash(token));
    case Look(token) =>
      HashIsUnique(s.rows, id, TokenHash(token));
      FindIgnoresCache(s, token, config);
    case _ =>
  }
}
