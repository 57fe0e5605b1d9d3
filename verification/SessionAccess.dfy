/** Which lookups are accepted, what each request writes to a row, and how long a session in use stays usable. */
module SessionAccess {
  import opened Common
  import opened Text
  import opened SessionModel
  import opened SessionRuns

  // ---- One lookup ----

  /** The row carries the token, is unrevoked, and is before its expiry, its idle limit and its absolute limit. */
  predicate Usable(s: State, id: string, token: string, config: Config) {
    && id in s.rows && s.rows[id].tokenHash == Trim(token) != "" && !s.rows[id].revoked
    && s.now < s.rows[id].expiresAt
    && s.now < s.rows[id].lastActiveAt + config.idleMs
    && s.now < s.rows[id].createdAt + config.absoluteMs
  }

  predicate Finds(found: Found, id: string, userId: string) {
    found.session.Some? && found.session.value.id == id && found.session.value.userId == userId
  }

  lemma CachedFindsIff(s: State, token: string, config: Config, id: string, userId: string)
    requires Inv(s) && Trim(token) != "" && Trim(token) in s.cache
    ensures Finds(Find(s, token, config), id, userId)
       <==> Usable(s, id, token, config) && s.rows[id].userId == userId
  {
    assert EntryMatches(Trim(token), s.cache[Trim(token)], s.rows);
  }

  lemma StoredFindsIff(s: State, token: string, config: Config, id: string, userId: string)
    requires Inv(s) && Trim(token) != ""
    ensures Finds(FindInRows(s, token, config), id, userId)
       <==> Usable(s, id, token, config) && s.rows[id].userId == userId
  {
    if id in s.rows && s.rows[id].tokenHash == Trim(token) {
      HashIsUnique(s.rows, id, Trim(token));
    }
  }

  lemma FindsIff(s: State, token: string, config: Config, id: string, userId: string)
    requires Inv(s)
    ensures Finds(Find(s, token, config), id, userId)
       <==> Usable(s, id, token, config) && s.rows[id].userId == userId
  {
    if Trim(token) != "" {
      if Trim(token) in s.cache {
        CachedFindsIff(s, token, config, id, userId);
      } else {
        StoredFindsIff(s, token, config, id, userId);
      }
    }
  }

  /** A lookup accepts a session exactly when its row carries the token and none of its three limits has passed. */
  lemma AcceptedIff(s: State, token: string, newToken: string, config: Config, id: string, userId: string)
    requires Inv(s)
    ensures Answer(s, Look(token), config) == Accepted(id, userId)
       <==> Usable(s, id, token, config) && s.rows[id].userId == userId
    ensures Answer(s, Use(token, newToken), config) == Accepted(id, userId)
       <==> Usable(s, id, token, config) && s.rows[id].userId == userId
  {
    FindsIff(s, token, config, id, userId);
  }

  // ---- What a request does to a row ----

  predicate Outlived(row: Row, now: nat, config: Config) {
    row.expiresAt <= now || row.lastActiveAt + config.idleMs <= now || row.createdAt + config.absoluteMs <= now
  }

  /** A lookup changes one column of one row: it revokes a row found past one of its limits. */
  lemma LookRow(s: State, token: string, config: Config, id: string)
    requires Inv(s) && id in s.rows
    ensures
      var hit := s.rows[id].tokenHash == Trim(token) != "";
      var after := Find(s, token, config).state.rows;
      && after.Keys == s.rows.Keys
      && after[id] == if hit && Outlived(s.rows[id], s.now, config) then s.rows[id].(revoked := true) else s.rows[id]
  {
    FindIgnoresCache(s, token, config);
    if s.rows[id].tokenHash == Trim(token) {
      HashIsUnique(s.rows, id, Trim(token));
    }
  }

  /** A new session's row: active now, for seven days. */
  lemma LoginRow(s: State, id: string, userId: string, token: string, config: Config)
    ensures Next(s, Login(id, userId, token), config).rows
         == s.rows[id := Row(Trim(token), userId, s.now, s.now, s.now + 604800000, false)]
  {
  }

  lemma RowInUseIs(row: Row, session: Session, newToken: string, now: nat)
    requires session.expiresAt == row.expiresAt
    ensures RowInUse(row, session, newToken, now)
         == if row.expiresAt - now < 86400000 then
              row.(tokenHash := Trim(newToken), expiresAt := now + 604800000, lastActiveAt := now)
            else row.(lastActiveAt := now)
  {
  }

  lemma AcceptedUse(s: State, token: string, newToken: string, config: Config, id: string)
    requires Inv(s) && id in s.rows && Finds(Find(s, token, config), id, s.rows[id].userId)
    ensures var session := Find(s, token, config).session.value;
            && session.expiresAt == s.rows[id].expiresAt
            && Next(s, Use(token, newToken), config).rows
               == s.rows[id := RowInUse(s.rows[id], session, newToken, s.now)]
  {
    var found := Find(s, token, config);
    FindKeeps(s, token, config);
    UseRows(found.state, found.session.value, newToken);
  }

  /** The row of an accepted request is active now; with less than a day left it gets the new token for seven days. */
  lemma UseRow(s: State, token: string, newToken: string, config: Config, id: string)
    requires Inv(s) && Usable(s, id, token, config)
    ensures
      var row, after := s.rows[id], Next(s, Use(token, newToken), config).rows;
      after == s.rows[id :=
        if row.expiresAt - s.now < 86400000 then
          row.(tokenHash := Trim(newToken), expiresAt := s.now + 604800000, lastActiveAt := s.now)
        else row.(lastActiveAt := s.now)]
  {
    FindsIff(s, token, config, id, s.rows[id].userId);
    AcceptedUse(s, token, newToken, config, id);
    RowInUseIs(s.rows[id], Find(s, token, config).session.value, newToken, s.now);
  }

  /** A refused request does to the rows what a lookup does. */
  lemma RefusedUseRows(s: State, token: string, newToken: string, config: Config)
    requires Inv(s) && Find(s, token, config).session.None?
    ensures Next(s, Use(token, newToken), config).rows == Find(s, token, config).state.rows
  {
  }

  // ---- Requests that end a session ----

  predicate Ends(request: Request, row: Row, id: string) {
    match request
    case Logout(token) => row.tokenHash == Trim(token)
    case RevokeById(target, userId) => target == id && userId == row.userId
    case RevokeByUser(userId, except) => userId == row.userId && except != Some(id)
    case _ => false
  }

  /** Unrevoked, with a token, and at least as far from its limits as `seen`. */
  predicate StillGood(rows: Rows, id: string, seen: Row) {
    && id in rows && !rows[id].revoked && rows[id].tokenHash != ""
    && rows[id].userId == seen.userId && rows[id].createdAt == seen.createdAt
    && seen.lastActiveAt <= rows[id].lastActiveAt && seen.expiresAt <= rows[id].expiresAt
  }

  lemma UseKeepsGood(s: State, token: string, newToken: string, config: Config, id: string, seen: Row)
    requires Inv(s) && FreshToken(s, newToken) && StillGood(s.rows, id, seen) && !Outlived(s.rows[id], s.now, config)
    ensures StillGood(Next(s, Use(token, newToken), config).rows, id, seen)
  {
    var found := Find(s, token, config);
    LookRow(s, token, config, id);
    if found.session.Some? {
      var other := found.session.value;
      FindsIff(s, token, config, other.id, other.userId);
      UseRow(s, token, newToken, config, other.id);
    } else {
      RefusedUseRows(s, token, newToken, config);
    }
  }

  lemma DeleteByTokenKeepsOthers(s: State, token: string, id: string)
    requires Inv(s) && id in s.rows && s.rows[id].tokenHash != Trim(token)
    ensures id in DeleteByToken(s, token).rows && DeleteByToken(s, token).rows[id] == s.rows[id]
  {
  }

  lemma LogoutKeepsGood(s: State, token: string, config: Config, id: string, seen: Row)
    requires Inv(s) && StillGood(s.rows, id, seen) && !Outlived(s.rows[id], s.now, config)
    requires s.rows[id].tokenHash != Trim(token)
    ensures StillGood(Next(s, Logout(token), config).rows, id, seen)
  {
    LookRow(s, token, config, id);
    FindKeeps(s, token, config);
    DeleteByTokenKeepsOthers(Find(s, token, config).state, token, id);
  }

  /** A request that does not end a live session keeps it, no nearer to its limits. */
  lemma RequestKeepsGood(s: State, request: Request, config: Config, id: string, seen: Row)
    requires Inv(s) && Enabled(s, request) && StillGood(s.rows, id, seen)
    requires !Outlived(s.rows[id], s.now, config) && !Ends(request, s.rows[id], id)
    ensures StillGood(Next(s, request, config).rows, id, seen)
  {
    match request
    case Look(token) => LookRow(s, token, config, id);
    case Use(token, newToken) => UseKeepsGood(s, token, newToken, config, id, seen);
    case Logout(token) => LogoutKeepsGood(s, token, config, id, seen);
    case Login(_, _, _) =>
    case RevokeById(_, _) =>
    case RevokeByUser(_, _) =>
    case Evict(_) =>
    case Tick(_) =>
  }

  // ---- A session in use stays usable ----

  /** From point i on no request ends the session. */
  predicate NoneEnds(states: seq<State>, requests: seq<Request>, i: nat, j: nat, id: string)
    requires j <= |requests| && |requests| < |states|
  {
    forall k {:trigger requests[k]} :: i <= k < j && id in states[k].rows
        ==> !Ends(requests[k], states[k].rows[id], id)
  }

  lemma StepKeepsGood(
    states: seq<State>, requests: seq<Request>, config: Config, k: nat, id: string, seen: Row)
    requires IsRun(states, requests, config) && Inv(states[0]) && k < |requests|
    requires StillGood(states[k].rows, id, seen) && !Outlived(states[k].rows[id], states[k].now, config)
    requires !Ends(requests[k], states[k].rows[id], id)
    ensures StillGood(states[k + 1].rows, id, seen)
  {
    RunKeeps(states, requests, config, k);
    RunStep(states, requests, config, k);
    RequestKeepsGood(states[k], requests[k], config, id, seen);
  }

  lemma TimePasses(states: seq<State>, requests: seq<Request>, config: Config, i: nat, j: nat)
    requires IsRun(states, requests, config) && Inv(states[0]) && i <= j < |states|
    ensures states[i].now <= states[j].now
  {
    RunGrows(states, requests, config, i, j);
  }

  lemma NotYetOutlived(rows: Rows, id: string, seen: Row, now: nat, later: nat, config: Config)
    requires StillGood(rows, id, seen) && now <= later && !Outlived(seen, later, config)
    ensures !Outlived(rows[id], now, config) && !Outlived(seen, now, config)
  {
  }

  lemma {:induction false} GoodOverRuns(
    states: seq<State>, requests: seq<Request>, config: Config, i: nat, j: nat, id: string, seen: Row)
    requires IsRun(states, requests, config) && Inv(states[0]) && i <= j < |states|
    requires StillGood(states[i].rows, id, seen) && NoneEnds(states, requests, i, j, id)
    requires !Outlived(seen, states[j].now, config)
    ensures StillGood(states[j].rows, id, seen)
    decreases j
  {
    if i < j {
      var k := j - 1;
      TimePasses(states, requests, config, k, j);
      NotYetOutlived(states[i].rows, id, seen, states[k].now, states[j].now, config);
      GoodOverRuns(states, requests, config, i, k, id, seen);
      NotYetOutlived(states[k].rows, id, seen, states[k].now, states[j].now, config);
      StepKeepsGood(states, requests, config, k, id, seen);
    }
  }

  /** The row an accepted request leaves, as it bears on later requests. */
  lemma InUse(s: State, token: string, newToken: string, config: Config, id: string, userId: string)
    requires Inv(s) && FreshToken(s, newToken) && Answer(s, Use(token, newToken), config) == Accepted(id, userId)
    ensures
      var after := Next(s, Use(token, newToken), config).rows;
      && id in s.rows && id in after && StillGood(after, id, after[id])
      && after[id].userId == userId && after[id].createdAt == s.rows[id].createdAt && after[id].lastActiveAt == s.now
  {
    AcceptedIff(s, token, newToken, config, id, userId);
    UseRow(s, token, newToken, config, id);
  }

  lemma UsedAt(
    states: seq<State>, requests: seq<Request>, config: Config, i: nat, id: string, userId: string, token: string,
    newToken: string)
    requires IsRun(states, requests, config) && Inv(states[0]) && i < |requests|
    requires requests[i] == Use(token, newToken) && Answer(states[i], requests[i], config) == Accepted(id, userId)
    ensures
      var s, after := states[i], states[i + 1].rows;
      && id in s.rows && id in after && StillGood(after, id, after[id])
      && after[id].userId == userId && after[id].createdAt == s.rows[id].createdAt && after[id].lastActiveAt == s.now
  {
    RunKeeps(states, requests, config, i);
    RunStep(states, requests, config, i);
    InUse(states[i], token, newToken, config, id, userId);
  }

  lemma GoodIsAccepted(s: State, token: string, config: Config, id: string, seen: Row)
    requires Inv(s) && StillGood(s.rows, id, seen) && !Outlived(seen, s.now, config)
    requires Trim(token) == s.rows[id].tokenHash
    ensures Answer(s, Look(token), config) == Accepted(id, seen.userId)
  {
    FindsIff(s, token, config, id, seen.userId);
  }

  /**
   * After an accepted request the session stays accepted, under the token its row then carries, until the idle timeout
   * after that request, the absolute timeout and the expiry the request left, while no request ends it.
   */
  lemma StaysAccepted(
    states: seq<State>, requests: seq<Request>, config: Config, i: nat, j: nat, id: string, userId: string,
    token: string, newToken: string)
    requires IsRun(states, requests, config) && Inv(states[0]) && i < j < |states|
    requires requests[i] == Use(token, newToken) && Answer(states[i], requests[i], config) == Accepted(id, userId)
    requires NoneEnds(states, requests, i + 1, j, id)
    requires id in states[i].rows && id in states[i + 1].rows
    requires states[j].now < states[i].now + config.idleMs
    requires states[j].now < states[i].rows[id].createdAt + config.absoluteMs
    requires states[j].now < states[i + 1].rows[id].expiresAt
    ensures id in states[j].rows && states[j].rows[id].tokenHash != ""
    ensures forall current :: Trim(current) == states[j].rows[id].tokenHash
              ==> Answer(states[j], Look(current), config) == Accepted(id, userId)
  {
    UsedAt(states, requests, config, i, id, userId, token, newToken);
    GoodOverRuns(states, requests, config, i + 1, j, id, states[i + 1].rows[id]);
    RunKeeps(states, requests, config, j);
    forall current | Trim(current) == states[j].rows[id].tokenHash
      ensures Answer(states[j], Look(current), config) == Accepted(id, userId)
    {
      GoodIsAccepted(states[j], current, config, id, states[i + 1].rows[id]);
    }
  }
}
