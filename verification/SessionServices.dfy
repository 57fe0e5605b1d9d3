/** The session service, statement by statement, over its two stores. */
module SessionServices {
  import opened Common
  import opened Text
  import opened SessionModel
  import opened SessionRuns

  class SessionService {
    const config: Config
    var rows: Rows
    var cache: Cache
    var now: nat

    ghost function State(): State
      reads this
    {
      SessionModel.State(rows, cache, now)
    }

    constructor (config: Config)
      ensures this.config == config && State() == SessionRuns.Empty
    {
      this.config := config;
      rows, cache, now := map[], map[], 0;
    }

    method WriteCache(session: Session)
      modifies this`cache
      ensures State() == SessionModel.WriteCache(old(State()), session)
    {
      cache := cache[TokenHash(session.token) :=
        Entry(session.id, session.userId, session.createdAt, session.lastActiveAt, session.expiresAt)];
    }

    method DeleteCache(hash: string)
      modifies this`cache
      ensures cache == old(cache) - {hash}
    {
      cache := cache - {hash};
    }

    method RevokeRow(id: string)
      modifies this`rows
      ensures rows == Revoke(old(rows), id)
    {
      if id in rows && !rows[id].revoked {
        rows := rows[id := rows[id].(revoked := true)];
      }
    }

    method CreateSession(id: string, userId: string, token: string) returns (session: Session)
      requires id !in rows
      modifies this`rows, this`cache
      ensures State() == Create(old(State()), id, userId, token)
      ensures session == SessionOfRow(id, rows[id], token)
    {
      var row := Row(TokenHash(token), userId, now, now, now + SESSION_TTL_MS, false);
      rows := rows[id := row];
      session := SessionOfRow(id, row, token);
      WriteCache(session);
    }

    method FindValidSession(token: string) returns (session: Option<Session>)
      requires Inv(State())
      modifies this`rows, this`cache
      ensures State() == Find(old(State()), token, config).state
      ensures session == Find(old(State()), token, config).session
    {
      if Trim(token) == "" {
        return None;
      }
      var hash := TokenHash(token);
      if hash in cache {
        var entry := cache[hash];
        if entry.expiresAt <= now
           || entry.lastActiveAt + config.idleMs <= now
           || entry.createdAt + config.absoluteMs <= now
        {
          DeleteCache(hash);
          RevokeRow(entry.sessionId);
          return None;
        }
        return Some(SessionOfEntry(entry, Trim(token)));
      }
      session := FindInDatabase(token);
    }

    method FindInDatabase(token: string) returns (session: Option<Session>)
      requires Inv(State())
      modifies this`rows, this`cache
      ensures State() == FindInRows(old(State()), token, config).state
      ensures session == FindInRows(old(State()), token, config).session
    {
      var hash := TokenHash(token);
      if id :| id in rows && rows[id].tokenHash == hash {
        HashIsUnique(rows, id, hash);
        var row := rows[id];
        if row.revoked {
          return None;
        }
        if row.expiresAt <= now
           || row.lastActiveAt + config.idleMs <= now
           || row.createdAt + config.absoluteMs <= now
        {
          RevokeRow(id);
          return None;
        }
        var found := SessionOfRow(id, row, Trim(token));
        WriteCache(found);
        session := Some(found);
      } else {
        session := None;
      }
    }

    method TouchSession(session: Session)
      modifies this`rows, this`cache
      ensures State() == Touch(old(State()), session)
    {
      WriteCache(session.(lastActiveAt := now));
      if session.id in rows {
        rows := rows[session.id := rows[session.id].(lastActiveAt := now)];
      }
    }

    method RefreshSessionIfNeeded(session: Session, newToken: string) returns (refreshed: Option<Session>)
      requires session.id in rows
      modifies this`rows, this`cache
      ensures State() == RefreshIfNeeded(old(State()), session, newToken)
      ensures refreshed.Some? <==> NeedsRefresh(session, now)
      ensures refreshed.Some? ==> refreshed.value == SessionOfRow(session.id, rows[session.id], newToken)
    {
      var remainingMs := session.expiresAt - now;
      if !(remainingMs < REFRESH_THRESHOLD_MS) {
        TouchSession(session);
        return None;
      }
      var previousHash := TokenHash(session.token);
      var row := rows[session.id].(
        tokenHash := TokenHash(newToken), expiresAt := now + SESSION_TTL_MS, lastActiveAt := now);
      rows := rows[session.id := row];
      DeleteCache(previousHash);
      var record := SessionOfRow(session.id, row, newToken);
      WriteCache(record);
      refreshed := Some(record);
    }

    /** The guard in front of every protected route. */
    method Authenticate(token: string, newToken: string) returns (session: Option<Session>, refreshed: Option<Session>)
      requires Inv(State())
      modifies this`rows, this`cache
      ensures State() == UseSession(old(State()), token, newToken, config)
      ensures ReplyOf(session) == Answer(old(State()), Use(token, newToken), config)
    {
      FindKeeps(State(), token, config);
      session := FindValidSession(token);
      refreshed := None;
      if session.Some? {
        refreshed := RefreshSessionIfNeeded(session.value, newToken);
        if refreshed.None? {
          TouchSession(session.value);
        }
      }
    }

    method DeleteSessionByToken(token: string)
      requires Inv(State())
      modifies this`rows, this`cache
      ensures State() == DeleteByToken(old(State()), token)
    {
      if Trim(token) == "" {
        return;
      }
      var hash := TokenHash(token);
      DeleteCache(hash);
      if id :| id in rows && rows[id].tokenHash == hash {
        HashIsUnique(rows, id, hash);
        RevokeRow(id);
      }
    }

    method DeleteSessionById(id: string, userId: string) returns (removed: bool)
      modifies this`rows, this`cache
      ensures State() == DeleteById(old(State()), id, userId)
      ensures removed <==> id in old(rows) && old(rows)[id].userId == userId && !old(rows)[id].revoked
    {
      if id !in rows || rows[id].userId != userId || rows[id].revoked {
        return false;
      }
      DeleteCache(rows[id].tokenHash);
      RevokeRow(id);
      removed := true;
    }

    static function HashesOf(rows: Rows, ids: set<string>): set<string> {
      set id | id in ids && id in rows :: rows[id].tokenHash
    }

    /** The bulk revocation's loop over the cache. */
    method DeleteEntries(ids: set<string>)
      requires ids <= rows.Keys
      modifies this`cache
      ensures cache == old(cache) - HashesOf(rows, ids)
    {
      var rest := ids;
      while rest != {}
        invariant rest <= ids
        invariant cache - HashesOf(rows, rest) == old(cache) - HashesOf(rows, ids)
        decreases |rest|
      {
        var id :| id in rest;
        assert HashesOf(rows, rest) == {rows[id].tokenHash} + HashesOf(rows, rest - {id});
        ghost var was := cache;
        DeleteCache(rows[id].tokenHash);
        rest := rest - {id};
        assert cache - HashesOf(rows, rest) == was - ({rows[id].tokenHash} + HashesOf(rows, rest));
      }
      assert cache == cache - HashesOf(rows, rest);
    }

    /** Every cache entry first, then one update of the rows; the count is of the rows updated. */
    method RevokeAllUserSessions(userId: string, except: Option<string>) returns (count: nat)
      modifies this`rows, this`cache
      ensures State() == RevokeAll(old(State()), userId, except)
      ensures count == |set id | id in old(rows) && Matches(old(rows), id, userId, except)|
    {
      var matching := set id | id in rows && Matches(rows, id, userId, except);
      DeleteEntries(matching);
      rows := map id | id in rows :: if id in matching then rows[id].(revoked := true) else rows[id];
      count := |matching|;
    }
  }
}
