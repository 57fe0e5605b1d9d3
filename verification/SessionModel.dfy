/**
 * The session store of `apps/api/src/auth/session.service.ts`: database rows behind an
 * evictable cache. Times are milliseconds. Hashing is taken as injective, so a token hash
 * is the trimmed token itself.
 */
module SessionModel {
  import opened Common
  import opened Text

  const SESSION_TTL_MS: nat := 604800000
  const REFRESH_THRESHOLD_MS: nat := 86400000

  datatype Config = Config(idleMs: nat, absoluteMs: nat)

  datatype Row = Row(
    tokenHash: string, userId: string, createdAt: nat, lastActiveAt: nat, expiresAt: nat, revoked: bool)

  datatype Entry = Entry(sessionId: string, userId: string, createdAt: nat, lastActiveAt: nat, expiresAt: nat)

  datatype Session = Session(
    id: string, token: string, userId: string, createdAt: nat, lastActiveAt: nat, expiresAt: nat)

  type Rows = map<string, Row>

  type Cache = map<string, Entry>

  datatype State = State(rows: Rows, cache: Cache, now: nat)

  datatype Found = Found(state: State, session: Option<Session>)

  function TokenHash(token: string): string {
    Trim(token)
  }

  predicate Expired(createdAt: nat, lastActiveAt: nat, expiresAt: nat, now: nat, config: Config) {
    || expiresAt <= now
    || lastActiveAt + config.idleMs <= now
    || createdAt + config.absoluteMs <= now
  }

  predicate RowExpired(row: Row, now: nat, config: Config) {
    Expired(row.createdAt, row.lastActiveAt, row.expiresAt, now, config)
  }

  predicate EntryExpired(entry: Entry, now: nat, config: Config) {
    Expired(entry.createdAt, entry.lastActiveAt, entry.expiresAt, now, config)
  }

  // ---- Single writes ----

  function EntryOf(session: Session): Entry {
    Entry(session.id, session.userId, session.createdAt, session.lastActiveAt, session.expiresAt)
  }

  function SessionOfRow(id: string, row: Row, token: string): Session {
    Session(id, token, row.userId, row.createdAt, row.lastActiveAt, row.expiresAt)
  }

  function SessionOfEntry(entry: Entry, token: string): Session {
    Session(entry.sessionId, token, entry.userId, entry.createdAt, entry.lastActiveAt, entry.expiresAt)
  }

  function WriteCache(s: State, session: Session): State {
    s.(cache := s.cache[TokenHash(session.token) := EntryOf(session)])
  }

  function Revoke(rows: Rows, id: string): Rows {
    if id in rows then rows[id := rows[id].(revoked := true)] else rows
  }

  /** `updateMany`: every row of the user but the excepted one. */
  function RevokeUser(rows: Rows, userId: string, except: Option<string>): Rows {
    map id | id in rows :: if Matches(rows, id, userId, except) then rows[id].(revoked := true) else rows[id]
  }

  predicate Matches(rows: Rows, id: string, userId: string, except: Option<string>) {
    id in rows && rows[id].userId == userId && !rows[id].revoked && except != Some(id)
  }

  /** The unique row with the token hash. */
  ghost function RowByHash(rows: Rows, hash: string): (id: Option<string>)
    ensures id.Some? ==> id.value in rows && rows[id.value].tokenHash == hash
    ensures id.None? ==> forall i :: i in rows ==> rows[i].tokenHash != hash
  {
    if i :| i in rows && rows[i].tokenHash == hash then Some(i) else None
  }

  // ---- Requests ----

  function Create(s: State, id: string, userId: string, token: string): State {
    var row := Row(TokenHash(token), userId, s.now, s.now, s.now + SESSION_TTL_MS, false);
    WriteCache(s.(rows := s.rows[id := row]), SessionOfRow(id, row, token))
  }

  ghost function FindInRows(s: State, token: string, config: Config): Found {
    var id := RowByHash(s.rows, TokenHash(token));
    if id.None? || s.rows[id.value].revoked then Found(s, None)
    else
      var row := s.rows[id.value];
      if RowExpired(row, s.now, config) then Found(s.(rows := Revoke(s.rows, id.value)), None)
      else
        var session := SessionOfRow(id.value, row, Trim(token));
        Found(WriteCache(s, session), Some(session))
  }

  ghost function Find(s: State, token: string, config: Config): Found {
    var hash := TokenHash(token);
    if hash == "" then Found(s, None)
    else if hash in s.cache then
      var entry := s.cache[hash];
      if EntryExpired(entry, s.now, config) then
        Found(s.(cache := s.cache - {hash}, rows := Revoke(s.rows, entry.sessionId)), None)
      else Found(s, Some(SessionOfEntry(entry, Trim(token))))
    else FindInRows(s, token, config)
  }

  function Touch(s: State, session: Session): State {
    var cached := WriteCache(s, session.(lastActiveAt := s.now));
    if session.id in s.rows then
      cached.(rows := s.rows[session.id := s.rows[session.id].(lastActiveAt := s.now)])
    else cached
  }

  predicate NeedsRefresh(session: Session, now: nat) {
    session.expiresAt - now < REFRESH_THRESHOLD_MS
  }

  /** A new token for the row, its old cache entry gone. */
  function Rotate(s: State, session: Session, token: string): State
    requires session.id in s.rows
  {
    var row := s.rows[session.id].(
      tokenHash := TokenHash(token), expiresAt := s.now + SESSION_TTL_MS, lastActiveAt := s.now);
    WriteCache(
      s.(rows := s.rows[session.id := row], cache := s.cache - {TokenHash(session.token)}),
      SessionOfRow(session.id, row, token))
  }

  function RefreshIfNeeded(s: State, session: Session, token: string): State
    requires session.id in s.rows
  {
    if NeedsRefresh(session, s.now) then Rotate(s, session, token) else Touch(s, session)
  }

  ghost function DeleteByToken(s: State, token: string): State {
    var hash := TokenHash(token);
    if hash == "" then s
    else
      var id := RowByHash(s.rows, hash);
      s.(cache := s.cache - {hash}, rows := if id.Some? then Revoke(s.rows, id.value) else s.rows)
  }

  function DeleteById(s: State, id: string, userId: string): State {
    if id in s.rows && s.rows[id].userId == userId && !s.rows[id].revoked then
      s.(cache := s.cache - {s.rows[id].tokenHash}, rows := Revoke(s.rows, id))
    else s
  }

  function RevokeAll(s: State, userId: string, except: Option<string>): State {
    var hashes := set id | id in s.rows && Matches(s.rows, id, userId, except) :: s.rows[id].tokenHash;
    s.(cache := s.cache - hashes, rows := RevokeUser(s.rows, userId, except))
  }

  // ---- Invariant ----

  ghost predicate HashesUnique(rows: Rows) {
    forall i, j :: i in rows && j in rows && i != j ==> rows[i].tokenHash != rows[j].tokenHash
  }

  /** A cache entry says exactly what an unrevoked row with that token hash says. */
  predicate EntryMatches(hash: string, entry: Entry, rows: Rows) {
    && entry.sessionId in rows
    && var row := rows[entry.sessionId];
    && !row.revoked && row.tokenHash == hash
    && entry == Entry(entry.sessionId, row.userId, row.createdAt, row.lastActiveAt, row.expiresAt)
  }

  ghost predicate Inv(s: State) {
    && HashesUnique(s.rows)
    && (forall i :: i in s.rows ==> s.rows[i].createdAt <= s.rows[i].lastActiveAt <= s.now)
    && (forall hash :: hash in s.cache ==> EntryMatches(hash, s.cache[hash], s.rows))
  }

  /** The record of an accepted lookup agrees with its row. */
  predicate IsCurrent(s: State, session: Session) {
    && session.id in s.rows
    && session == SessionOfRow(session.id, s.rows[session.id], session.token)
    && !s.rows[session.id].revoked
    && s.rows[session.id].tokenHash == TokenHash(session.token)
  }

  ghost predicate FreshToken(s: State, token: string) {
    TokenHash(token) != "" && forall i :: i in s.rows ==> s.rows[i].tokenHash != TokenHash(token)
  }
}
