/**
 * Sessions and refresh-token families of packages/core/src/auth.ts. Only digests are stored, so a
 * token stands for its digest. `Tables` is the value of the two tables, the `After` functions say
 * what one transaction does, and class `Auth` carries it out.
 */
module Sessions {
  import opened Prelude

  type OwnerId = nat
  type SessionId = nat
  type Token = string

  const ACCESS_LIFETIME: int := 15 * 60
  const SESSION_LIFETIME: int := 30 * 24 * 60 * 60

  datatype Session = Session(owner: OwnerId, access: Token, accessExpires: int, expires: int, revoked: Option<int>)

  datatype RefreshToken = RefreshToken(session: SessionId, consumed: Option<int>, expires: int)

  datatype Tables = Tables(sessions: map<SessionId, Session>, tokens: map<Token, RefreshToken>, now: int)

  datatype RefreshReply = Rotated(session: SessionId) | Reused(session: SessionId) | Invalid

  function Revoked(sessions: map<SessionId, Session>, ids: set<SessionId>, now: int): map<SessionId, Session> {
    map id | id in sessions ::
      if id in ids && sessions[id].revoked.None? then sessions[id].(revoked := Some(now)) else sessions[id]
  }

  /** The sessions identified by either token, live or not. */
  function Identified(t: Tables, access: Option<Token>, refresh: Option<Token>): set<SessionId> {
    set id | id in t.sessions
             && ((access.Some? && t.sessions[id].access == access.value)
                 || (refresh.Some? && refresh.value in t.tokens && t.tokens[refresh.value].session == id))
  }

  function OwnedBy(t: Tables, owner: OwnerId): set<SessionId> {
    set id | id in t.sessions && t.sessions[id].owner == owner
  }

  function AfterLogout(t: Tables, access: Option<Token>, refresh: Option<Token>): Tables {
    t.(sessions := Revoked(t.sessions, Identified(t, access, refresh), t.now))
  }

  /** A sign-in revokes what the browser held and starts a family with one refresh token. */
  function AfterCreate(t: Tables, owner: OwnerId, oldAccess: Option<Token>, oldRefresh: Option<Token>,
                       id: SessionId, access: Token, refresh: Token): Tables
  {
    var session := Session(owner, access, t.now + ACCESS_LIFETIME, t.now + SESSION_LIFETIME, None);
    Tables(AfterLogout(t, oldAccess, oldRefresh).sessions[id := session],
           t.tokens[refresh := RefreshToken(id, None, t.now + SESSION_LIFETIME)], t.now)
  }

  /** Whether an access token resolves to this session. */
  predicate Accepts(t: Tables, id: SessionId, token: Token) {
    && id in t.sessions && t.sessions[id].access == token
    && t.sessions[id].accessExpires > t.now && t.sessions[id].expires > t.now && t.sessions[id].revoked.None?
  }

  function AfterRefresh(t: Tables, token: Token, access: Token, refresh: Token): (Tables, RefreshReply) {
    if token !in t.tokens || t.tokens[token].session !in t.sessions then (t, Invalid)
    else
      var row := t.tokens[token];
      var session := t.sessions[row.session];
      if row.consumed.Some? then (t.(sessions := Revoked(t.sessions, {row.session}, t.now)), Reused(row.session))
      else if session.revoked.Some? || !(row.expires > t.now && session.expires > t.now) then (t, Invalid)
      else
        (Tables(t.sessions[row.session := session.(access := access, accessExpires := t.now + ACCESS_LIFETIME)],
                t.tokens[token := row.(consumed := Some(t.now))]
                        [refresh := RefreshToken(row.session, None, session.expires)],
                t.now),
         Rotated(row.session))
  }

  function AfterRevoke(t: Tables, owner: OwnerId, id: SessionId): (Tables, bool) {
    if id in OwnedBy(t, owner) then (t.(sessions := Revoked(t.sessions, {id}, t.now)), true) else (t, false)
  }

  function Current(t: Tables, owner: OwnerId, token: Token): set<SessionId> {
    set id | id in OwnedBy(t, owner) && Accepts(t, id, token)
  }

  /** The session behind the token is checked first; it stays, every other session of the owner is revoked. */
  function AfterRevokeOthers(t: Tables, owner: OwnerId, token: Token): (Tables, bool) {
    if Current(t, owner, token) == {} then (t, false)
    else (t.(sessions := Revoked(t.sessions, OwnedBy(t, owner) - Current(t, owner, token), t.now)), true)
  }

  /** Deleting sessions cascades to their refresh tokens. */
  function AfterDelete(t: Tables, ids: set<SessionId>): Tables {
    t.(sessions := t.sessions - ids, tokens := map k | k in t.tokens && t.tokens[k].session !in ids :: t.tokens[k])
  }

  function Expired(t: Tables): set<SessionId> {
    set id | id in t.sessions && t.sessions[id].expires <= t.now
  }

  /** The table's primary key is the current access-token digest. */
  predicate UniqueAccess(sessions: map<SessionId, Session>) {
    forall a, b :: a in sessions && b in sessions && sessions[a].access == sessions[b].access ==> a == b
  }

  predicate Unused(sessions: map<SessionId, Session>, access: Token) {
    forall id :: id in sessions ==> sessions[id].access != access
  }

  // ---------------------------------------------------------------------------------------------
  // The same transactions over mutable tables.

  class Auth {
    var sessions: map<SessionId, Session>
    var tokens: map<Token, RefreshToken>
    var now: int

    function Stored(): Tables
      reads this
    {
      Tables(sessions, tokens, now)
    }

    constructor ()
      ensures Stored() == Tables(map[], map[], 0)
    {
      sessions, tokens, now := map[], map[], 0;
    }

    /** `UPDATE sessions SET revoked_at = COALESCE(revoked_at, now())` over the given rows. */
    method Revoke(ids: set<SessionId>) returns (count: nat)
      requires ids <= sessions.Keys
      modifies this`sessions
      ensures sessions == Revoked(old(sessions), ids, now) && count == |ids|
    {
      count := 0;
      var left := ids;
      while left != {}
        invariant left <= ids && count == |ids| - |left|
        invariant sessions == Revoked(old(sessions), ids - left, now)
        decreases left
      {
        var id :| id in left;
        if sessions[id].revoked.None? {
          sessions := sessions[id := sessions[id].(revoked := Some(now))];
        }
        left, count := left - {id}, count + 1;
      }
    }

    method CreateSession(owner: OwnerId, oldAccess: Option<Token>, oldRefresh: Option<Token>, id: SessionId,
                         access: Token, refresh: Token)
      requires id !in sessions && refresh !in tokens && Unused(sessions, access)
      modifies this
      ensures Stored() == AfterCreate(old(Stored()), owner, oldAccess, oldRefresh, id, access, refresh)
    {
      var revoked := Revoke(Identified(Stored(), oldAccess, oldRefresh));
      sessions := sessions[id := Session(owner, access, now + ACCESS_LIFETIME, now + SESSION_LIFETIME, None)];
      tokens := tokens[refresh := RefreshToken(id, None, sessions[id].expires)];
    }

    method FindSession(token: Token) returns (found: Option<SessionId>)
      requires UniqueAccess(sessions)
      ensures found.Some? ==> Accepts(Stored(), found.value, token)
      ensures found.None? ==> forall id :: !Accepts(Stored(), id, token)
    {
      var matching := set id | id in sessions && Accepts(Stored(), id, token);
      if matching == {} {
        assert forall id :: Accepts(Stored(), id, token) ==> id in matching;
        return None;
      }
      var id :| id in matching;
      return Some(id);
    }

    method Refresh(token: Token, access: Token, refresh: Token) returns (reply: RefreshReply)
      requires refresh !in tokens && Unused(sessions, access)
      modifies this
      ensures (Stored(), reply) == AfterRefresh(old(Stored()), token, access, refresh)
    {
      if token !in tokens || tokens[token].session !in sessions { return Invalid; }
      var current := tokens[token];
      var session := sessions[current.session];
      if current.consumed.Some? {
        var revoked := Revoke({current.session});
        return Reused(current.session);
      }
      if session.revoked.Some? || current.expires <= now || session.expires <= now { return Invalid; }
      tokens := tokens[token := current.(consumed := Some(now))];
      sessions := sessions[current.session := session.(access := access, accessExpires := now + ACCESS_LIFETIME)];
      tokens := tokens[refresh := RefreshToken(current.session, None, session.expires)];
      return Rotated(current.session);
    }

    method Logout(access: Option<Token>, refresh: Option<Token>)
      modifies this`sessions
      ensures Stored() == AfterLogout(old(Stored()), access, refresh)
    {
      if access.None? && refresh.None? {
        assert Revoked(sessions, {}, now) == sessions;
        assert Identified(Stored(), access, refresh) == {};
        return;
      }
      var revoked := Revoke(Identified(Stored(), access, refresh));
    }

    method RevokeSession(owner: OwnerId, id: SessionId) returns (ok: bool)
      modifies this`sessions
      ensures (Stored(), ok) == AfterRevoke(old(Stored()), owner, id)
    {
      if id !in sessions || sessions[id].owner != owner { return false; }
      var revoked := Revoke({id});
      return true;
    }

    method RevokeOtherSessions(owner: OwnerId, token: Token) returns (ok: bool)
      requires UniqueAccess(sessions)
      modifies this`sessions
      ensures (Stored(), ok) == AfterRevokeOthers(old(Stored()), owner, token)
    {
      var found := FindSession(token);
      if found.None? || sessions[found.value].owner != owner {
        assert Current(Stored(), owner, token) == {};
        return false;
      }
      assert Current(Stored(), owner, token) == {found.value};
      var revoked := Revoke(OwnedBy(Stored(), owner) - {found.value});
      return true;
    }

    /** `ORDER BY expires_at LIMIT batch`. */
    method Oldest(candidates: set<SessionId>, batch: nat) returns (chosen: set<SessionId>)
      requires candidates <= sessions.Keys
      ensures chosen <= candidates && |chosen| <= batch && (|chosen| < batch ==> chosen == candidates)
      ensures NoLater(sessions, chosen, candidates - chosen)
    {
      chosen := {};
      var left := candidates;
      while left != {} && |chosen| < batch
        invariant chosen !! left && chosen + left == candidates && |chosen| <= batch
        invariant NoLater(sessions, chosen, left)
        decreases left
      {
        var rows := sessions;
        ghost var oldest := LeastExists(left, id => if id in rows then rows[id].expires else 0);
        var id :| id in left && forall x :: x in left ==> sessions[id].expires <= sessions[x].expires;
        chosen, left := chosen + {id}, left - {id};
      }
      assert left == candidates - chosen;
    }

    /** One bounded batch, oldest first; rows locked by another sweep are skipped. */
    method SweepExpired(batch: nat, locked: set<SessionId>) returns (gone: set<SessionId>)
      modifies this`sessions, this`tokens
      ensures gone <= Expired(old(Stored())) - locked && |gone| <= batch
      ensures |gone| < batch ==> gone == Expired(old(Stored())) - locked
      ensures NoLater(old(sessions), gone, Expired(old(Stored())) - locked - gone)
      ensures Stored() == AfterDelete(old(Stored()), gone)
    {
      gone := Oldest(Expired(Stored()) - locked, batch);
      sessions, tokens := sessions - gone, map k | k in tokens && tokens[k].session !in gone :: tokens[k];
    }
  }

  ghost predicate NoLater(sessions: map<SessionId, Session>, a: set<SessionId>, b: set<SessionId>) {
    forall x, y :: x in a && y in b && x in sessions && y in sessions ==> sessions[x].expires <= sessions[y].expires
  }
}
