/**
 * Refresh-token families over whole runs: any sequence of sign-ins, rotations, replays, logouts,
 * revocations and sweeps, with any tokens presented.
 */
module SessionSafety {
  import opened Prelude
  import opened Sessions
  import opened Runs

  /**
   * `begun` remembers when each session would expire, `accessOf` and `refreshOf` which session each token was
   * issued to.
   */
  datatype State = State(t: Tables, begun: map<SessionId, int>, accessOf: map<Token, SessionId>,
                         refreshOf: map<Token, SessionId>)

  const Fresh := State(Tables(map[], map[], 0), map[], map[], map[])

  datatype Op =
    | CreateOp(owner: OwnerId, oldAccess: Option<Token>, oldRefresh: Option<Token>, id: SessionId, newAccess: Token,
               newRefresh: Token)
    | RefreshOp(token: Token, newAccess: Token, newRefresh: Token)
    | LogoutOp(access: Option<Token>, refresh: Option<Token>)
    | RevokeOp(owner: OwnerId, id: SessionId)
    | RevokeOthersOp(owner: OwnerId, token: Token)
    | SweepOp(gone: set<SessionId>)
    | TickOp(elapsed: nat)

  function Apply(s: State, op: Op): State {
    match op
    case CreateOp(owner, oldAccess, oldRefresh, id, access, refresh) =>
      State(AfterCreate(s.t, owner, oldAccess, oldRefresh, id, access, refresh),
            s.begun[id := s.t.now + SESSION_LIFETIME], s.accessOf[access := id], s.refreshOf[refresh := id])
    case RefreshOp(token, access, refresh) =>
      var (t, reply) := AfterRefresh(s.t, token, access, refresh);
      if reply.Rotated? then s.(t := t, accessOf := s.accessOf[access := reply.session],
                                refreshOf := s.refreshOf[refresh := reply.session])
      else s.(t := t)
    case LogoutOp(access, refresh) => s.(t := AfterLogout(s.t, access, refresh))
    case RevokeOp(owner, id) => s.(t := AfterRevoke(s.t, owner, id).0)
    case RevokeOthersOp(owner, token) => s.(t := AfterRevokeOthers(s.t, owner, token).0)
    case SweepOp(gone) => s.(t := AfterDelete(s.t, gone * Expired(s.t)))
    case TickOp(elapsed) => s.(t := s.t.(now := s.t.now + elapsed))
  }

  /** Random tokens and identifiers are fresh. */
  predicate Legal(s: State, op: Op) {
    match op
    case CreateOp(_, _, _, id, access, refresh) => id !in s.begun && access !in s.accessOf && refresh !in s.refreshOf
    case RefreshOp(_, access, refresh) => access !in s.accessOf && refresh !in s.refreshOf
    case _ => true
  }

  /** The one refresh token of a session that has not been consumed. */
  ghost predicate OnlyLive(tokens: map<Token, RefreshToken>, id: SessionId, token: Token) {
    && Live(tokens, id, token)
    && forall k :: Live(tokens, id, k) ==> k == token
  }

  predicate Live(tokens: map<Token, RefreshToken>, id: SessionId, token: Token) {
    token in tokens && tokens[token].session == id && tokens[token].consumed.None?
  }

  /** Every surviving session has exactly one unconsumed refresh token. */
  ghost predicate OneLiveToken(t: Tables) {
    forall id :: id in t.sessions ==> HasOneLive(t.tokens, id)
  }

  ghost predicate HasOneLive(tokens: map<Token, RefreshToken>, id: SessionId) {
    exists token :: OnlyLive(tokens, id, token)
  }

  /** Every session, and every token of its family, still expires when the session was begun to expire. */
  ghost predicate ExpiryFixed(t: Tables, begun: map<SessionId, int>) {
    && (forall id :: id in t.sessions ==> id in begun && t.sessions[id].expires == begun[id])
    && (forall k :: k in t.tokens ==> t.tokens[k].session in t.sessions && t.tokens[k].session in begun
                                      && t.tokens[k].expires == begun[t.tokens[k].session])
  }

  /** Stored tokens are issued ones. */
  ghost predicate TokensIssued(s: State) {
    && (forall id :: id in s.t.sessions ==>
            s.t.sessions[id].access in s.accessOf && s.accessOf[s.t.sessions[id].access] == id)
    && (forall k :: k in s.t.tokens ==> k in s.refreshOf && s.refreshOf[k] == s.t.tokens[k].session)
    && (forall k :: k in s.accessOf ==> s.accessOf[k] in s.begun)
    && (forall k :: k in s.refreshOf ==> s.refreshOf[k] in s.begun)
  }

  ghost predicate Inv(s: State) {
    OneLiveToken(s.t) && ExpiryFixed(s.t, s.begun) && TokensIssued(s)
  }

  /** A session that was deleted or revoked. */
  predicate Dead(s: State, id: SessionId) {
    id in s.begun && (id !in s.t.sessions || s.t.sessions[id].revoked.Some?)
  }

  /** A refresh token that was rotated or whose session is gone. */
  predicate Spent(s: State, token: Token) {
    token in s.refreshOf && (token !in s.t.tokens || s.t.tokens[token].consumed.Some?)
  }

  /** An access token that a rotation replaced, or whose session is gone. */
  predicate Retired(s: State, token: Token) {
    token in s.accessOf && (s.accessOf[token] !in s.t.sessions || s.t.sessions[s.accessOf[token]].access != token)
  }

  /** Death, spending and retirement are for good; expiry dates and issuers never change. */
  ghost predicate Ages(s: State, s': State) {
    && (forall id :: id in s.begun ==> id in s'.begun && s'.begun[id] == s.begun[id])
    && (forall id :: Dead(s, id) ==> Dead(s', id))
    && (forall k :: Spent(s, k) ==> Spent(s', k))
    && (forall k :: Retired(s, k) ==> Retired(s', k))
    && (forall k :: k in s.accessOf ==> k in s'.accessOf && s'.accessOf[k] == s.accessOf[k])
    && (forall k :: k in s.refreshOf ==> k in s'.refreshOf && s'.refreshOf[k] == s.refreshOf[k])
  }

  lemma RevokeKeeps(s: State, ids: set<SessionId>)
    requires Inv(s)
    ensures var s' := s.(t := s.t.(sessions := Revoked(s.t.sessions, ids, s.t.now))); Inv(s') && Ages(s, s')
  {
    hide HasOneLive;
  }

  lemma CreateKeeps(s: State, op: Op)
    requires Inv(s) && op.CreateOp? && Legal(s, op)
    ensures Inv(Apply(s, op)) && Ages(s, Apply(s, op))
  {
    hide Inv, Ages, Revoked;
    var mid := s.(t := AfterLogout(s.t, op.oldAccess, op.oldRefresh));
    RevokeKeeps(s, Identified(s.t, op.oldAccess, op.oldRefresh));
    InsertKeeps(mid, op.owner, op.id, op.newAccess, op.newRefresh);
    assert Apply(s, op) == Inserted(mid, op.owner, op.id, op.newAccess, op.newRefresh);
    AgesIsPreorder();
    assert Ages(s, mid) && Ages(mid, Apply(s, op));
  }

  function Inserted(s: State, owner: OwnerId, id: SessionId, access: Token, refresh: Token): State {
    var session := Session(owner, access, s.t.now + ACCESS_LIFETIME, s.t.now + SESSION_LIFETIME, None);
    State(Tables(s.t.sessions[id := session],
                 s.t.tokens[refresh := RefreshToken(id, None, s.t.now + SESSION_LIFETIME)], s.t.now),
          s.begun[id := s.t.now + SESSION_LIFETIME], s.accessOf[access := id], s.refreshOf[refresh := id])
  }

  /** One more unconsumed token is the live one of a new family, and leaves the other families alone. */
  lemma LiveStarts(tokens: map<Token, RefreshToken>, refresh: Token, row: RefreshToken, x: SessionId)
    requires refresh !in tokens && row.consumed.None?
    requires if row.session == x then forall k :: !Live(tokens, x, k) else HasOneLive(tokens, x)
    ensures HasOneLive(tokens[refresh := row], x)
  {
    var tokens' := tokens[refresh := row];
    if row.session == x {
      forall j | Live(tokens', x, j) ensures j == refresh { assert !Live(tokens, x, j); }
      assert OnlyLive(tokens', x, refresh);
    } else {
      var k :| OnlyLive(tokens, x, k);
      forall j | Live(tokens', x, j) ensures j == k { assert Live(tokens, x, j); }
      assert OnlyLive(tokens', x, k);
    }
  }

  lemma InsertLives(s: State, owner: OwnerId, id: SessionId, access: Token, refresh: Token)
    requires Inv(s) && id !in s.begun && refresh !in s.refreshOf
    ensures OneLiveToken(Inserted(s, owner, id, access, refresh).t)
  {
    hide HasOneLive;
    var row := RefreshToken(id, None, s.t.now + SESSION_LIFETIME);
    forall k ensures !Live(s.t.tokens, id, k) {
      if k in s.t.tokens { assert s.t.tokens[k].session in s.begun; }
    }
    forall x | x in s.t.sessions || x == id ensures HasOneLive(s.t.tokens[refresh := row], x) {
      LiveStarts(s.t.tokens, refresh, row, x);
    }
  }

  /** A new family has one live token. */
  lemma InsertKeeps(s: State, owner: OwnerId, id: SessionId, access: Token, refresh: Token)
    requires Inv(s) && id !in s.begun && access !in s.accessOf && refresh !in s.refreshOf
    ensures Inv(Inserted(s, owner, id, access, refresh)) && Ages(s, Inserted(s, owner, id, access, refresh))
  {
    hide OneLiveToken, ExpiryFixed, TokensIssued, Ages;
    InsertLives(s, owner, id, access, refresh);
    InsertFixes(s, owner, id, access, refresh);
    InsertIssues(s, owner, id, access, refresh);
    InsertAges(s, owner, id, access, refresh);
  }

  lemma InsertFixes(s: State, owner: OwnerId, id: SessionId, access: Token, refresh: Token)
    requires ExpiryFixed(s.t, s.begun) && id !in s.begun
    ensures ExpiryFixed(Inserted(s, owner, id, access, refresh).t, Inserted(s, owner, id, access, refresh).begun)
  {
  }

  lemma InsertIssues(s: State, owner: OwnerId, id: SessionId, access: Token, refresh: Token)
    requires TokensIssued(s) && ExpiryFixed(s.t, s.begun) && id !in s.begun && access !in s.accessOf
             && refresh !in s.refreshOf
    ensures TokensIssued(Inserted(s, owner, id, access, refresh))
  {
  }

  lemma InsertAges(s: State, owner: OwnerId, id: SessionId, access: Token, refresh: Token)
    requires TokensIssued(s) && id !in s.begun && access !in s.accessOf && refresh !in s.refreshOf
    ensures Ages(s, Inserted(s, owner, id, access, refresh))
  {
  }

  /** The family's live token is consumed, and its successor is the only live one. */
  lemma LiveRotates(tokens: map<Token, RefreshToken>, token: Token, at: int, refresh: Token, row: RefreshToken,
                    x: SessionId)
    requires token in tokens && tokens[token].consumed.None? && refresh !in tokens && row.consumed.None?
             && row.session == tokens[token].session
    requires HasOneLive(tokens, x)
    ensures HasOneLive(tokens[token := tokens[token].(consumed := Some(at))][refresh := row], x)
    ensures x == row.session ==>
            OnlyLive(tokens[token := tokens[token].(consumed := Some(at))][refresh := row], x, refresh)
  {
    var tokens' := tokens[token := tokens[token].(consumed := Some(at))][refresh := row];
    var k :| OnlyLive(tokens, x, k);
    assert Live(tokens, row.session, token);
    if x == row.session {
      forall j | Live(tokens', x, j) ensures j == refresh {
        if j != refresh { assert Live(tokens, x, j); }
      }
      assert OnlyLive(tokens', x, refresh);
    } else {
      forall j | Live(tokens', x, j) ensures j == k { assert Live(tokens, x, j); }
      assert OnlyLive(tokens', x, k);
    }
  }

  lemma RotateLives(s: State, token: Token, access: Token, refresh: Token)
    requires Inv(s) && refresh !in s.refreshOf && AfterRefresh(s.t, token, access, refresh).1.Rotated?
    ensures OneLiveToken(AfterRefresh(s.t, token, access, refresh).0)
    ensures OnlyLive(AfterRefresh(s.t, token, access, refresh).0.tokens, s.t.tokens[token].session, refresh)
  {
    hide HasOneLive, OnlyLive;
    var id := s.t.tokens[token].session;
    var row := RefreshToken(id, None, s.t.sessions[id].expires);
    forall x | x in s.t.sessions
      ensures HasOneLive(AfterRefresh(s.t, token, access, refresh).0.tokens, x)
      ensures x == id ==> OnlyLive(AfterRefresh(s.t, token, access, refresh).0.tokens, x, refresh)
    {
      LiveRotates(s.t.tokens, token, s.t.now, refresh, row, x);
    }
  }

  lemma RotateKeeps(s: State, token: Token, access: Token, refresh: Token)
    requires Inv(s) && access !in s.accessOf && refresh !in s.refreshOf
    requires AfterRefresh(s.t, token, access, refresh).1.Rotated?
    ensures Inv(Apply(s, RefreshOp(token, access, refresh))) && Ages(s, Apply(s, RefreshOp(token, access, refresh)))
    ensures OnlyLive(Apply(s, RefreshOp(token, access, refresh)).t.tokens, s.t.tokens[token].session, refresh)
  {
    hide OneLiveToken, OnlyLive, ExpiryFixed, TokensIssued, Ages;
    RotateLives(s, token, access, refresh);
    RotateFixes(s, token, access, refresh);
    RotateIssues(s, token, access, refresh);
    RotateAges(s, token, access, refresh);
  }

  lemma RotateFixes(s: State, token: Token, access: Token, refresh: Token)
    requires ExpiryFixed(s.t, s.begun) && AfterRefresh(s.t, token, access, refresh).1.Rotated?
    ensures ExpiryFixed(AfterRefresh(s.t, token, access, refresh).0, s.begun)
  {
  }

  lemma RotateIssues(s: State, token: Token, access: Token, refresh: Token)
    requires TokensIssued(s) && access !in s.accessOf && refresh !in s.refreshOf
    requires AfterRefresh(s.t, token, access, refresh).1.Rotated?
    ensures TokensIssued(Apply(s, RefreshOp(token, access, refresh)))
  {
  }

  lemma RotateAges(s: State, token: Token, access: Token, refresh: Token)
    requires TokensIssued(s) && access !in s.accessOf && refresh !in s.refreshOf
    requires AfterRefresh(s.t, token, access, refresh).1.Rotated?
    ensures Ages(s, Apply(s, RefreshOp(token, access, refresh)))
  {
  }

  lemma SweepLives(t: Tables, gone: set<SessionId>)
    requires OneLiveToken(t)
    ensures OneLiveToken(AfterDelete(t, gone))
  {
    var t' := AfterDelete(t, gone);
    forall x | x in t'.sessions ensures HasOneLive(t'.tokens, x) {
      var k :| OnlyLive(t.tokens, x, k);
      assert Live(t'.tokens, x, k);
      forall j | Live(t'.tokens, x, j) ensures j == k { assert Live(t.tokens, x, j); }
      assert OnlyLive(t'.tokens, x, k);
    }
  }

  lemma SweepKeeps(s: State, gone: set<SessionId>)
    requires Inv(s)
    ensures Inv(s.(t := AfterDelete(s.t, gone))) && Ages(s, s.(t := AfterDelete(s.t, gone)))
  {
    SweepLives(s.t, gone);
    hide OneLiveToken;
  }

  lemma ApplyKeeps(s: State, op: Op)
    requires Inv(s) && Legal(s, op)
    ensures Inv(Apply(s, op)) && Ages(s, Apply(s, op))
  {
    hide Inv, Ages, Revoked, AfterCreate;
    match op
    case CreateOp(_, _, _, _, _, _) => CreateKeeps(s, op);
    case RefreshOp(token, access, refresh) =>
      var reply := AfterRefresh(s.t, token, access, refresh).1;
      if reply.Rotated? { RotateKeeps(s, token, access, refresh); }
      else if reply.Reused? { RevokeKeeps(s, {reply.session}); }
      else { StaysKept(s); }
    case LogoutOp(access, refresh) => RevokeKeeps(s, Identified(s.t, access, refresh));
    case RevokeOp(owner, id) => if id in OwnedBy(s.t, owner) { RevokeKeeps(s, {id}); } else { StaysKept(s); }
    case RevokeOthersOp(owner, token) =>
      if Current(s.t, owner, token) == {} { StaysKept(s); }
      else { RevokeKeeps(s, OwnedBy(s.t, owner) - Current(s.t, owner, token)); }
    case SweepOp(gone) => SweepKeeps(s, gone * Expired(s.t));
    case TickOp(elapsed) => TickKeeps(s, elapsed);
  }

  lemma StaysKept(s: State)
    requires Inv(s)
    ensures Inv(s) && Ages(s, s)
  {
  }

  lemma TickKeeps(s: State, elapsed: nat)
    requires Inv(s)
    ensures var s' := s.(t := s.t.(now := s.t.now + elapsed)); Inv(s') && Ages(s, s')
  {
    hide HasOneLive;
  }

  // ---------------------------------------------------------------------------------------------
  // Whole runs.

  ghost function At(ops: seq<Op>): State {
    After(Fresh, Apply, ops)
  }

  ghost predicate LegalOps(ops: seq<Op>) {
    LegalRun(Fresh, Apply, Legal, ops)
  }

  lemma EveryStepKeeps()
    ensures Kept(Apply, Legal, Inv) && Related(Apply, Legal, Inv, Ages) && Preorder(Ages) && Inv(Fresh)
  {
    AgesIsPreorder();
    assert Inv(Fresh);
    hide Inv, Ages, Apply, Legal;
    forall s, op | Inv(s) && Legal(s, op) ensures Inv(Apply(s, op)) && Ages(s, Apply(s, op)) {
      ApplyKeeps(s, op);
    }
  }

  lemma AgesIsPreorder()
    ensures Preorder(Ages)
  {
    hide Dead, Spent, Retired;
  }

  lemma ReachableInv(ops: seq<Op>)
    requires LegalOps(ops)
    ensures Inv(At(ops))
  {
    hide Inv, Ages, Apply, Legal;
    EveryStepKeeps();
    InvariantHolds(Fresh, Apply, Legal, Inv, ops);
  }

  lemma StatesAge(ops: seq<Op>, n: nat)
    requires LegalOps(ops) && n <= |ops|
    ensures Ages(At(ops[..n]), At(ops))
  {
    hide Inv, Ages, Apply, Legal;
    EveryStepKeeps();
    StatesRelated(Fresh, Apply, Legal, Inv, Ages, ops, n);
  }

  /** In every reachable state each session has exactly one unconsumed refresh token, and the family expires with it. */
  lemma OneLiveTokenPerSession(ops: seq<Op>, id: SessionId)
    requires LegalOps(ops) && id in At(ops).t.sessions
    ensures HasOneLive(At(ops).t.tokens, id)
    ensures forall k :: k in At(ops).t.tokens && At(ops).t.tokens[k].session == id ==>
            At(ops).t.tokens[k].expires == At(ops).t.sessions[id].expires
  {
    ReachableInv(ops);
    hide HasOneLive;
  }

  /** Rotation never extends a session: as long as it exists it expires when it always did. */
  lemma ExpiryNeverMoves(ops: seq<Op>, n: nat, id: SessionId)
    requires LegalOps(ops) && n <= |ops| && id in At(ops[..n]).t.sessions && id in At(ops).t.sessions
    ensures At(ops).t.sessions[id].expires == At(ops[..n]).t.sessions[id].expires
  {
    PrefixLegal(Fresh, Apply, Legal, ops, n);
    ReachableInv(ops[..n]);
    ReachableInv(ops);
    StatesAge(ops, n);
    hide OneLiveToken, TokensIssued, Dead, Spent, Retired;
  }

  /** Two sessions never share a current access token, which the table's primary key asks for. */
  lemma AccessStaysUnique(ops: seq<Op>)
    requires LegalOps(ops)
    ensures UniqueAccess(At(ops).t.sessions)
  {
    ReachableInv(ops);
    hide OneLiveToken, ExpiryFixed;
  }

  ghost predicate Rotates(s: State, op: Op, token: Token) {
    op.RefreshOp? && op.token == token && AfterRefresh(s.t, token, op.newAccess, op.newRefresh).1.Rotated?
  }

  /** No refresh token ever rotates twice. */
  lemma RotatesAtMostOnce(ops: seq<Op>, token: Token)
    requires LegalOps(ops)
    ensures Count(Fresh, Apply, (s, op) => Rotates(s, op, token), ops) <= 1
  {
    EveryStepKeeps();
    hide Inv, Ages, Apply, Legal, Rotates, Spent;
    forall s, op | Inv(s) && Legal(s, op)
      ensures if Rotates(s, op, token) then !Spent(s, token) && Spent(Apply(s, op), token)
              else Spent(s, token) ==> Spent(Apply(s, op), token)
    {
      RotationSpends(s, op, token);
    }
    CountsAtMostOnce(Fresh, Apply, Legal, Inv, (s, op) => Rotates(s, op, token), s => Spent(s, token), ops);
  }

  lemma RotationConsumes(s: State, op: Op)
    requires op.RefreshOp? && AfterRefresh(s.t, op.token, op.newAccess, op.newRefresh).1.Rotated?
    requires Inv(s) && Legal(s, op)
    ensures !Spent(s, op.token) && Spent(Apply(s, op), op.token)
  {
    hide OneLiveToken, ExpiryFixed;
  }

  lemma RotationSpends(s: State, op: Op, token: Token)
    requires Inv(s) && Legal(s, op)
    ensures if Rotates(s, op, token) then !Spent(s, token) && Spent(Apply(s, op), token)
            else Spent(s, token) ==> Spent(Apply(s, op), token)
  {
    hide Inv, Apply, Dead, Retired;
    if Rotates(s, op, token) {
      RotationConsumes(s, op);
    } else {
      ApplyKeeps(s, op);
    }
  }

  /** Presenting a consumed token kills its family, whoever presents it. */
  lemma ReplayKills(s: State, token: Token, access: Token, refresh: Token)
    requires Inv(s) && token in s.t.tokens && s.t.tokens[token].consumed.Some?
    ensures AfterRefresh(s.t, token, access, refresh).1 == Reused(s.refreshOf[token])
    ensures Dead(Apply(s, RefreshOp(token, access, refresh)), s.refreshOf[token])
  {
    hide OneLiveToken;
  }

  /** So do a logout with any of its tokens, and both revocations. */
  lemma RevocationKills(s: State, id: SessionId, owner: OwnerId, access: Option<Token>, refresh: Option<Token>,
                        token: Token)
    requires Inv(s) && id in s.t.sessions
    ensures access == Some(s.t.sessions[id].access)
            || (refresh.Some? && refresh.value in s.t.tokens && s.t.tokens[refresh.value].session == id) ==>
              Dead(Apply(s, LogoutOp(access, refresh)), id)
    ensures s.t.sessions[id].owner == owner ==> Dead(Apply(s, RevokeOp(owner, id)), id)
    ensures s.t.sessions[id].owner == owner && AfterRevokeOthers(s.t, owner, token).1
            && s.t.sessions[id].access != token ==>
              Dead(Apply(s, RevokeOthersOp(owner, token)), id)
  {
    hide OneLiveToken;
  }

  /** A revoked session keeps the time of its first revocation, whatever names it again. */
  lemma RevokedOnce(s: State, op: Op, x: SessionId)
    requires Inv(s) && Legal(s, op) && x in s.t.sessions && s.t.sessions[x].revoked.Some?
    ensures x in Apply(s, op).t.sessions ==> Apply(s, op).t.sessions[x] == s.t.sessions[x]
  {
    hide OneLiveToken;
  }

  /** A sweep deletes no session that could still be used: no token is accepted, rotates or ends a session otherwise. */
  lemma SweepIsInvisible(s: State, gone: set<SessionId>, token: Token, x: SessionId, access: Token, refresh: Token)
    requires Inv(s)
    ensures var t := Apply(s, SweepOp(gone)).t;
            && (Accepts(t, x, token) <==> Accepts(s.t, x, token))
            && (AfterRefresh(t, token, access, refresh).1 == Rotated(x) <==>
                  AfterRefresh(s.t, token, access, refresh).1 == Rotated(x))
            && (x in t.sessions <==> x in s.t.sessions && !(x in gone && s.t.sessions[x].expires <= s.t.now))
            && (x in t.sessions ==> t.sessions[x] == s.t.sessions[x])
            && (token in t.tokens <==> token in s.t.tokens && s.t.tokens[token].session in t.sessions)
            && (token in t.tokens ==> t.tokens[token] == s.t.tokens[token])
  {
    hide OneLiveToken, TokensIssued;
  }

  /** A sign-in ends exactly what the browser held. */
  lemma SignInEnds(s: State, op: Op, x: SessionId)
    requires Inv(s) && op.CreateOp? && Legal(s, op) && x in s.t.sessions
    ensures x in Apply(s, op).t.sessions && x != op.id
    ensures var held := op.oldAccess == Some(s.t.sessions[x].access)
                        || (op.oldRefresh.Some? && op.oldRefresh.value in s.t.tokens
                            && s.t.tokens[op.oldRefresh.value].session == x);
            if held then Dead(Apply(s, op), x) else Apply(s, op).t.sessions[x] == s.t.sessions[x]
    ensures forall k :: k in s.t.tokens ==> k in Apply(s, op).t.tokens && Apply(s, op).t.tokens[k] == s.t.tokens[k]
  {
    hide OneLiveToken;
  }

  /** Signing out everywhere else keeps the session that asks for it, and everybody else's. */
  lemma AskerStays(s: State, id: SessionId, owner: OwnerId, token: Token, x: SessionId)
    requires Inv(s) && Accepts(s.t, id, token) && s.t.sessions[id].owner == owner && x in s.t.sessions
    ensures var (t, ok) := AfterRevokeOthers(s.t, owner, token);
            && ok && Accepts(t, id, token) && t.tokens == s.t.tokens && t.sessions.Keys == s.t.sessions.Keys
            && (x == id || s.t.sessions[x].owner != owner ==> t.sessions[x] == s.t.sessions[x])
            && (x != id && s.t.sessions[x].owner == owner ==> t.sessions[x].revoked.Some?)
  {
    hide OneLiveToken, ExpiryFixed;
    assert id in Current(s.t, owner, token);
  }

  /** Without a session of that owner behind the token nothing happens. */
  lemma StrangerRevokesNothing(s: State, owner: OwnerId, token: Token)
    requires forall id :: Accepts(s.t, id, token) ==> s.t.sessions[id].owner != owner
    ensures AfterRevokeOthers(s.t, owner, token) == (s.t, false)
  {
    assert forall id :: id !in Current(s.t, owner, token);
  }

  /** A logout and a single revocation end what they name, and leave every other session and all tokens alone. */
  lemma OthersStay(s: State, owner: OwnerId, id: SessionId, access: Option<Token>, refresh: Option<Token>, x: SessionId)
    requires x in s.t.sessions
    ensures var t := AfterRevoke(s.t, owner, id).0;
            t.tokens == s.t.tokens && x in t.sessions
            && (x != id || s.t.sessions[x].owner != owner ==> t.sessions[x] == s.t.sessions[x])
    ensures AfterRevoke(s.t, owner, id).1 <==> id in s.t.sessions && s.t.sessions[id].owner == owner
    ensures var t := AfterLogout(s.t, access, refresh);
            t.tokens == s.t.tokens && x in t.sessions
            && (access != Some(s.t.sessions[x].access)
                && !(refresh.Some? && refresh.value in s.t.tokens && s.t.tokens[refresh.value].session == x) ==>
                  t.sessions[x] == s.t.sessions[x])
  {
  }

  /** Once a session is dead, no token of its family is ever accepted again, as access or as refresh token. */
  lemma DeadFamilyIsNeverAccepted(ops: seq<Op>, n: nat, id: SessionId, token: Token, access: Token, refresh: Token)
    requires LegalOps(ops) && n <= |ops| && Dead(At(ops[..n]), id)
    ensures !Accepts(At(ops).t, id, token)
    ensures token in At(ops).refreshOf && At(ops).refreshOf[token] == id ==>
            !AfterRefresh(At(ops).t, token, access, refresh).1.Rotated?
    ensures token in At(ops).accessOf && At(ops).accessOf[token] == id ==> forall x :: !Accepts(At(ops).t, x, token)
  {
    ReachableInv(ops);
    StatesAge(ops, n);
    hide OneLiveToken, ExpiryFixed, Spent, Retired, Apply, Legal, Inv;
    assert TokensIssued(At(ops)) by { InvParts(At(ops)); }
    assert Dead(At(ops), id);
    hide Ages;
  }

  lemma InvParts(s: State)
    requires Inv(s)
    ensures TokensIssued(s)
  {
  }

  /** After a rotation the previous access token is never accepted again, although its 15 minutes may not be over. */
  lemma RotatedAccessIsNeverAccepted(ops: seq<Op>, n: nat, token: Token, x: SessionId)
    requires LegalOps(ops) && n <= |ops| && Retired(At(ops[..n]), token)
    ensures !Accepts(At(ops).t, x, token)
  {
    ReachableInv(ops);
    StatesAge(ops, n);
    hide OneLiveToken, ExpiryFixed, Spent, Dead, Apply, Legal, Inv;
    assert TokensIssued(At(ops)) by { InvParts(At(ops)); }
    assert Retired(At(ops), token);
    hide Ages;
  }

  lemma RotationRetires(s: State, op: Op, id: SessionId)
    requires Inv(s) && Legal(s, op) && op.RefreshOp?
             && AfterRefresh(s.t, op.token, op.newAccess, op.newRefresh).1 == Rotated(id)
    ensures id in s.t.sessions && Retired(Apply(s, op), s.t.sessions[id].access)
    ensures Apply(s, op).t.sessions[id].access == op.newAccess && OnlyLive(Apply(s, op).t.tokens, id, op.newRefresh)
  {
    RotateKeeps(s, op.token, op.newAccess, op.newRefresh);
    hide OneLiveToken, OnlyLive, Ages;
  }

  function Later(t: Tables, elapsed: nat): Tables {
    t.(now := t.now + elapsed)
  }

  /** What a sign-in hands out works: the access token for 15 minutes, the refresh token once within 30 days. */
  lemma FreshSessionServes(s: State, op: Op, elapsed: nat, access: Token, refresh: Token)
    requires Inv(s) && op.CreateOp? && Legal(s, op)
    ensures elapsed < 900 <==> Accepts(Later(Apply(s, op).t, elapsed), op.id, op.newAccess)
    ensures elapsed < 2592000 <==>
            AfterRefresh(Later(Apply(s, op).t, elapsed), op.newRefresh, access, refresh).1 == Rotated(op.id)
  {
    hide OneLiveToken;
  }

  /** So does what a rotation hands out, as long as the session itself lasts. */
  lemma RotationServes(s: State, op: Op, id: SessionId, elapsed: nat, access: Token, refresh: Token)
    requires Inv(s) && Legal(s, op) && op.RefreshOp?
             && AfterRefresh(s.t, op.token, op.newAccess, op.newRefresh).1 == Rotated(id)
    ensures id in s.t.sessions
    ensures var ends := s.t.sessions[id].expires; var t := Later(Apply(s, op).t, elapsed);
            && (Accepts(t, id, op.newAccess) <==> elapsed < 900 && t.now < ends)
            && (AfterRefresh(t, op.newRefresh, access, refresh).1 == Rotated(id) <==> t.now < ends)
            && AfterRefresh(t, op.token, access, refresh).1 == Reused(id)
  {
    hide OneLiveToken;
  }
}
