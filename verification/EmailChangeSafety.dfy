/**
 * Where an account's address can come from, over whole runs of registrations, begins, cancels,
 * guesses and clock moves. The log is a history; `Trail` reads from it, without looking at the
 * tables, which request of a user is open and what has been proved for it.
 */
module EmailChangeSafety {
  import opened Prelude
  import opened OneTimeCodes
  import opened EmailChange
  import opened Runs

  datatype Event =
    | Registered(user: UserId, email: Option<Address>)
    | Began(user: UserId, id: RequestId, from_: Address, to: Address, at: int)
    | HalfDone(user: UserId, id: RequestId, side: Side, at: int)
    | Wrong(user: UserId, id: RequestId, side: Side)
    | Closed(user: UserId, id: RequestId)
    | Changed(user: UserId, id: RequestId, from_: Address, to: Address, at: int)

  datatype Trail = NoTrail | Trail(id: RequestId, from_: Address, to: Address, since: int, current: bool, new_: bool)

  /** A begin replaces whatever was open; a code counts only for the open request and before it expires. */
  function Next(trail: Trail, e: Event, user: UserId): Trail {
    if e.user != user then trail
    else match e
      case Began(_, id, from_, to, at) => Trail(id, from_, to, at, false, false)
      case HalfDone(_, id, side, at) =>
        if trail.Trail? && trail.id == id && at < trail.since + LIFETIME
        then (if side.Current? then trail.(current := true) else trail.(new_ := true)) else trail
      case Closed(_, _) => NoTrail
      case Changed(_, _, _, _, _) => NoTrail
      case _ => trail
  }

  function TrailOf(log: seq<Event>, user: UserId): Trail
    decreases |log|
  {
    if log == [] then NoTrail else Next(TrailOf(log[..|log| - 1], user), log[|log| - 1], user)
  }

  function EmailOf(log: seq<Event>, user: UserId): Option<Address>
    decreases |log|
  {
    if log == [] then None
    else match log[|log| - 1]
      case Registered(u, email) => if u == user then email else EmailOf(log[..|log| - 1], user)
      case Changed(u, _, _, to, _) => if u == user then Some(to) else EmailOf(log[..|log| - 1], user)
      case _ => EmailOf(log[..|log| - 1], user)
  }

  datatype State = State(t: Tables, log: seq<Event>, issued: set<RequestId>)

  const Fresh := State(Tables(map[], map[], 0), [], {})

  datatype Op =
    | RegisterOp(user: UserId, email: Option<Address>)
    | ConfirmOp(user: UserId)
    | BeginOp(user: UserId, newEmail: Address, id: RequestId, codes: Codes)
    | CancelOp(user: UserId, id: RequestId)
    | VerifyOp(user: UserId, side: Side, guess: Code, raced: bool)
    | TickOp(elapsed: nat)

  function Apply(s: State, op: Op): State {
    match op
    case RegisterOp(user, email) =>
      if user in s.t.users || (email.Some? && TakenByOther(s.t.users, user, email.value)) then s
      else s.(t := s.t.(users := s.t.users[user := User(email, false)]), log := s.log + [Registered(user, email)])
    case ConfirmOp(user) =>
      if user in s.t.users then s.(t := s.t.(users := s.t.users[user := s.t.users[user].(verified := true)])) else s
    case BeginOp(user, newEmail, id, codes) =>
      var (t, begun) := AfterBegin(s.t, user, newEmail, id, codes);
      if begun then State(t, s.log + [Began(user, id, t.requests[user].currentEmail, newEmail, s.t.now)],
                          s.issued + {id}) else s
    case CancelOp(user, id) =>
      var t := AfterCancel(s.t, user, id);
      if t != s.t then s.(t := t, log := s.log + [Closed(user, id)]) else s
    case VerifyOp(user, side, guess, raced) =>
      var (t, reply) := AfterVerify(s.t, user, side, guess, raced);
      s.(t := t, log := s.log + Said(s.t, t, user, side, reply))
    case TickOp(elapsed) => s.(t := s.t.(now := s.t.now + elapsed))
  }

  /** What one verification leaves in the log. */
  function Said(t: Tables, t': Tables, user: UserId, side: Side, reply: VerifyReply): seq<Event> {
    if user !in t.requests || t' == t then []
    else
      var row := t.requests[user];
      match reply
      case SideAccepted => [HalfDone(user, row.id, side, t.now)]
      case Completed => [HalfDone(user, row.id, side, t.now),
                         Changed(user, row.id, row.currentEmail, row.newEmail, t.now)]
      case Conflict => [HalfDone(user, row.id, side, t.now), Closed(user, row.id)]
      case WrongCode => [Wrong(user, row.id, side)]
      case TooMany => [Wrong(user, row.id, side), Closed(user, row.id)]
      case _ => [Closed(user, row.id)]
  }

  /** Random request identifiers are fresh. */
  predicate Legal(s: State, op: Op) {
    op.BeginOp? ==> op.id !in s.issued
  }

  // ---------------------------------------------------------------------------------------------

  function TrailOfRow(row: Request): Trail {
    Trail(row.id, row.currentEmail, row.newEmail, row.expires - LIFETIME, row.current.done, row.new_.done)
  }

  /** The tables say about one user what the log says. */
  ghost predicate Agrees(t: Tables, trail: Trail, email: Option<Address>, user: UserId) {
    && (if user in t.users then t.users[user].email == email else email == None)
    && (if user in t.requests then user in t.users && email == Some(t.requests[user].currentEmail)
        && trail == TrailOfRow(t.requests[user])
        else trail == NoTrail)
  }

  /**
   * The change at position `i` was earned: both codes, for the one request that was open, while the address
   * was the old one.
   */
  predicate Earned(log: seq<Event>, i: nat)
    requires i < |log| && log[i].Changed?
  {
    var e := log[i];
    var trail := TrailOf(log[..i], e.user);
    && trail.Trail? && trail.id == e.id && trail.from_ == e.from_ && trail.to == e.to && trail.current && trail.new_
    && e.at < trail.since + LIFETIME && EmailOf(log[..i], e.user) == Some(e.from_) && e.from_ != e.to
  }

  ghost predicate AllEarned(log: seq<Event>) {
    forall i :: 0 <= i < |log| && log[i].Changed? ==> Earned(log, i)
  }

  /** Stored wrong attempts count the wrong codes, per request and side: four at most while it lives, five in all. */
  ghost predicate WrongsCounted(t: Tables, log: seq<Event>, issued: set<RequestId>, user: UserId, id: RequestId,
                                side: Side) {
    var wrongs := Times(log, Wrong(user, id, side));
    && (user in t.requests && t.requests[user].id == id ==> wrongs == t.requests[user].Of(side).attempts <= 4)
    && wrongs <= 5
    && (id !in issued ==> wrongs == 0)
  }

  ghost predicate Inv(s: State) {
    && UniqueEmails(s.t.users)
    && (forall user :: Agrees(s.t, TrailOf(s.log, user), EmailOf(s.log, user), user))
    && (forall user :: user in s.t.requests ==>
            s.t.requests[user].id in s.issued && s.t.requests[user].currentEmail != s.t.requests[user].newEmail)
    && AllEarned(s.log)
    && (forall user, id, side :: WrongsCounted(s.t, s.log, s.issued, user, id, side))
  }

  /** Reading one or two more events. */
  lemma LogAppend(log: seq<Event>, e: Event, user: UserId, w: Event)
    ensures TrailOf(log + [e], user) == Next(TrailOf(log, user), e, user)
    ensures EmailOf(log + [e], user) ==
              (if e.Registered? && e.user == user then e.email else if e.Changed? && e.user == user then Some(e.to)
               else EmailOf(log, user))
    ensures Times(log + [e], w) == Times(log, w) + (if e == w then 1 else 0)
  {
    assert (log + [e])[..|log|] == log;
  }

  lemma EarnedAppend(log: seq<Event>, e: Event)
    requires AllEarned(log)
    requires e.Changed? ==> Earned(log + [e], |log|)
    ensures AllEarned(log + [e])
  {
    forall i | 0 <= i < |log + [e]| && (log + [e])[i].Changed? ensures Earned(log + [e], i) {
      if i < |log| {
        assert (log + [e])[..i] == log[..i];
        assert Earned(log, i);
      }
    }
  }

  lemma RegisterKeeps(s: State, op: Op)
    requires Inv(s) && (op.RegisterOp? || op.ConfirmOp? || op.TickOp?)
    ensures Inv(Apply(s, op))
  {
    var s' := Apply(s, op);
    if s'.log != s.log {
      var e := Registered(op.user, op.email);
      EarnedAppend(s.log, e);
      forall user ensures Agrees(s'.t, TrailOf(s'.log, user), EmailOf(s'.log, user), user) {
        LogAppend(s.log, e, user, e);
        assert Agrees(s.t, TrailOf(s.log, user), EmailOf(s.log, user), user);
      }
      forall user, id, side ensures WrongsCounted(s'.t, s'.log, s'.issued, user, id, side) {
        LogAppend(s.log, e, user, Wrong(user, id, side));
        assert WrongsCounted(s.t, s.log, s.issued, user, id, side);
      }
    } else {
      hide AllEarned, TrailOf, EmailOf;
      forall user ensures Agrees(s'.t, TrailOf(s'.log, user), EmailOf(s'.log, user), user) {
        assert Agrees(s.t, TrailOf(s.log, user), EmailOf(s.log, user), user);
      }
      forall user, id, side ensures WrongsCounted(s'.t, s'.log, s'.issued, user, id, side) {
        assert WrongsCounted(s.t, s.log, s.issued, user, id, side);
      }
    }
  }

  /** One more event about `user`, with the row it leaves behind: what has to hold of that row alone. */
  lemma EventKeeps(s: State, t': Tables, e: Event, issued: set<RequestId>)
    requires Inv(s) && s.issued <= issued && UniqueEmails(t'.users)
    requires forall u :: u != e.user ==>
             (u in t'.requests <==> u in s.t.requests) && (u in s.t.requests ==> t'.requests[u] == s.t.requests[u])
    requires forall u :: u != e.user ==>
             (u in t'.users <==> u in s.t.users) && (u in s.t.users ==> t'.users[u] == s.t.users[u])
    requires e.user in t'.requests ==>
             t'.requests[e.user].id in issued && t'.requests[e.user].currentEmail != t'.requests[e.user].newEmail
    requires Agrees(t', TrailOf(s.log + [e], e.user), EmailOf(s.log + [e], e.user), e.user)
    requires e.Changed? ==> Earned(s.log + [e], |s.log|)
    requires forall id, side :: WrongsCounted(t', s.log + [e], issued, e.user, id, side)
    ensures Inv(State(t', s.log + [e], issued))
  {
    EarnedAppend(s.log, e);
    hide AllEarned, TrailOf, EmailOf, Times, Earned, UniqueEmails;
    forall user ensures Agrees(t', TrailOf(s.log + [e], user), EmailOf(s.log + [e], user), user) {
      if user != e.user {
        LogAppend(s.log, e, user, e);
        assert Agrees(s.t, TrailOf(s.log, user), EmailOf(s.log, user), user);
      }
    }
    forall user, id, side ensures WrongsCounted(t', s.log + [e], issued, user, id, side) {
      if user != e.user {
        LogAppend(s.log, e, user, Wrong(user, id, side));
        assert WrongsCounted(s.t, s.log, s.issued, user, id, side);
      }
    }
  }

  /** An event that is no wrong code leaves the counts alone, while the row's attempts stay or the row goes. */
  lemma CountsStay(s: State, t': Tables, e: Event, issued: set<RequestId>, id: RequestId, side: Side)
    requires WrongsCounted(s.t, s.log, s.issued, e.user, id, side) && !e.Wrong? && s.issued <= issued
    requires e.user in t'.requests && t'.requests[e.user].id == id ==>
               if e.user in s.t.requests && s.t.requests[e.user].id == id
                 then t'.requests[e.user].Of(side).attempts == s.t.requests[e.user].Of(side).attempts
               else id !in s.issued && t'.requests[e.user].Of(side).attempts == 0
    ensures WrongsCounted(t', s.log + [e], issued, e.user, id, side)
  {
    LogAppend(s.log, e, e.user, Wrong(e.user, id, side));
    hide Times;
  }

  lemma BeginKeeps(s: State, op: Op)
    requires Inv(s) && op.BeginOp? && Legal(s, op)
    ensures Inv(Apply(s, op))
  {
    var (t', begun) := AfterBegin(s.t, op.user, op.newEmail, op.id, op.codes);
    if begun {
      var e := Began(op.user, op.id, t'.requests[op.user].currentEmail, op.newEmail, s.t.now);
      assert Agrees(s.t, TrailOf(s.log, op.user), EmailOf(s.log, op.user), op.user);
      LogAppend(s.log, e, op.user, e);
      forall id, side ensures WrongsCounted(t', s.log + [e], s.issued + {op.id}, op.user, id, side) {
        assert WrongsCounted(s.t, s.log, s.issued, op.user, id, side);
        CountsStay(s, t', e, s.issued + {op.id}, id, side);
      }
      hide AllEarned, TrailOf, EmailOf, Times, WrongsCounted, UniqueEmails, Inv;
      EventKeeps(s, t', e, s.issued + {op.id});
    }
  }

  /** The request of `user` is dropped. */
  lemma ClosedKeeps(s: State, user: UserId)
    requires Inv(s) && user in s.t.requests
    ensures Inv(s.(t := Dropped(s.t, user), log := s.log + [Closed(user, s.t.requests[user].id)]))
  {
    var t', e := Dropped(s.t, user), Closed(user, s.t.requests[user].id);
    assert Agrees(s.t, TrailOf(s.log, user), EmailOf(s.log, user), user);
    LogAppend(s.log, e, user, e);
    forall id, side ensures WrongsCounted(t', s.log + [e], s.issued, user, id, side) {
      assert WrongsCounted(s.t, s.log, s.issued, user, id, side);
      CountsStay(s, t', e, s.issued, id, side);
    }
    hide AllEarned, TrailOf, EmailOf, Times, WrongsCounted, UniqueEmails, Inv;
    EventKeeps(s, t', e, s.issued);
  }

  ghost function WithDone(s: State, user: UserId, side: Side): State
    requires user in s.t.requests
  {
    var row := s.t.requests[user];
    s.(t := s.t.(requests := s.t.requests[user := row.With(side, row.Of(side).(done := true))]),
       log := s.log + [HalfDone(user, row.id, side, s.t.now)])
  }

  /** One code of an unexpired request is accepted. */
  lemma HalfDoneKeeps(s: State, user: UserId, side: Side)
    requires Inv(s) && user in s.t.requests && s.t.now < s.t.requests[user].expires
    ensures Inv(WithDone(s, user, side))
  {
    var row := s.t.requests[user];
    var t', e := WithDone(s, user, side).t, HalfDone(user, row.id, side, s.t.now);
    assert Agrees(s.t, TrailOf(s.log, user), EmailOf(s.log, user), user);
    LogAppend(s.log, e, user, e);
    forall id, side' ensures WrongsCounted(t', s.log + [e], s.issued, user, id, side') {
      assert WrongsCounted(s.t, s.log, s.issued, user, id, side');
      CountsStay(s, t', e, s.issued, id, side');
    }
    assert Agrees(t', TrailOf(s.log + [e], user), EmailOf(s.log + [e], user), user);
    hide AllEarned, TrailOf, EmailOf, Times, WrongsCounted, UniqueEmails, Agrees;
    EventKeeps(s, t', e, s.issued);
  }

  /** A wrong code that the request survives. */
  lemma WrongKeeps(s: State, user: UserId, side: Side)
    requires Inv(s) && user in s.t.requests && s.t.requests[user].Of(side).attempts < 4
    ensures var row := s.t.requests[user];
            var counted := row.With(side, row.Of(side).(attempts := row.Of(side).attempts + 1));
            Inv(s.(t := s.t.(requests := s.t.requests[user := counted]),
                   log := s.log + [Wrong(user, row.id, side)]))
  {
    var row := s.t.requests[user];
    var counted := row.With(side, row.Of(side).(attempts := row.Of(side).attempts + 1));
    var t', e := s.t.(requests := s.t.requests[user := counted]), Wrong(user, row.id, side);
    assert Agrees(s.t, TrailOf(s.log, user), EmailOf(s.log, user), user);
    LogAppend(s.log, e, user, e);
    forall id, side' ensures WrongsCounted(t', s.log + [e], s.issued, user, id, side') {
      assert WrongsCounted(s.t, s.log, s.issued, user, id, side');
      LogAppend(s.log, e, user, Wrong(user, id, side'));
    }
    hide AllEarned, TrailOf, EmailOf, Times, WrongsCounted, UniqueEmails;
    EventKeeps(s, t', e, s.issued);
  }

  /** The fifth wrong code, which closes the request. */
  lemma TooManyKeeps(s: State, user: UserId, side: Side)
    requires Inv(s) && user in s.t.requests
    ensures Inv(s.(t := Dropped(s.t, user),
                   log := s.log + [Wrong(user, s.t.requests[user].id, side), Closed(user, s.t.requests[user].id)]))
  {
    var row := s.t.requests[user];
    var w, e := Wrong(user, row.id, side), Closed(user, row.id);
    assert s.log + [w, e] == s.log + [w] + [e];
    var t' := Dropped(s.t, user);
    EarnedAppend(s.log, w);
    EarnedAppend(s.log + [w], e);
    forall u ensures Agrees(t', TrailOf(s.log + [w] + [e], u), EmailOf(s.log + [w] + [e], u), u) {
      LogAppend(s.log, w, u, w);
      LogAppend(s.log + [w], e, u, w);
      assert Agrees(s.t, TrailOf(s.log, u), EmailOf(s.log, u), u);
    }
    hide TrailOf, EmailOf, Times, AllEarned, Agrees, UniqueEmails;
    forall u, id, side' ensures WrongsCounted(t', s.log + [w] + [e], s.issued, u, id, side') {
      LogAppend(s.log, w, u, Wrong(u, id, side'));
      LogAppend(s.log + [w], e, u, Wrong(u, id, side'));
      assert WrongsCounted(s.t, s.log, s.issued, u, id, side');
    }
  }

  /** Both codes are accepted and the address is free: the change. */
  lemma ChangedKeeps(s: State, user: UserId)
    requires Inv(s) && user in s.t.requests && s.t.now < s.t.requests[user].expires
    requires s.t.requests[user].current.done && s.t.requests[user].new_.done
             && !TakenByOther(s.t.users, user, s.t.requests[user].newEmail)
    ensures var row := s.t.requests[user];
            Inv(s.(t := Dropped(s.t.(users := s.t.users[user := User(Some(row.newEmail), true)]), user),
                   log := s.log + [Changed(user, row.id, row.currentEmail, row.newEmail, s.t.now)]))
  {
    var row := s.t.requests[user];
    var t', e := Dropped(s.t.(users := s.t.users[user := User(Some(row.newEmail), true)]), user),
                 Changed(user, row.id, row.currentEmail, row.newEmail, s.t.now);
    assert Agrees(s.t, TrailOf(s.log, user), EmailOf(s.log, user), user);
    LogAppend(s.log, e, user, e);
    assert (s.log + [e])[..|s.log|] == s.log;
    assert Earned(s.log + [e], |s.log|);
    forall id, side ensures WrongsCounted(t', s.log + [e], s.issued, user, id, side) {
      assert WrongsCounted(s.t, s.log, s.issued, user, id, side);
      CountsStay(s, t', e, s.issued, id, side);
    }
    assert UniqueEmails(t'.users);
    hide AllEarned, TrailOf, EmailOf, Times, WrongsCounted, UniqueEmails, Earned;
    EventKeeps(s, t', e, s.issued);
  }

  /** A code that completes the pair: the change, or the conflict that closes the request. */
  lemma SecondHalfKeeps(s: State, user: UserId, side: Side)
    requires Inv(s) && user in s.t.requests && s.t.now < s.t.requests[user].expires
             && s.t.requests[user].Of(Other(side)).done
    ensures var row := s.t.requests[user]; var half := HalfDone(user, row.id, side, s.t.now);
            if TakenByOther(s.t.users, user, row.newEmail) then
              Inv(s.(t := Dropped(s.t, user), log := s.log + [half, Closed(user, row.id)]))
            else
              Inv(s.(t := Dropped(s.t.(users := s.t.users[user := User(Some(row.newEmail), true)]), user),
                     log := s.log + [half, Changed(user, row.id, row.currentEmail, row.newEmail, s.t.now)]))
  {
    hide Inv;
    HalfDoneKeeps(s, user, side);
    var row, mid := s.t.requests[user], WithDone(s, user, side);
    var half := HalfDone(user, row.id, side, s.t.now);
    assert forall e :: s.log + [half, e] == s.log + [half] + [e];
    assert forall users :: Dropped(mid.t.(users := users), user) == Dropped(s.t.(users := users), user);
    if TakenByOther(s.t.users, user, row.newEmail) {
      ClosedKeeps(mid, user);
    } else {
      ChangedKeeps(mid, user);
    }
  }

  lemma VerifyKeeps(s: State, op: Op)
    requires Inv(s) && op.VerifyOp?
    ensures Inv(Apply(s, op))
  {
    hide Inv;
    var (t', reply) := AfterVerify(s.t, op.user, op.side, op.guess, op.raced);
    if t' == s.t {
      assert s.log + [] == s.log;
    } else if reply.SideAccepted? {
      HalfDoneKeeps(s, op.user, op.side);
    } else if reply.Completed? || reply.Conflict? {
      SecondHalfKeeps(s, op.user, op.side);
    } else if reply.WrongCode? {
      WrongKeeps(s, op.user, op.side);
    } else if reply.TooMany? {
      TooManyKeeps(s, op.user, op.side);
    } else {
      ClosedKeeps(s, op.user);
    }
  }

  lemma CancelKeeps(s: State, op: Op)
    requires Inv(s) && op.CancelOp?
    ensures Inv(Apply(s, op))
  {
    hide Inv;
    if Apply(s, op).t != s.t { ClosedKeeps(s, op.user); }
  }

  lemma ApplyKeeps(s: State, op: Op)
    requires Inv(s) && Legal(s, op)
    ensures Inv(Apply(s, op))
  {
    hide Inv, Apply;
    match op
    case BeginOp(_, _, _, _) => BeginKeeps(s, op);
    case CancelOp(_, _) => CancelKeeps(s, op);
    case VerifyOp(_, _, _, _) => VerifyKeeps(s, op);
    case RegisterOp(_, _) => RegisterKeeps(s, op);
    case ConfirmOp(_) => RegisterKeeps(s, op);
    case TickOp(_) => RegisterKeeps(s, op);
  }

  // ---------------------------------------------------------------------------------------------
  // Whole runs.

  ghost function At(ops: seq<Op>): State {
    After(Fresh, Apply, ops)
  }

  ghost predicate LegalOps(ops: seq<Op>) {
    LegalRun(Fresh, Apply, Legal, ops)
  }

  lemma ReachableInv(ops: seq<Op>)
    requires LegalOps(ops)
    ensures Inv(At(ops))
  {
    assert Inv(Fresh);
    hide Inv, Apply, Legal;
    forall s, op | Inv(s) && Legal(s, op) ensures Inv(Apply(s, op)) {
      ApplyKeeps(s, op);
    }
    InvariantHolds(Fresh, Apply, Legal, Inv, ops);
  }

  /**
   * An account's address changes only when, for the single request that was open, begun for that very
   * address and not replaced, cancelled or expired since, both codes were accepted while the address was the old one.
   */
  lemma ChangesAreEarned(ops: seq<Op>, i: nat)
    requires LegalOps(ops) && i < |At(ops).log| && At(ops).log[i].Changed?
    ensures Earned(At(ops).log, i)
  {
    ReachableInv(ops);
    hide Earned;
  }

  /** And the address in the table is always the last one registered or changed to; no two accounts share one. */
  lemma AddressesFollowTheLog(ops: seq<Op>, user: UserId)
    requires LegalOps(ops)
    ensures user in At(ops).t.users ==> At(ops).t.users[user].email == EmailOf(At(ops).log, user)
    ensures UniqueEmails(At(ops).t.users)
  {
    ReachableInv(ops);
    assert Agrees(At(ops).t, TrailOf(At(ops).log, user), EmailOf(At(ops).log, user), user);
    hide TrailOf, EmailOf, AllEarned, WrongsCounted;
  }

  /** Each side of a request is guessed wrong at most five times, and survives at most four of them. */
  lemma WrongGuessesBounded(ops: seq<Op>, user: UserId, id: RequestId, side: Side)
    requires LegalOps(ops)
    ensures Times(At(ops).log, Wrong(user, id, side)) <= 5
    ensures var t := At(ops).t;
            user in t.requests && t.requests[user].id == id ==>
                Times(At(ops).log, Wrong(user, id, side)) == t.requests[user].Of(side).attempts <= 4
  {
    ReachableInv(ops);
    assert WrongsCounted(At(ops).t, At(ops).log, At(ops).issued, user, id, side);
    hide TrailOf, EmailOf, AllEarned, Agrees, Times;
  }

  /** The code this side of the request was issued. */
  predicate RightCode(half: Half, guess: Code) {
    guess.SixDigits? && half.digest == Digest(half.digest.challenge, guess.digits)
  }

  /** Beginning needs a verified user and another address; the request it makes is fresh and lasts five minutes. */
  lemma BeginAnswers(t: Tables, user: UserId, newEmail: Address, id: RequestId, codes: Codes)
    ensures var (t', ok) := AfterBegin(t, user, newEmail, id, codes);
            && (ok <==> user in t.users && t.users[user].verified && t.users[user].email.Some?
                        && t.users[user].email != Some(newEmail))
            && (!ok ==> t' == t) && t'.users == t.users && t'.now == t.now
            && (ok ==>
                  && t'.requests.Keys == t.requests.Keys + {user}
                  && (forall u :: u in t.requests && u != user ==> t'.requests[u] == t.requests[u])
                  && var row := t'.requests[user];
                  && row.id == id && Some(row.currentEmail) == t.users[user].email && row.newEmail == newEmail
                  && row.expires == t.now + 300000
                  && row.current == Half(Digest(codes.currentChallenge, codes.currentCode), 0, false)
                  && row.new_ == Half(Digest(codes.newChallenge, codes.newCode), 0, false))
  {
  }

  /**
   * What one code does to an open request of a verified user whose address has not changed: the fifth wrong code, an
   * expired request and a taken address end it; a right code counts once, and the second side completes the change.
   */
  lemma CodeAnswers(t: Tables, user: UserId, side: Side, guess: Code, raced: bool)
    requires t.now >= 0 && user in t.requests && user in t.users && t.users[user].verified
             && t.users[user].email == Some(t.requests[user].currentEmail)
    requires t.requests[user].Of(side).attempts < 5
    ensures var row := t.requests[user]; var half := row.Of(side);
            var (t', reply) := AfterVerify(t, user, side, guess, raced);
            && (forall u :: u in t.requests && u != user ==> u in t'.requests && t'.requests[u] == t.requests[u])
            && (forall u :: u in t.users && u != user ==> u in t'.users && t'.users[u] == t.users[u])
            && if t.now >= row.expires then reply == RequestExpired && t' == Dropped(t, user)
               else if half.done then reply == AlreadyVerified && t' == t
               else if !RightCode(half, guess) && half.attempts == 4 then reply == TooMany && t' == Dropped(t, user)
               else if !RightCode(half, guess) then
                 && reply == WrongCode && user in t'.requests && t'.users == t.users
                 && t'.requests[user] == row.With(side, half.(attempts := half.attempts + 1))
               else if !row.Of(Other(side)).done then
                 && reply == SideAccepted && user in t'.requests && t'.users == t.users
                 && t'.requests[user] == row.With(side, half.(done := true))
               else if exists u :: u in t.users && u != user && t.users[u].email == Some(row.newEmail) then
                 reply == Conflict && t' == Dropped(t, user)
               else if raced then reply == Conflict && t' == t
               else
                 && reply == Completed
                 && t' == Dropped(t, user).(users := t.users[user := User(Some(row.newEmail), true)])
  {
  }

  /** Without an open request, or for a user without a verified address, a code does nothing; an outdated one ends. */
  lemma CodeRefused(t: Tables, user: UserId, side: Side, guess: Code, raced: bool)
    ensures var (t', reply) := AfterVerify(t, user, side, guess, raced);
            var usable := t.now >= 0 && user in t.requests && user in t.users && t.users[user].email.Some?
                          && t.users[user].verified;
            && (!usable ==> reply == InvalidRequest && t' == t)
            && (usable && t.users[user].email.value != t.requests[user].currentEmail ==>
                  reply == InvalidRequest && t' == Dropped(t, user))
  {
  }

  /**
   * The codes a begin hands out complete the change, in either order, before they expire and while the
   * address is free.
   */
  lemma BothCodesComplete(t: Tables, user: UserId, newEmail: Address, id: RequestId, codes: Codes, first: Side,
                          elapsed: nat)
    requires t.now >= 0 && AfterBegin(t, user, newEmail, id, codes).1 && elapsed < LIFETIME
             && !TakenByOther(t.users, user, newEmail)
    ensures var begun := AfterBegin(t, user, newEmail, id, codes).0; var late := begun.(now := t.now + elapsed);
            var half := AfterVerify(late, user, first, CodeFor(codes, first), false);
            var done := AfterVerify(half.0, user, Other(first), CodeFor(codes, Other(first)), false);
            && half.1 == SideAccepted && half.0.users == t.users
            && done.1 == Completed && done.0.users == t.users[user := User(Some(newEmail), true)]
               && user !in done.0.requests
  {
  }

  function CodeFor(codes: Codes, side: Side): Code {
    SixDigits(if side.Current? then codes.currentCode else codes.newCode)
  }
}
