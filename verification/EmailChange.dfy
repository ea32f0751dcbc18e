/**
 * The two-address email change of packages/core/src/email-change-requests.ts. Addresses are already
 * lower-cased; an address stands for its keyed hash. `Tables` is the value of the two tables, the
 * `After` functions say what one transaction does, and class `EmailChangeRequests` carries it out.
 */
module EmailChange {
  import opened Prelude
  import opened OneTimeCodes

  type UserId = nat
  type RequestId = nat

  datatype User = User(email: Option<Address>, verified: bool)

  datatype Side = Current | New

  datatype Half = Half(digest: Digest, attempts: nat, done: bool)

  datatype Request = Request(id: RequestId, currentEmail: Address, newEmail: Address, current: Half, new_: Half,
                             expires: int) {
    function Of(side: Side): Half {
      if side.Current? then current else new_
    }

    function With(side: Side, half: Half): Request {
      if side.Current? then this.(current := half) else this.(new_ := half)
    }
  }

  function Other(side: Side): Side {
    if side.Current? then New else Current
  }

  /** `requests` is keyed by its unique owner. */
  datatype Tables = Tables(users: map<UserId, User>, requests: map<UserId, Request>, now: int)

  datatype VerifyReply = SideAccepted | AlreadyVerified | Completed | WrongCode | RequestExpired | TooMany
                       | InvalidRequest | Conflict

  /** The two challenges of one request, each with its own code. */
  datatype Codes = Codes(currentChallenge: ChallengeId, currentCode: string, newChallenge: ChallengeId, newCode: string)

  function NewRequest(id: RequestId, from: Address, to: Address, codes: Codes, now: int): Request {
    Request(id, from, to, Half(Digest(codes.currentChallenge, codes.currentCode), 0, false),
            Half(Digest(codes.newChallenge, codes.newCode), 0, false), now + LIFETIME)
  }

  function AfterBegin(t: Tables, user: UserId, newEmail: Address, id: RequestId, codes: Codes): (Tables, bool) {
    if user !in t.users || t.users[user].email.None? || !t.users[user].verified || t.users[user].email.value == newEmail
      then (t, false)
    else (t.(requests := t.requests[user := NewRequest(id, t.users[user].email.value, newEmail, codes, t.now)]), true)
  }

  function AfterCancel(t: Tables, user: UserId, id: RequestId): Tables {
    if user in t.requests && t.requests[user].id == id then t.(requests := t.requests - {user}) else t
  }

  function Dropped(t: Tables, user: UserId): Tables {
    t.(requests := t.requests - {user})
  }

  predicate TakenByOther(users: map<UserId, User>, user: UserId, email: Address) {
    exists u :: u in users && u != user && users[u].email == Some(email)
  }

  /** `raced` says that another registration wins the unique address after the check, so the transaction rolls back. */
  function AfterVerify(t: Tables, user: UserId, side: Side, guess: Code, raced: bool): (Tables, VerifyReply) {
    if t.now < 0 || user !in t.requests || user !in t.users || t.users[user].email.None? || !t.users[user].verified
      then (t, InvalidRequest)
    else
      var row, email := t.requests[user], t.users[user].email.value;
      if row.currentEmail != email then (Dropped(t, user), InvalidRequest)
      else if t.now >= row.expires then (Dropped(t, user), RequestExpired)
      else if row.Of(side).done then (t, AlreadyVerified)
      else
        var half := row.Of(side);
        match VerifyEmailOtp(true, half.digest.challenge, guess, half.digest, row.expires, half.attempts, t.now)
        case Incorrect =>
          if half.attempts + 1 >= 5 then (Dropped(t, user), TooMany)
          else (t.(requests := t.requests[user := row.With(side, half.(attempts := half.attempts + 1))]), WrongCode)
        case Accepted =>
          if !row.Of(Other(side)).done
            then (t.(requests := t.requests[user := row.With(side, half.(done := true))]), SideAccepted)
          else if TakenByOther(t.users, user, row.newEmail) then (Dropped(t, user), Conflict)
          else if raced then (t, Conflict)
          else (Dropped(t.(users := t.users[user := User(Some(row.newEmail), true)]), user), Completed)
        case Expired => (t, RequestExpired)
        case Exhausted => (t, TooMany)
        case Invalid => (t, InvalidRequest)
  }

  predicate UniqueEmails(users: map<UserId, User>) {
    forall a, b :: a in users && b in users && users[a].email.Some? && users[a].email == users[b].email ==> a == b
  }

  class EmailChangeRequests {
    var users: map<UserId, User>
    var requests: map<UserId, Request>
    var now: int

    function Stored(): Tables
      reads this
    {
      Tables(users, requests, now)
    }

    constructor (users: map<UserId, User>)
      ensures Stored() == Tables(users, map[], 0)
    {
      this.users, requests, now := users, map[], 0;
    }

    method Cancel(user: UserId, id: RequestId)
      modifies this`requests
      ensures Stored() == AfterCancel(old(Stored()), user, id)
    {
      if user in requests && requests[user].id == id {
        requests := requests - {user};
      }
    }

    /** An expired request is dropped before the new one replaces whatever is there. */
    method Begin(user: UserId, newEmail: Address, id: RequestId, codes: Codes) returns (begun: bool)
      modifies this`requests
      ensures (Stored(), begun) == AfterBegin(old(Stored()), user, newEmail, id, codes)
    {
      if user !in users || users[user].email.None? || !users[user].verified { return false; }
      var current := users[user].email.value;
      if newEmail == current { return false; }
      if user in requests && requests[user].expires <= now {
        requests := requests - {user};
      }
      requests := requests[user := NewRequest(id, current, newEmail, codes, now)];
      assert requests == old(requests)[user := NewRequest(id, current, newEmail, codes, now)];
      return true;
    }

    method Verify(user: UserId, side: Side, guess: Code, raced: bool) returns (reply: VerifyReply)
      modifies this`users, this`requests
      ensures reply == AfterVerify(old(Stored()), user, side, guess, raced).1
      ensures Stored() == if reply.Conflict? then Dropped(old(Stored()), user)
              else AfterVerify(old(Stored()), user, side, guess, raced).0
      ensures UniqueEmails(old(users)) ==> UniqueEmails(users)
    {
      if now < 0 || user !in requests || user !in users || users[user].email.None? || !users[user].verified {
        return InvalidRequest;
      }
      var row, email := requests[user], users[user].email.value;
      if row.currentEmail != email {
        requests := requests - {user};
        return InvalidRequest;
      }
      if now >= row.expires {
        requests := requests - {user};
        return RequestExpired;
      }
      var half := row.Of(side);
      if half.done { return AlreadyVerified; }
      var result := VerifyEmailOtp(true, half.digest.challenge, guess, half.digest, row.expires, half.attempts, now);
      if result.Incorrect? {
        if half.attempts + 1 >= 5 {
          requests := requests - {user};
          return TooMany;
        }
        requests := requests[user := row.With(side, half.(attempts := half.attempts + 1))];
        return WrongCode;
      }
      if !result.Accepted? {
        return if result.Expired? then RequestExpired else if result.Exhausted? then TooMany else InvalidRequest;
      }
      var saved := requests;
      requests := requests[user := row.With(side, half.(done := true))];
      if !row.Of(Other(side)).done { return SideAccepted; }
      if TakenByOther(users, user, row.newEmail) {
        requests := requests - {user};
        assert requests == saved - {user};
        return Conflict;
      }
      if raced {
        requests := saved;  // rollback
        requests := requests - {user};
        return Conflict;
      }
      users := users[user := User(Some(row.newEmail), true)];
      requests := requests - {user};
      assert requests == saved - {user};
      return Completed;
    }
  }
}
