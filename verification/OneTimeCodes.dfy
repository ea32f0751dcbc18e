/**
 * One-time codes: the decision of packages/core/src/email-otp.ts and the challenge store of
 * packages/core/src/email-otp-challenges.ts. A digest is an injective function of the challenge and
 * the code; the lower-cased address stands for its keyed hash.
 */
module OneTimeCodes {
  import opened Prelude

  type ChallengeId = nat
  type Address = string

  const MAX_ATTEMPTS: int := 5
  const LIFETIME: int := 5 * 60 * 1000
  const CLEANUP: nat := 500

  datatype Code = SixDigits(digits: string) | Malformed

  datatype Digest = Digest(challenge: ChallengeId, code: string)

  datatype Verification = Accepted | Incorrect | Expired | Exhausted | Invalid

  /** `wellFormed` covers the format checks of the identifier, the key, the digest and the numbers. */
  function VerifyEmailOtp(wellFormed: bool, id: ChallengeId, code: Code, digest: Digest, expiresAt: int,
                          attempts: int, now: int): Verification {
    if !wellFormed || attempts < 0 || now < 0 then Invalid
    else if attempts >= MAX_ATTEMPTS then Exhausted
    else if now >= expiresAt then Expired
    else if code.Malformed? then Incorrect
    else if Digest(id, code.digits) == digest then Accepted
    else Incorrect
  }

  /** A code is accepted exactly when it is the one issued for this very challenge, in time and within the budget. */
  lemma AcceptedIff(wellFormed: bool, id: ChallengeId, code: Code, issuedFor: ChallengeId, issued: string,
                    expiresAt: int, attempts: int, now: int)
    ensures VerifyEmailOtp(wellFormed, id, code, Digest(issuedFor, issued), expiresAt, attempts, now).Accepted?
       <==> wellFormed && id == issuedFor && code == SixDigits(issued) && 0 <= attempts < 5 && 0 <= now < expiresAt
  {
  }

  // ---------------------------------------------------------------------------------------------

  datatype Intent = SignIn | SignUp | RecoverySetup | RecoverySignIn

  datatype Challenge = Challenge(address: Address, digest: Digest, attempts: nat, expires: int, created: int,
                                 intent: Intent, ageScreen: Option<bool>)

  type Challenges = map<ChallengeId, Challenge>

  datatype ReplaceReply = Refused | KeptActive | StoredNew

  datatype ConsumeReply = Answer(verification: Verification) | CallbackFailed

  function Without(cs: Challenges, address: Address): Challenges {
    map id | id in cs && cs[id].address != address :: cs[id]
  }

  predicate RecentFor(cs: Challenges, address: Address, now: int, cooldown: nat) {
    exists id :: id in cs && cs[id].address == address && cs[id].expires > now && cs[id].created > now - cooldown
  }

  /** `cleaned` is the batch of expired rows the transaction happens to delete first. */
  function AfterReplace(cs: Challenges, now: int, id: ChallengeId, address: Address, code: string,
                        expiresAt: int, intent: Intent, ageScreen: Option<bool>, cooldown: Option<nat>,
                        cleaned: set<ChallengeId>): (Challenges, ReplaceReply)
  {
    if expiresAt <= now || (if intent.SignUp? then ageScreen != Some(true) else ageScreen.Some?) then (cs, Refused)
    else
      var kept := cs - cleaned;
      if cooldown.Some? && RecentFor(kept, address, now, cooldown.value) then (kept, KeptActive)
      else (Without(kept, address)[id := Challenge(address, Digest(id, code), 0, expiresAt, now, intent, ageScreen)],
            StoredNew)
  }

  function AfterInvalidate(cs: Challenges, id: ChallengeId, address: Address): Challenges {
    if id in cs && cs[id].address == address then cs - {id} else cs
  }

  /** `commits` says whether the acceptance callback, in the same transaction, succeeds. */
  function AfterConsume(cs: Challenges, now: int, wellFormed: bool, id: ChallengeId, address: Address, code: Code,
                        expected: Option<Intent>, commits: bool): (Challenges, ConsumeReply)
  {
    if !wellFormed || id !in cs || cs[id].address != address then (cs, Answer(Invalid))
    else if expected.Some? && expected.value != cs[id].intent then (cs, Answer(Invalid))
    else if expected == Some(SignUp) && cs[id].ageScreen != Some(true) then (cs - {id}, Answer(Invalid))
    else if now < 0 then (cs, Answer(Invalid))
    else
      var c := cs[id];
      var v := VerifyEmailOtp(true, id, code, c.digest, c.expires, c.attempts, now);
      if v.Accepted? && !commits then (cs, CallbackFailed)
      else if v.Accepted? || v.Expired? || v.Exhausted? then (cs - {id}, Answer(v))
      else if v.Incorrect? && c.attempts + 1 >= 5 then (cs - {id}, Answer(Exhausted))
      else if v.Incorrect? then (cs[id := c.(attempts := c.attempts + 1)], Answer(v))
      else (cs, Answer(v))
  }

  /** The store's unique index. */
  predicate OnePerAddress(cs: Challenges) {
    forall a, b :: a in cs && b in cs && cs[a].address == cs[b].address ==> a == b
  }

  class EmailOtpChallenges {
    var challenges: Challenges
    var now: int

    constructor ()
      ensures challenges == map[]
    {
      challenges, now := map[], 0;
    }

    method ReplaceActive(id: ChallengeId, address: Address, code: string, expiresAt: int, intent: Intent,
                         ageScreen: Option<bool>, cooldown: Option<nat>, cleaned: set<ChallengeId>)
                           returns (reply: ReplaceReply)
      requires id !in challenges && OnePerAddress(challenges)
      requires |cleaned| <= CLEANUP && forall x :: x in cleaned ==> x in challenges && challenges[x].expires <= now
      modifies this`challenges
      ensures (challenges, reply) == AfterReplace(old(challenges), now, id, address, code, expiresAt, intent, ageScreen,
                                                  cooldown, cleaned)
      ensures OnePerAddress(challenges)
    {
      if expiresAt <= now { return Refused; }
      if intent.SignUp? && ageScreen != Some(true) { return Refused; }
      if !intent.SignUp? && ageScreen.Some? { return Refused; }
      challenges := challenges - cleaned;
      if cooldown.Some? && RecentFor(challenges, address, now, cooldown.value) { return KeptActive; }
      challenges := Without(challenges, address);
      challenges := challenges[id := Challenge(address, Digest(id, code), 0, expiresAt, now, intent, ageScreen)];
      return StoredNew;
    }

    method ActiveId(address: Address) returns (id: Option<ChallengeId>)
      requires OnePerAddress(challenges)
      ensures match id
              case Some(x) => x in challenges && challenges[x].address == address && challenges[x].expires > now
              case None => forall x :: x in challenges && challenges[x].address == address ==>
                  challenges[x].expires <= now
    {
      var active := set x | x in challenges && challenges[x].address == address && challenges[x].expires > now;
      if active == {} {
        assert forall x :: x in challenges && challenges[x].address == address && challenges[x].expires > now ==>
            x in active;
        return None;
      }
      var x :| x in active;
      return Some(x);
    }

    method Invalidate(id: ChallengeId, address: Address)
      modifies this`challenges
      ensures challenges == AfterInvalidate(old(challenges), id, address)
    {
      if id in challenges && challenges[id].address == address {
        challenges := challenges - {id};
      }
    }

    method Consume(wellFormed: bool, id: ChallengeId, address: Address, code: Code, expected: Option<Intent>,
                   commits: bool)
      returns (reply: ConsumeReply)
      modifies this`challenges
      ensures (challenges, reply) == AfterConsume(old(challenges), now, wellFormed, id, address, code, expected,
                                                  commits)
    {
      if !wellFormed || id !in challenges || challenges[id].address != address { return Answer(Invalid); }
      var challenge := challenges[id];
      if expected.Some? && expected.value != challenge.intent { return Answer(Invalid); }
      if expected == Some(SignUp) && challenge.ageScreen != Some(true) {
        challenges := challenges - {id};
        return Answer(Invalid);
      }
      if now < 0 { return Answer(Invalid); }
      var verification := VerifyEmailOtp(true, id, code, challenge.digest, challenge.expires, challenge.attempts, now);
      if verification.Accepted? || verification.Expired? || verification.Exhausted? {
        if verification.Accepted? && !commits { return CallbackFailed; }
        challenges := challenges - {id};
      } else if verification.Incorrect? {
        var attempts := challenge.attempts + 1;
        if attempts >= 5 {
          challenges := challenges - {id};
        } else {
          challenges := challenges[id := challenge.(attempts := attempts)];
        }
      }
      return Answer(if verification.Incorrect? && challenge.attempts >= 4 then Exhausted else verification);
    }
  }
}
