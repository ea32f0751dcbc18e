/**
 * What a caller can learn from one challenge over whole runs: any sequence of issues, guesses,
 * invalidations and clock moves, with any codes and addresses presented.
 */
module OneTimeCodeSafety {
  import opened Prelude
  import opened OneTimeCodes
  import opened Runs

  /** `answers` and `committed` are histories: every reply given, and every acceptance callback that committed. */
  datatype State = State(challenges: Challenges, now: int, issued: set<ChallengeId>,
                         answers: seq<(ChallengeId, Verification)>, committed: seq<ChallengeId>)

  const Fresh := State(map[], 0, {}, [], [])

  datatype Op =
    | IssueOp(id: ChallengeId, address: Address, code: string, expiresAt: int, intent: Intent, ageScreen: Option<bool>,
              cooldown: Option<nat>, cleaned: set<ChallengeId>)
    | InvalidateOp(id: ChallengeId, address: Address)
    | ConsumeOp(wellFormed: bool, id: ChallengeId, address: Address, guess: Code, expected: Option<Intent>,
                commits: bool)
    | TickOp(elapsed: nat)

  function Apply(s: State, op: Op): State {
    match op
    case IssueOp(id, address, code, expiresAt, intent, ageScreen, cooldown, cleaned) =>
      var (cs, reply) := AfterReplace(s.challenges, s.now, id, address, code, expiresAt, intent, ageScreen, cooldown,
                                      cleaned);
      s.(challenges := cs, issued := if reply.StoredNew? then s.issued + {id} else s.issued)
    case InvalidateOp(id, address) => s.(challenges := AfterInvalidate(s.challenges, id, address))
    case ConsumeOp(wellFormed, id, address, code, expected, commits) =>
      var (cs, reply) := AfterConsume(s.challenges, s.now, wellFormed, id, address, code, expected, commits);
      if reply.CallbackFailed? then s.(challenges := cs)
      else s.(challenges := cs, answers := s.answers + [(id, reply.verification)],
              committed := if reply.verification.Accepted? then s.committed + [id] else s.committed)
    case TickOp(elapsed) => s.(now := s.now + elapsed)
  }

  /** Random identifiers are fresh, and the clean-up deletes only expired rows. */
  predicate Legal(s: State, op: Op) {
    match op
    case IssueOp(id, _, _, _, _, _, _, cleaned) =>
      id !in s.issued && forall x :: x in cleaned ==> x in s.challenges && s.challenges[x].expires <= s.now
    case _ => true
  }

  /** What was answered about one challenge, apart from `Invalid`. */
  function Heard(answers: seq<(ChallengeId, Verification)>, id: ChallengeId): seq<Verification> {
    if answers == [] then []
    else Heard(answers[..|answers| - 1], id)
         + (if answers[|answers| - 1].0 == id && !answers[|answers| - 1].1.Invalid? then [answers[|answers| - 1].1]
            else [])
  }

  lemma HeardAppend(answers: seq<(ChallengeId, Verification)>, a: (ChallengeId, Verification), id: ChallengeId)
    ensures Heard(answers + [a], id) == Heard(answers, id) + (if a.0 == id && !a.1.Invalid? then [a.1] else [])
  {
    assert (answers + [a])[..|answers|] == answers;
  }

  function Wrong(n: nat): (w: seq<Verification>)
    ensures |w| == n
  {
    seq(n, _ => Incorrect)
  }

  /** At most four `Incorrect`, and then possibly one last answer: `Exhausted` only after all four. */
  predicate Closed(heard: seq<Verification>) {
    exists k: nat :: k <= 4 && ClosedAt(heard, k)
  }

  predicate ClosedAt(heard: seq<Verification>, k: nat) {
    || heard == Wrong(k) || heard == Wrong(k) + [Accepted] || heard == Wrong(k) + [Expired]
    || (k == 4 && heard == Wrong(k) + [Exhausted])
  }

  /** What was heard about one challenge, and what the store still knows about it. */
  predicate Fits(cs: Challenges, issued: set<ChallengeId>, heard: seq<Verification>, id: ChallengeId) {
    && (id in cs ==>
          id in issued && cs[id].attempts <= 4 && heard == Wrong(cs[id].attempts) && cs[id].digest.challenge == id)
    && (id !in cs ==> Closed(heard))
    && (id !in issued ==> heard == [])
  }

  ghost predicate AllFit(s: State) {
    forall id :: Fits(s.challenges, s.issued, Heard(s.answers, id), id)
  }

  /** The acceptance callback committed for exactly the accepted answers. */
  ghost predicate CommitsAccepted(s: State) {
    forall id :: Times(s.committed, id) == Times(Heard(s.answers, id), Accepted)
  }

  ghost predicate Inv(s: State) {
    OnePerAddress(s.challenges) && AllFit(s) && CommitsAccepted(s)
  }

  lemma IssueKeeps(s: State, op: Op)
    requires Inv(s) && op.IssueOp? && Legal(s, op)
    ensures Inv(Apply(s, op))
  {
    var s' := Apply(s, op);
    forall id ensures Fits(s'.challenges, s'.issued, Heard(s'.answers, id), id) {
      var heard := Heard(s.answers, id);
      assert Fits(s.challenges, s.issued, heard, id);
      if id in s.challenges { assert ClosedAt(heard, s.challenges[id].attempts); }
      assert heard == [] ==> heard == Wrong(0);
    }
  }

  lemma InvalidateKeeps(s: State, op: Op)
    requires Inv(s) && (op.InvalidateOp? || op.TickOp?)
    ensures Inv(Apply(s, op))
  {
    var s' := Apply(s, op);
    forall id ensures Fits(s'.challenges, s'.issued, Heard(s'.answers, id), id) {
      assert Fits(s.challenges, s.issued, Heard(s.answers, id), id);
      if id in s.challenges { assert ClosedAt(Heard(s.answers, id), s.challenges[id].attempts); }
    }
  }

  /** What a caller has heard after one more reply. */
  function HeardNext(heard: seq<Verification>, reply: ConsumeReply): seq<Verification> {
    if reply.Answer? && !reply.verification.Invalid? then heard + [reply.verification] else heard
  }

  /** One reply moves what was heard about the challenge to a word of the same language. */
  lemma ReplyFits(cs: Challenges, now: int, issued: set<ChallengeId>, heard: seq<Verification>, op: Op)
    requires op.ConsumeOp? && Fits(cs, issued, heard, op.id)
    ensures var (cs', reply) :=
            AfterConsume(cs, now, op.wellFormed, op.id, op.address, op.guess, op.expected, op.commits);
            Fits(cs', issued, HeardNext(heard, reply), op.id)
  {
    var (cs', reply) := AfterConsume(cs, now, op.wellFormed, op.id, op.address, op.guess, op.expected, op.commits);
    if op.id in cs {
      var k := cs[op.id].attempts;
      assert Wrong(k) + [Incorrect] == Wrong(k + 1);
      if op.id !in cs' { assert ClosedAt(HeardNext(heard, reply), k); }
    }
  }

  function Consumed(s: State, op: Op): (Challenges, ConsumeReply)
    requires op.ConsumeOp?
  {
    AfterConsume(s.challenges, s.now, op.wellFormed, op.id, op.address, op.guess, op.expected, op.commits)
  }

  lemma ConsumeAnswers(s: State, op: Op, id: ChallengeId)
    requires op.ConsumeOp?
    ensures Heard(Apply(s, op).answers, id) == if id == op.id then HeardNext(Heard(s.answers, id), Consumed(s, op).1)
            else Heard(s.answers, id)
  {
    var reply := Consumed(s, op).1;
    if reply.Answer? { HeardAppend(s.answers, (op.id, reply.verification), id); }
  }

  lemma ConsumeCommits(s: State, op: Op, id: ChallengeId)
    requires op.ConsumeOp? && Times(s.committed, id) == Times(Heard(s.answers, id), Accepted)
    ensures Times(Apply(s, op).committed, id) == Times(Heard(Apply(s, op).answers, id), Accepted)
  {
    CommitsAppend(s, op);
    ConsumeAnswers(s, op, id);
    var reply := Consumed(s, op).1;
    hide *;
    var heard := Heard(s.answers, id);
    TimesAppend(s.committed, op.id, id);
    if reply.Answer? {
      TimesAppend(heard, reply.verification, Accepted);
      HeardNextIs(heard, reply);
    } else {
      HeardNextIs(heard, reply);
    }
  }

  lemma HeardNextIs(heard: seq<Verification>, reply: ConsumeReply)
    ensures HeardNext(heard, reply) == if reply.Answer? && !reply.verification.Invalid?
            then heard + [reply.verification] else heard
  {
  }

  lemma CommitsAppend(s: State, op: Op)
    requires op.ConsumeOp?
    ensures Apply(s, op).committed == if Consumed(s, op).1 == Answer(Accepted) then s.committed + [op.id]
            else s.committed
  {
  }

  lemma ConsumeFits(s: State, op: Op, id: ChallengeId)
    requires OnePerAddress(s.challenges) && op.ConsumeOp? && Fits(s.challenges, s.issued, Heard(s.answers, id), id)
    ensures Fits(Apply(s, op).challenges, s.issued, Heard(Apply(s, op).answers, id), id)
  {
    hide AfterConsume, Heard, HeardNext, Closed;
    ConsumeAnswers(s, op, id);
    ConsumeTouches(s.challenges, op, s.now);
    if id == op.id { ReplyFits(s.challenges, s.now, s.issued, Heard(s.answers, id), op); }
  }

  lemma ConsumeKeeps(s: State, op: Op)
    requires Inv(s) && op.ConsumeOp?
    ensures Inv(Apply(s, op))
  {
    ConsumeTouches(s.challenges, op, s.now);
    hide AfterConsume, Heard, Fits, OnePerAddress;
    var s' := Apply(s, op);
    forall id ensures Fits(s'.challenges, s'.issued, Heard(s'.answers, id), id) {
      ConsumeFits(s, op, id);
    }
    forall id ensures Times(s'.committed, id) == Times(Heard(s'.answers, id), Accepted) {
      ConsumeCommits(s, op, id);
    }
  }

  /** A guess touches only its own challenge, and moves no address. */
  lemma ConsumeTouches(cs: Challenges, op: Op, now: int)
    requires op.ConsumeOp? && OnePerAddress(cs)
    ensures var cs' := AfterConsume(cs, now, op.wellFormed, op.id, op.address, op.guess, op.expected, op.commits).0;
            OnePerAddress(cs') && forall id :: id != op.id ==>
                (id in cs' <==> id in cs) && (id in cs ==> cs'[id] == cs[id])
  {
  }

  lemma ApplyKeeps(s: State, op: Op)
    requires Inv(s) && Legal(s, op)
    ensures Inv(Apply(s, op))
  {
    hide Inv, Apply, Legal;
    match op
    case IssueOp(_, _, _, _, _, _, _, _) => IssueKeeps(s, op);
    case ConsumeOp(_, _, _, _, _, _) => ConsumeKeeps(s, op);
    case InvalidateOp(_, _) => InvalidateKeeps(s, op);
    case TickOp(_) => InvalidateKeeps(s, op);
  }

  // ---------------------------------------------------------------------------------------------
  // Whole runs.

  ghost function At(ops: seq<Op>): State {
    After(Fresh, Apply, ops)
  }

  ghost predicate LegalOps(ops: seq<Op>) {
    LegalRun(Fresh, Apply, Legal, ops)
  }

  lemma ReachableInv(ops: seq<Op>)
    requires LegalOps(ops)
    ensures Inv(At(ops))
  {
    forall id ensures Fits(map[], {}, Heard([], id), id) {
      assert Heard([], id) == Wrong(0) && ClosedAt([], 0);
    }
    assert Inv(Fresh);
    hide Inv, Apply, Legal;
    forall s, op | Inv(s) && Legal(s, op) ensures Inv(Apply(s, op)) {
      ApplyKeeps(s, op);
    }
    InvariantHolds(Fresh, Apply, Legal, Inv, ops);
  }

  /**
   * Whatever is presented in whatever order, about one challenge a caller hears at most four
   * `Incorrect`, then at most one last answer, and besides that only `Invalid`; stored attempts stay in 0..4.
   */
  lemma AnswersPerChallenge(ops: seq<Op>, id: ChallengeId)
    requires LegalOps(ops)
    ensures Closed(Heard(At(ops).answers, id))
    ensures id in At(ops).challenges ==>
            At(ops).challenges[id].attempts <= 4 && Heard(At(ops).answers, id) == Wrong(At(ops).challenges[id].attempts)
  {
    ReachableInv(ops);
    var s := At(ops);
    assert Fits(s.challenges, s.issued, Heard(s.answers, id), id);
    if id in s.challenges { assert ClosedAt(Heard(s.answers, id), s.challenges[id].attempts); }
  }

  lemma ClosedAcceptsOnce(heard: seq<Verification>)
    requires Closed(heard)
    ensures Times(heard, Accepted) <= 1
    ensures Accepted in heard ==> heard[|heard| - 1].Accepted?
  {
    var k: nat :| k <= 4 && ClosedAt(heard, k);
    WrongNeverAccepts(k);
    TimesAppend(Wrong(k), Accepted, Accepted);
    TimesAppend(Wrong(k), Expired, Accepted);
    TimesAppend(Wrong(k), Exhausted, Accepted);
  }

  lemma {:induction false} WrongNeverAccepts(k: nat)
    ensures Times(Wrong(k), Accepted) == 0
  {
    if k > 0 {
      WrongNeverAccepts(k - 1);
      assert Wrong(k)[..k - 1] == Wrong(k - 1);
    }
  }

  /** A challenge is accepted at most once, and exactly as often as its callback committed. */
  lemma AcceptedOnceAndCommitted(ops: seq<Op>, id: ChallengeId)
    requires LegalOps(ops)
    ensures Times(At(ops).committed, id) == Times(Heard(At(ops).answers, id), Accepted) <= 1
  {
    ReachableInv(ops);
    AnswersPerChallenge(ops, id);
    ClosedAcceptsOnce(Heard(At(ops).answers, id));
  }

  /** After a final answer about a challenge, nothing but `Invalid` is ever answered about it again. */
  lemma FinalAnswerIsFinal(s: State, op: Op, id: ChallengeId)
    requires Inv(s) && op.ConsumeOp? && op.id == id
    requires exists v :: v in Heard(s.answers, id) && !v.Incorrect?
    ensures AfterConsume(s.challenges, s.now, op.wellFormed, id, op.address, op.guess, op.expected, op.commits).1 ==
            Answer(Invalid)
    ensures Apply(s, op).challenges == s.challenges
  {
    assert Fits(s.challenges, s.issued, Heard(s.answers, id), id);
  }

  /** Issuing within the cooldown leaves the active challenge of the address exactly as it was. */
  lemma CooldownProtects(s: State, op: Op, active: ChallengeId)
    requires Inv(s) && op.IssueOp? && Legal(s, op) && op.cooldown.Some?
    requires active in s.challenges && s.challenges[active].address == op.address
    requires s.challenges[active].expires > s.now && s.challenges[active].created > s.now - op.cooldown.value
    ensures active in Apply(s, op).challenges && Apply(s, op).challenges[active] == s.challenges[active]
    ensures Apply(s, op).issued == s.issued
  {
    assert active !in op.cleaned;
    assert active in s.challenges - op.cleaned;
  }

  /** A code for this address that is still good and was sent within the cooldown. */
  predicate SentLately(s: State, op: Op, id: ChallengeId)
    requires op.IssueOp?
  {
    && op.cooldown.Some? && id in s.challenges && id !in op.cleaned && s.challenges[id].address == op.address
    && s.now < s.challenges[id].expires && s.now < s.challenges[id].created + op.cooldown.value
  }

  /** A sign-up must come with a passed age screen, anything else without one; and a code must have time left. */
  predicate Consistent(s: State, op: Op)
    requires op.IssueOp?
  {
    s.now < op.expiresAt && if op.intent == SignUp then op.ageScreen == Some(true) else op.ageScreen == None
  }

  /**
   * What issuing does: nothing for an inconsistent request; nothing but clean-up while a code sent lately is still
   * good; otherwise the new challenge, unused, takes the place of the one for its address. No other one is touched.
   */
  lemma IssueAnswers(s: State, op: Op)
    requires op.IssueOp? && Legal(s, op) && s.challenges.Keys <= s.issued
    ensures var (cs, reply) := AfterReplace(s.challenges, s.now, op.id, op.address, op.code, op.expiresAt, op.intent,
                                            op.ageScreen, op.cooldown, op.cleaned);
            && (reply == Refused <==> !Consistent(s, op))
            && (reply == KeptActive <==> Consistent(s, op) && exists id :: SentLately(s, op, id))
            && (reply == Refused ==> cs == s.challenges) && (reply == KeptActive ==> cs == s.challenges - op.cleaned)
            && (forall id :: id in s.challenges && id !in op.cleaned && s.challenges[id].address != op.address ==>
                  id in cs && cs[id] == s.challenges[id])
            && (reply == StoredNew ==>
                  && op.id in cs && cs[op.id] == Challenge(op.address, Digest(op.id, op.code), 0, op.expiresAt, s.now,
                                                           op.intent, op.ageScreen)
                  && (forall id :: id in cs && id != op.id ==> id in s.challenges && cs[id] == s.challenges[id]
                                                               && cs[id].address != op.address))
  {
    var kept := s.challenges - op.cleaned;
    if op.cooldown.Some? {
      if id :| SentLately(s, op, id) { assert id in kept && kept[id] == s.challenges[id]; }
      if RecentFor(kept, op.address, s.now, op.cooldown.value) {
        var id :| id in kept && kept[id].address == op.address && kept[id].expires > s.now
                  && kept[id].created > s.now - op.cooldown.value;
        assert SentLately(s, op, id);
      }
    }
  }

  /** A guess touches no other challenge, and leaves its own one there exactly after a wrong guess with some left. */
  lemma GuessTouches(s: State, op: Op, id: ChallengeId)
    requires Inv(s) && op.ConsumeOp? && id in s.challenges
    ensures id != op.id ==> id in Apply(s, op).challenges && Apply(s, op).challenges[id] == s.challenges[id]
    ensures id == op.id ==>
              match Consumed(s, op).1
              case CallbackFailed => Apply(s, op).challenges == s.challenges
              case Answer(Incorrect) =>
                id in Apply(s, op).challenges && s.challenges[id].attempts < 4
                && Apply(s, op).challenges[id] == s.challenges[id].(attempts := s.challenges[id].attempts + 1)
              case Answer(Exhausted) => id !in Apply(s, op).challenges && s.challenges[id].attempts == 4
              case Answer(Expired) => id !in Apply(s, op).challenges && s.now >= s.challenges[id].expires
              case Answer(Accepted) => id !in Apply(s, op).challenges
              case Answer(Invalid) =>
                Apply(s, op).challenges == s.challenges || Apply(s, op).challenges == s.challenges - {id}
  {
    assert Fits(s.challenges, s.issued, Heard(s.answers, id), id);
    hide Heard, Closed, Wrong;
  }

  /** An invalidation removes the challenge it names, if the address is right, and nothing else. */
  lemma InvalidateTouches(s: State, op: Op, id: ChallengeId)
    requires op.InvalidateOp? && id in s.challenges
    ensures id in Apply(s, op).challenges <==> !(id == op.id && s.challenges[id].address == op.address)
    ensures id in Apply(s, op).challenges ==> Apply(s, op).challenges[id] == s.challenges[id]
  {
  }

  /** There is at most one challenge per address. */
  lemma OneChallengePerAddress(ops: seq<Op>)
    requires LegalOps(ops)
    ensures OnePerAddress(At(ops).challenges)
  {
    ReachableInv(ops);
  }

  /**
   * A guess is accepted exactly when it is this challenge's own code, for its address and purpose, in time,
   * and the callback commits.
   */
  lemma AcceptedExactlyForTheCode(s: State, op: Op)
    requires Inv(s) && op.ConsumeOp?
    ensures Consumed(s, op).1 == Answer(Accepted) <==>
              && op.wellFormed && op.commits && op.id in s.challenges && s.challenges[op.id].address == op.address
              && (op.expected.Some? ==> op.expected.value == s.challenges[op.id].intent)
              && (op.expected == Some(SignUp) ==> s.challenges[op.id].ageScreen == Some(true))
              && op.guess.SixDigits? && s.challenges[op.id].digest == Digest(op.id, op.guess.digits)
              && 0 <= s.now < s.challenges[op.id].expires
  {
    assert Fits(s.challenges, s.issued, Heard(s.answers, op.id), op.id);
    hide Heard, Closed, Wrong;
  }
}
