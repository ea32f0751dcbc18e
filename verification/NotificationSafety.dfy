/**
 * Delivery attempts over whole runs: any number of workers that claim, send, record and crash at
 * any point. `Timely` is the hypothesis that a claimant records its outcome within its lease or never.
 */
module NotificationSafety {
  import opened Prelude
  import opened Notifications
  import opened Runs

  type ClaimId = nat

  datatype Phase = Fetched | Sent | Exhausting | Over

  /** What one worker remembers of its claim. */
  datatype Claim = Claim(key: Key, attempts: nat, at: int, phase: Phase, sent: bool)

  /** `sends` is a history: every call of a transport. */
  datatype State = State(t: Tables, claims: map<ClaimId, Claim>, sends: seq<Key>)

  const Fresh := State(Tables(map[], map[], 0), map[], [])

  datatype Op =
    | EnqueueOp(event: EventId, channels: set<Channel>)
    | ClaimOp(claim: ClaimId, choice: Option<Key>, killEmail: bool)
    | SendOp(claim: ClaimId)
    | DeliveredOp(claim: ClaimId)
    | FailedOp(claim: ClaimId, maxAttempts: int, baseDelay: int)
    | LetterOp(claim: ClaimId)
    | TickOp(elapsed: nat)

  predicate Open(s: State, c: ClaimId) {
    c in s.claims && (s.claims[c].phase.Fetched? || s.claims[c].phase.Sent?)
  }

  function Apply(s: State, op: Op): State {
    match op
    case EnqueueOp(event, channels) => s.(t := AfterEnqueue(s.t, event, channels))
    case ClaimOp(c, choice, killEmail) =>
      if choice.Some? && Due(Buried(s.t), choice.value, killEmail) then
        s.(t := AfterClaim(s.t, choice),
           claims := s.claims[c := Claim(choice.value, AfterClaim(s.t, choice).deliveries[choice.value].attempts,
                                         s.t.now, Fetched, false)])
      else s.(t := Buried(s.t))
    case SendOp(c) =>
      if c in s.claims && s.claims[c].phase.Fetched?
      then s.(claims := s.claims[c := s.claims[c].(phase := Sent, sent := true)], sends := s.sends + [s.claims[c].key])
      else s
    case DeliveredOp(c) =>
      if c in s.claims && s.claims[c].phase.Sent?
      then s.(t := AfterDelivered(s.t, s.claims[c].key), claims := s.claims[c := s.claims[c].(phase := Over)]) else s
    case FailedOp(c, maxAttempts, baseDelay) =>
      if Open(s, c) then
        s.(t := AfterFailed(s.t, s.claims[c].key, s.claims[c].attempts, maxAttempts, baseDelay),
           claims := s.claims[c := s.claims[c].(
             phase := if s.claims[c].attempts >= Clamp(maxAttempts) then Exhausting else Over)])
      else s
    case LetterOp(c) =>
      if c in s.claims && s.claims[c].phase.Exhausting?
      then s.(t := AfterLetter(s.t, s.claims[c].key, s.claims[c].attempts),
              claims := s.claims[c := s.claims[c].(phase := Over)]) else s
    case TickOp(elapsed) => s.(t := s.t.(now := s.t.now + elapsed))
  }

  /** Claim names are fresh. */
  predicate Possible(s: State, op: Op) {
    op.ClaimOp? ==> op.claim !in s.claims
  }

  /** A claimant records its outcome before its lease runs out, or crashes and never does. */
  predicate Timely(s: State, op: Op) {
    (op.DeliveredOp? || op.FailedOp?) && op.claim in s.claims ==> s.t.now <= s.claims[op.claim].at + LEASE
  }

  predicate Legal(s: State, op: Op) {
    Possible(s, op) && Timely(s, op)
  }

  // ---------------------------------------------------------------------------------------------

  predicate RowOk(d: Delivery, now: int) {
    && d.attempts <= ATTEMPTS
    && (d.status.Pending? ==> d.attempts < ATTEMPTS)
    && (d.status.Sending? <==> d.claimedAt.Some?)
    && (d.claimedAt.Some? ==> d.claimedAt.value <= now)
  }

  ghost predicate RowsOk(deliveries: map<Key, Delivery>, now: int) {
    forall k :: k in deliveries ==> RowOk(deliveries[k], now)
  }

  /** A claim whose lease still runs is the one its row shows. */
  predicate ClaimOk(c: Claim, deliveries: map<Key, Delivery>, now: int) {
    && c.key in deliveries && c.at <= now && 1 <= c.attempts <= deliveries[c.key].attempts
    && ((c.phase.Fetched? || c.phase.Sent?) && now <= c.at + LEASE ==>
          deliveries[c.key].status.Sending? && deliveries[c.key].claimedAt == Some(c.at)
              && deliveries[c.key].attempts == c.attempts)
    && (c.phase.Exhausting? ==> deliveries[c.key].status.DeadLetter? && deliveries[c.key].attempts == c.attempts)
    && (c.phase.Fetched? ==> !c.sent) && (c.phase.Sent? ==> c.sent)
  }

  ghost predicate ClaimsOk(claims: map<ClaimId, Claim>, deliveries: map<Key, Delivery>, now: int) {
    && (forall c :: c in claims ==> ClaimOk(claims[c], deliveries, now))
    && (forall c, d ::
          c in claims && d in claims && claims[c].key == claims[d].key && claims[c].attempts == claims[d].attempts ==>
            c == d)
  }

  function ClaimsOf(claims: map<ClaimId, Claim>, k: Key): set<ClaimId> {
    set c | c in claims && claims[c].key == k
  }

  function SentOf(claims: map<ClaimId, Claim>, k: Key): set<ClaimId> {
    set c | c in claims && claims[c].key == k && claims[c].sent
  }

  /** Attempts count claims, and sends count the claims that sent. */
  ghost predicate Counted(claims: map<ClaimId, Claim>, deliveries: map<Key, Delivery>, sends: seq<Key>) {
    && (forall k :: k in deliveries ==> |ClaimsOf(claims, k)| == deliveries[k].attempts)
    && (forall k :: Times(sends, k) == |SentOf(claims, k)|)
    && (forall c :: c in claims ==> claims[c].key in deliveries)
  }

  /** Letters belong to dead deliveries and show their attempts. */
  ghost predicate LettersOk(deliveries: map<Key, Delivery>, letters: map<Key, nat>) {
    forall k :: k in letters ==>
        k in deliveries && deliveries[k].status.DeadLetter? && letters[k] == deliveries[k].attempts
  }

  ghost predicate Inv(s: State) {
    && RowsOk(s.t.deliveries, s.t.now)
    && ClaimsOk(s.claims, s.t.deliveries, s.t.now)
    && Counted(s.claims, s.t.deliveries, s.sends)
    && LettersOk(s.t.deliveries, s.t.deadLetters)
  }

  /** Deliveries stay; delivered and dead ones never change again. */
  ghost predicate Settles(s: State, s': State) {
    forall k :: k in s.t.deliveries ==>
      && k in s'.t.deliveries && s.t.deliveries[k].attempts <= s'.t.deliveries[k].attempts
      && (s.t.deliveries[k].status.Delivered? || s.t.deliveries[k].status.DeadLetter? ==>
            s'.t.deliveries[k] == s.t.deliveries[k])
  }

  // Per operation.

  lemma MoreCounted(claims: map<ClaimId, Claim>, deliveries: map<Key, Delivery>, ds: map<Key, Delivery>,
                    sends: seq<Key>)
    requires Counted(claims, deliveries, sends)
    requires forall k :: k in deliveries ==> k in ds && ds[k] == deliveries[k]
    requires forall k :: k in ds && k !in deliveries ==> ds[k].attempts == 0
    ensures Counted(claims, ds, sends)
  {
    hide SentOf;
    forall k | k in ds && k !in deliveries ensures |ClaimsOf(claims, k)| == 0 {
      assert ClaimsOf(claims, k) == {};
    }
  }

  lemma EnqueueKeeps(s: State, op: Op)
    requires Inv(s) && op.EnqueueOp?
    ensures Inv(Apply(s, op)) && Settles(s, Apply(s, op))
  {
    var ds := AfterEnqueue(s.t, op.event, op.channels).deliveries;
    assert Apply(s, op) == s.(t := s.t.(deliveries := ds));
    assert forall k :: k in ds && k !in s.t.deliveries ==> ds[k] == Delivery(Pending, 0, None, s.t.now);
    assert forall k :: k in s.t.deliveries ==> k in ds && ds[k] == s.t.deliveries[k];
    hide Counted, AfterEnqueue, Apply;
    MoreCounted(s.claims, s.t.deliveries, ds, s.sends);
  }

  lemma BuryKeeps(s: State)
    requires Inv(s)
    ensures Inv(s.(t := Buried(s.t))) && Settles(s, s.(t := Buried(s.t)))
    ensures forall k :: k in Buried(s.t).deadLetters <==>
            k in Buried(s.t).deliveries && Buried(s.t).deliveries[k].status.DeadLetter?
  {
    hide ClaimsOf, SentOf;
  }

  lemma ClaimSets(claims: map<ClaimId, Claim>, c: ClaimId, claim: Claim, k: Key)
    requires c !in claims && !claim.sent
    ensures ClaimsOf(claims[c := claim], k) == if k == claim.key then ClaimsOf(claims, k) + {c} else ClaimsOf(claims, k)
    ensures SentOf(claims[c := claim], k) == SentOf(claims, k) && c !in ClaimsOf(claims, k)
  {
  }

  lemma ClaimCounts(claims: map<ClaimId, Claim>, deliveries: map<Key, Delivery>, sends: seq<Key>, c: ClaimId,
                    claim: Claim, d: Delivery)
    requires Counted(claims, deliveries, sends) && c !in claims && claim.key in deliveries && !claim.sent
    requires d.attempts == deliveries[claim.key].attempts + 1
    ensures Counted(claims[c := claim], deliveries[claim.key := d], sends)
  {
    hide ClaimsOf, SentOf, Times;
    forall k ensures Times(sends, k) == |SentOf(claims[c := claim], k)|
      ensures k in deliveries ==> |ClaimsOf(claims[c := claim], k)| == deliveries[claim.key := d][k].attempts
    {
      ClaimSets(claims, c, claim, k);
      assert Times(sends, k) == |SentOf(claims, k)|;
    }
  }

  /** A taken delivery had no claim in time. */
  lemma TakeClaims(s: State, c: ClaimId, claim: Claim)
    requires ClaimsOk(s.claims, s.t.deliveries, s.t.now) && RowsOk(s.t.deliveries, s.t.now) && c !in s.claims
    requires claim.key in s.t.deliveries && claim ==
             Claim(claim.key, s.t.deliveries[claim.key].attempts + 1, s.t.now, Fetched, false)
    requires s.t.deliveries[claim.key].status.Pending? || Abandoned(s.t.deliveries[claim.key], s.t.now)
    ensures var d := s.t.deliveries[claim.key].(status := Sending, claimedAt := Some(s.t.now),
                                                attempts := claim.attempts);
            ClaimsOk(s.claims[c := claim], s.t.deliveries[claim.key := d], s.t.now)
  {
  }

  lemma TakeKeeps(s: State, c: ClaimId, k: Key, killEmail: bool)
    requires Inv(s) && c !in s.claims && Due(s.t, k, killEmail)
    ensures var d := s.t.deliveries[k];
            var taken := d.(status := Sending, claimedAt := Some(s.t.now), attempts := d.attempts + 1);
            var s' := s.(t := s.t.(deliveries := s.t.deliveries[k := taken]),
                         claims := s.claims[c := Claim(k, d.attempts + 1, s.t.now, Fetched, false)]);
            Inv(s') && Settles(s, s')
  {
    var claim := Claim(k, s.t.deliveries[k].attempts + 1, s.t.now, Fetched, false);
    TakeClaims(s, c, claim);
    hide ClaimsOk;
    ClaimCounts(s.claims, s.t.deliveries, s.sends, c, claim,
                s.t.deliveries[k].(status := Sending, claimedAt := Some(s.t.now), attempts := claim.attempts));
    hide Counted;
  }

  lemma ClaimKeeps(s: State, op: Op)
    requires Inv(s) && op.ClaimOp? && Possible(s, op)
    ensures Inv(Apply(s, op)) && Settles(s, Apply(s, op))
  {
    BuryKeeps(s);
    hide Inv, Settles;
    var b := s.(t := Buried(s.t));
    if op.choice.Some? && Due(b.t, op.choice.value, op.killEmail) {
      TakeKeeps(b, op.claim, op.choice.value, op.killEmail);
      SettlesTrans(s, b, Apply(s, op));
    }
  }

  lemma SettlesTrans(a: State, b: State, c: State)
    ensures Settles(a, b) && Settles(b, c) ==> Settles(a, c)
  {
  }

  lemma PhaseSets(claims: map<ClaimId, Claim>, c: ClaimId, claim: Claim, k: Key)
    requires c in claims && claim.key == claims[c].key && (claims[c].sent ==> claim.sent)
    ensures ClaimsOf(claims[c := claim], k) == ClaimsOf(claims, k)
    ensures SentOf(claims[c := claim], k) == if claim.sent && k == claim.key then SentOf(claims, k) + {c}
            else SentOf(claims, k)
    ensures c in SentOf(claims, k) <==> claims[c].sent && k == claim.key
  {
  }

  /** A claim moves to a later phase, perhaps with its one send. */
  lemma PhaseCounts(claims: map<ClaimId, Claim>, deliveries: map<Key, Delivery>, sends: seq<Key>, c: ClaimId,
                    claim: Claim)
    requires Counted(claims, deliveries, sends) && c in claims && claim.key == claims[c].key
             && (claims[c].sent ==> claim.sent)
    ensures Counted(claims[c := claim], deliveries,
                    if claim.sent && !claims[c].sent then sends + [claim.key] else sends)
  {
    hide ClaimsOf, SentOf, Times;
    var sends' := if claim.sent && !claims[c].sent then sends + [claim.key] else sends;
    forall k ensures Times(sends', k) == |SentOf(claims[c := claim], k)|
      ensures k in deliveries ==> |ClaimsOf(claims[c := claim], k)| == deliveries[k].attempts
    {
      PhaseSets(claims, c, claim, k);
      TimesAppend(sends, claim.key, k);
      assert Times(sends, k) == |SentOf(claims, k)|;
      if c in SentOf(claims, k) { assert SentOf(claims, k) + {c} == SentOf(claims, k); }
    }
  }

  lemma PhaseClaims(claims: map<ClaimId, Claim>, deliveries: map<Key, Delivery>, now: int, c: ClaimId, claim: Claim)
    requires ClaimsOk(claims, deliveries, now) && c in claims && claim.key == claims[c].key
             && claim.attempts == claims[c].attempts
    requires ClaimOk(claim, deliveries, now)
    ensures ClaimsOk(claims[c := claim], deliveries, now)
  {
    hide ClaimOk;
  }

  lemma SendKeeps(s: State, op: Op)
    requires Inv(s) && (op.SendOp? || op.LetterOp?)
    ensures Inv(Apply(s, op)) && Settles(s, Apply(s, op))
  {
    var s' := Apply(s, op);
    hide Counted, ClaimsOk, RowsOk;
    if s' != s {
      assert ClaimOk(s.claims[op.claim], s.t.deliveries, s.t.now) by { ClaimShown(s, op.claim); }
      PhaseCounts(s.claims, s.t.deliveries, s.sends, op.claim, s'.claims[op.claim]);
      PhaseClaims(s.claims, s.t.deliveries, s.t.now, op.claim, s'.claims[op.claim]);
    }
  }

  lemma ClaimShown(s: State, c: ClaimId)
    requires ClaimsOk(s.claims, s.t.deliveries, s.t.now) && c in s.claims
    ensures ClaimOk(s.claims[c], s.t.deliveries, s.t.now)
  {
  }

  lemma TickKeeps(s: State, op: Op)
    requires Inv(s) && op.TickOp?
    ensures Inv(Apply(s, op)) && Settles(s, Apply(s, op))
  {
    hide Counted, LettersOk;
  }

  /** The row that an open claim in time finishes, for every other claim on it. */
  lemma OutcomeClaims(s: State, c: ClaimId, d: Delivery, phase: Phase)
    requires ClaimsOk(s.claims, s.t.deliveries, s.t.now) && Open(s, c) && s.t.now <= s.claims[c].at + LEASE
    requires d.attempts == s.t.deliveries[s.claims[c].key].attempts
             && (phase.Over? || (phase.Exhausting? && d.status.DeadLetter?))
    ensures ClaimsOk(s.claims[c := s.claims[c].(phase := phase)], s.t.deliveries[s.claims[c].key := d], s.t.now)
  {
    var k := s.claims[c].key;
    var claims', ds' := s.claims[c := s.claims[c].(phase := phase)], s.t.deliveries[k := d];
    ClaimShown(s, c);
    forall x | x in claims' ensures ClaimOk(claims'[x], ds', s.t.now) {
      ClaimShown(s, x);
      if x != c && s.claims[x].key == k { assert s.claims[x].attempts != s.claims[c].attempts; }
    }
    hide ClaimOk;
  }

  /** An open claim that is still in time is the only one its row knows. */
  lemma OutcomeKeeps(s: State, c: ClaimId, d: Delivery, phase: Phase)
    requires Inv(s) && Open(s, c) && s.t.now <= s.claims[c].at + LEASE
    requires d.attempts == s.t.deliveries[s.claims[c].key].attempts && d.claimedAt.None?
    requires (d.status.Delivered? && phase.Over?) || (d.status.DeadLetter? && phase.Exhausting?)
             || (d.status.Pending? && phase.Over? && d.attempts < ATTEMPTS)
    ensures var k := s.claims[c].key;
            var s' := s.(t := s.t.(deliveries := s.t.deliveries[k := d]),
                         claims := s.claims[c := s.claims[c].(phase := phase)]);
            Inv(s') && Settles(s, s')
  {
    hide Counted, ClaimsOk;
    var k := s.claims[c].key;
    ClaimShown(s, c);
    PhaseCounts(s.claims, s.t.deliveries, s.sends, c, s.claims[c].(phase := phase));
    SameAttemptsCounted(s.claims[c := s.claims[c].(phase := phase)], s.t.deliveries, s.sends, k, d);
    OutcomeClaims(s, c, d, phase);
  }

  lemma SameAttemptsCounted(claims: map<ClaimId, Claim>, deliveries: map<Key, Delivery>, sends: seq<Key>,
                            k: Key, d: Delivery)
    requires Counted(claims, deliveries, sends) && k in deliveries && d.attempts == deliveries[k].attempts
    ensures Counted(claims, deliveries[k := d], sends)
  {
    hide ClaimsOf, SentOf, Times;
  }

  lemma FinishKeeps(s: State, op: Op)
    requires Inv(s) && (op.DeliveredOp? || op.FailedOp?) && Timely(s, op)
    ensures Inv(Apply(s, op)) && Settles(s, Apply(s, op))
  {
    var s' := Apply(s, op);
    if s' != s {
      var claim := s.claims[op.claim];
      assert ClaimOk(claim, s.t.deliveries, s.t.now);
      hide Inv, Settles, Wait;
      OutcomeKeeps(s, op.claim, s'.t.deliveries[claim.key], s'.claims[op.claim].phase);
    }
  }

  lemma ApplyKeeps(s: State, op: Op)
    requires Inv(s) && Legal(s, op)
    ensures Inv(Apply(s, op)) && Settles(s, Apply(s, op))
  {
    hide Inv, Settles, Apply;
    match op
    case EnqueueOp(_, _) => EnqueueKeeps(s, op);
    case ClaimOp(_, _, _) => ClaimKeeps(s, op);
    case DeliveredOp(_) => FinishKeeps(s, op);
    case FailedOp(_, _, _) => FinishKeeps(s, op);
    case SendOp(_) => SendKeeps(s, op);
    case LetterOp(_) => SendKeeps(s, op);
    case TickOp(_) => TickKeeps(s, op);
  }

  // ---------------------------------------------------------------------------------------------
  // Whole runs.

  ghost function At(ops: seq<Op>): State {
    After(Fresh, Apply, ops)
  }

  ghost predicate LegalOps(ops: seq<Op>) {
    LegalRun(Fresh, Apply, Legal, ops)
  }

  lemma EveryStepKeeps()
    ensures Kept(Apply, Legal, Inv) && Related(Apply, Legal, Inv, Settles) && Preorder(Settles) && Inv(Fresh)
  {
    forall k ensures SentOf(map[], k) == {} {}
    assert Inv(Fresh);
    forall a, b, c | Settles(a, b) && Settles(b, c) ensures Settles(a, c) {
      SettlesTrans(a, b, c);
    }
    assert Preorder(Settles);
    hide Inv, Settles, Apply, Legal;
    forall s, op | Inv(s) && Legal(s, op) ensures Inv(Apply(s, op)) && Settles(s, Apply(s, op)) {
      ApplyKeeps(s, op);
    }
  }

  lemma ReachableInv(ops: seq<Op>)
    requires LegalOps(ops)
    ensures Inv(At(ops))
  {
    hide Inv, Settles, Apply, Legal;
    EveryStepKeeps();
    InvariantHolds(Fresh, Apply, Legal, Inv, ops);
  }

  /**
   * If every claimant records in time or crashes, each delivery is sent at most five times, and pending ones
   * had at most four attempts.
   */
  lemma SentAtMostFiveTimes(ops: seq<Op>, k: Key)
    requires LegalOps(ops)
    ensures Times(At(ops).sends, k) <= 5
    ensures k in At(ops).t.deliveries ==>
              && Times(At(ops).sends, k) <= At(ops).t.deliveries[k].attempts <= 5
              && (At(ops).t.deliveries[k].status.Pending? ==> At(ops).t.deliveries[k].attempts <= 4)
  {
    ReachableInv(ops);
    var s := At(ops);
    assert SentOf(s.claims, k) <= ClaimsOf(s.claims, k);
    SmallerSet(SentOf(s.claims, k), ClaimsOf(s.claims, k));
    if k in s.t.deliveries {
      assert RowOk(s.t.deliveries[k], s.t.now);
    } else {
      assert ClaimsOf(s.claims, k) == {};
    }
    hide ClaimsOf, SentOf, Times, ClaimsOk, LettersOk;
  }

  /** Delivered and dead deliveries never change again. */
  lemma SettledForGood(ops: seq<Op>, n: nat, k: Key)
    requires LegalOps(ops) && n <= |ops| && k in At(ops[..n]).t.deliveries
    requires At(ops[..n]).t.deliveries[k].status.Delivered? || At(ops[..n]).t.deliveries[k].status.DeadLetter?
    ensures k in At(ops).t.deliveries && At(ops).t.deliveries[k] == At(ops[..n]).t.deliveries[k]
  {
    hide Inv, Apply, Legal;
    EveryStepKeeps();
    StatesRelated(Fresh, Apply, Legal, Inv, Settles, ops, n);
    assert Settles(At(ops[..n]), At(ops));
  }

  /** Right after a claim transaction the dead letters are exactly the dead deliveries, each with its attempts. */
  lemma LettersExactAfterClaim(ops: seq<Op>, claim: Op)
    requires LegalOps(ops) && claim.ClaimOp? && Legal(At(ops), claim)
    ensures var t := Apply(At(ops), claim).t;
            forall k :: k in t.deadLetters <==> k in t.deliveries && t.deliveries[k].status.DeadLetter?
    ensures var t := Apply(At(ops), claim).t;
            forall k :: k in t.deadLetters ==> t.deadLetters[k] == t.deliveries[k].attempts
  {
    ReachableInv(ops);
    LettersExact(At(ops), claim);
  }

  lemma LettersExact(s: State, claim: Op)
    requires Inv(s) && claim.ClaimOp? && Legal(s, claim)
    ensures var t := Apply(s, claim).t;
            forall k :: k in t.deadLetters <==> k in t.deliveries && t.deliveries[k].status.DeadLetter?
    ensures var t := Apply(s, claim).t;
            forall k :: k in t.deadLetters ==> t.deadLetters[k] == t.deliveries[k].attempts
  {
    BuryKeeps(s);
    ClaimKeeps(s, claim);
    forall k { SameDead(s, claim, k); }
    hide RowsOk, ClaimsOk, Counted, Buried, Settles, Apply;
  }

  /** Taking a delivery changes nothing that is dead. */
  lemma SameDead(s: State, claim: Op, k: Key)
    requires claim.ClaimOp?
    ensures var t, b := Apply(s, claim).t, Buried(s.t);
            && t.deadLetters == b.deadLetters
            && (k in t.deliveries && t.deliveries[k].status.DeadLetter? <==>
                  k in b.deliveries && b.deliveries[k].status.DeadLetter?)
  {
    hide Buried;
  }

  // ---------------------------------------------------------------------------------------------
  // Why the timing hypothesis is needed.

  const K: Key := (1, InApp)

  /** `n` workers claim and send, one after the other, each outliving its lease without recording anything. */
  function Rounds(n: nat): seq<Op> {
    if n == 0 then [EnqueueOp(1, {InApp})]
    else Rounds(n - 1) + [ClaimOp(n - 1, Some(K), false)] + [SendOp(n - 1)] + [TickOp(LEASE + 1)]
  }

  /** The only delivery is `d`, `n` workers claimed so far, `m` sends were made. */
  ghost predicate One(s: State, d: Delivery, now: int, n: nat, m: nat) {
    && s.t == Tables(map[K := d], map[], now)
    && (forall c: nat :: c in s.claims <==> c < n)
    && Times(s.sends, K) == m
  }

  predicate FirstSent(s: State) {
    0 in s.claims && s.claims[0] == Claim(K, 1, 0, Sent, true)
  }

  lemma ClaimAgain(s: State, d: Delivery, now: int, n: nat, m: nat)
    requires One(s, d, now, n, m) && d.availableAt <= now && !d.status.DeadLetter?
    requires d.status.Pending? || (Abandoned(d, now) && d.attempts < ATTEMPTS)
    ensures var s' := Apply(s, ClaimOp(n, Some(K), false));
            && One(s', d.(status := Sending, claimedAt := Some(now), attempts := d.attempts + 1), now, n + 1, m)
            && s'.claims == s.claims[n := Claim(K, d.attempts + 1, now, Fetched, false)]
  {
    assert Buried(s.t) == s.t;
    assert Due(s.t, K, false);
  }

  lemma SendAgain(s: State, d: Delivery, now: int, n: nat, m: nat)
    requires One(s, d, now, n + 1, m) && n in s.claims && s.claims[n].phase.Fetched? && s.claims[n].key == K
    ensures var s' := Apply(s, SendOp(n));
            One(s', d, now, n + 1, m + 1) && s'.claims == s.claims[n := s.claims[n].(phase := Sent, sent := true)]
  {
    TimesAppend(s.sends, K, K);
  }

  function RoundRow(n: nat): Delivery {
    if n == 0 then Delivery(Pending, 0, None, 0) else Delivery(Sending, n, Some((LEASE + 1) * (n - 1)), 0)
  }

  ghost predicate Ran(ops: seq<Op>, s: State) {
    LegalRun(Fresh, Apply, Possible, ops) && After(Fresh, Apply, ops) == s
  }

  lemma RanMore(ops: seq<Op>, s: State, op: Op)
    requires Ran(ops, s) && Possible(s, op)
    ensures Ran(ops + [op], Apply(s, op))
  {
    Extend(Fresh, Apply, Possible, ops, op);
  }

  lemma FirstRow()
    ensures One(Apply(Fresh, EnqueueOp(1, {InApp})), RoundRow(0), 0, 0, 0)
  {
    assert KeysOf(1, {InApp}) == {K};
  }

  lemma {:induction false} RoundsRun(n: nat) returns (s: State)
    requires n <= 5
    ensures Ran(Rounds(n), s) && One(s, RoundRow(n), (LEASE + 1) * n, n, n) && (n > 0 ==> FirstSent(s))
  {
    hide Apply, One, FirstSent;
    if n == 0 {
      FirstRow();
      assert Ran([], Fresh);
      RanMore([], Fresh, EnqueueOp(1, {InApp}));
      assert [] + [EnqueueOp(1, {InApp})] == Rounds(0);
      s := Apply(Fresh, EnqueueOp(1, {InApp}));
    } else {
      var before := RoundsRun(n - 1);
      s := OneRound(Rounds(n - 1), before, n - 1);
    }
  }

  lemma OneRound(ops: seq<Op>, before: State, n: nat) returns (s: State)
    requires Ran(ops, before) && One(before, RoundRow(n), (LEASE + 1) * n, n, n) && (n > 0 ==> FirstSent(before))
             && n < 5
    ensures Ran(ops + [ClaimOp(n, Some(K), false)] + [SendOp(n)] + [TickOp(LEASE + 1)], s)
    ensures One(s, RoundRow(n + 1), (LEASE + 1) * (n + 1), n + 1, n + 1) && FirstSent(s)
  {
    hide Apply, Ran;
    var now := (LEASE + 1) * n;
    var claim, send, tick := ClaimOp(n, Some(K), false), SendOp(n), TickOp(LEASE + 1);
    ClaimAgain(before, RoundRow(n), now, n, n);
    RanMore(ops, before, claim);
    var s1 := Apply(before, claim);
    SendAgain(s1, RoundRow(n + 1), now, n, n);
    RanMore(ops + [claim], s1, send);
    var s2 := Apply(s1, send);
    RanMore(ops + [claim] + [send], s2, tick);
    s := Apply(s2, tick);
    Later(s2, LEASE + 1);
    assert s2.claims[0] == Claim(K, 1, 0, Sent, true);
  }

  lemma Later(s: State, elapsed: nat)
    ensures Apply(s, TickOp(elapsed)) == s.(t := s.t.(now := s.t.now + elapsed))
  {
  }

  /** The late failure of the first worker makes the exhausted delivery pending again. */
  lemma LateFailure(s: State, now: int)
    requires One(s, RoundRow(5), now, 5, 5) && FirstSent(s)
    ensures One(Apply(s, FailedOp(0, 5, 0)), Delivery(Pending, 5, None, now + MINUTE), now, 5, 5)
  {
    assert Pow2(0) == 1;
  }

  /** Without the hypothesis one delivery can be sent six times. */
  lemma LateWriterCausesSixthSend() returns (ops: seq<Op>)
    ensures LegalRun(Fresh, Apply, Possible, ops) && Times(At(ops).sends, K) == 6
  {
    hide Apply;
    var s := RoundsRun(5);
    ops := Rounds(5);
    var now := (LEASE + 1) * 5;
    var failed, tick, claim, send := FailedOp(0, 5, 0), TickOp(MINUTE), ClaimOp(5, Some(K), false), SendOp(5);
    LateFailure(s, now);
    RanMore(ops, s, failed);
    var s1 := Apply(s, failed);
    RanMore(ops + [failed], s1, tick);
    var s2 := Apply(s1, tick);
    Later(s1, MINUTE);
    ClaimAgain(s2, Delivery(Pending, 5, None, now + MINUTE), now + MINUTE, 5, 5);
    RanMore(ops + [failed] + [tick], s2, claim);
    var s3 := Apply(s2, claim);
    SendAgain(s3, Delivery(Sending, 6, Some(now + MINUTE), now + MINUTE), now + MINUTE, 5, 5);
    RanMore(ops + [failed] + [tick] + [claim], s3, send);
    ops := ops + [failed] + [tick] + [claim] + [send];
  }

  // ---------------------------------------------------------------------------------------------
  // Exactly which step breaks the bound.

  /**
   * A late failure that revives a spent delivery: the claimant counted fewer attempts than its limit, but the row
   * has used up all five. An attempt guard on the update would exclude exactly this.
   */
  predicate Revives(s: State, op: Op) {
    && op.FailedOp? && Open(s, op.claim) && s.claims[op.claim].key in s.t.deliveries
    && s.claims[op.claim].attempts < Clamp(op.maxAttempts)
       && s.t.deliveries[s.claims[op.claim].key].attempts >= ATTEMPTS
  }

  predicate Restrained(s: State, op: Op) {
    Possible(s, op) && !Revives(s, op)
  }

  predicate Spendable(d: Delivery) {
    d.attempts <= ATTEMPTS && (d.status.Pending? ==> d.attempts < ATTEMPTS)
  }

  ghost predicate AllSpendable(deliveries: map<Key, Delivery>) {
    forall k :: k in deliveries ==> Spendable(deliveries[k])
  }

  predicate ClaimFits(c: Claim, deliveries: map<Key, Delivery>) {
    c.key in deliveries && c.attempts <= deliveries[c.key].attempts && (c.phase.Fetched? ==> !c.sent)
        && (c.phase.Sent? ==> c.sent)
  }

  ghost predicate ClaimsFit(claims: map<ClaimId, Claim>, deliveries: map<Key, Delivery>) {
    forall c :: c in claims ==> ClaimFits(claims[c], deliveries)
  }

  /** What holds however late outcomes are written. */
  ghost predicate LooseInv(s: State) {
    AllSpendable(s.t.deliveries) && ClaimsFit(s.claims, s.t.deliveries) && Counted(s.claims, s.t.deliveries, s.sends)
  }

  lemma LooseBury(s: State)
    requires LooseInv(s)
    ensures LooseInv(s.(t := Buried(s.t)))
  {
    hide ClaimsOf, SentOf;
  }

  lemma LooseTake(s: State, c: ClaimId, k: Key, killEmail: bool)
    requires LooseInv(s) && c !in s.claims && Due(s.t, k, killEmail)
    ensures var d := s.t.deliveries[k];
            var taken := d.(status := Sending, claimedAt := Some(s.t.now), attempts := d.attempts + 1);
            LooseInv(s.(t := s.t.(deliveries := s.t.deliveries[k := taken]),
                        claims := s.claims[c := Claim(k, d.attempts + 1, s.t.now, Fetched, false)]))
  {
    var d := s.t.deliveries[k];
    ClaimCounts(s.claims, s.t.deliveries, s.sends, c, Claim(k, d.attempts + 1, s.t.now, Fetched, false),
                d.(status := Sending, claimedAt := Some(s.t.now), attempts := d.attempts + 1));
    hide Counted;
  }

  lemma LooseClaim(s: State, op: Op)
    requires LooseInv(s) && op.ClaimOp? && Possible(s, op)
    ensures LooseInv(Apply(s, op))
  {
    LooseBury(s);
    hide LooseInv;
    if op.choice.Some? && Due(Buried(s.t), op.choice.value, op.killEmail) {
      LooseTake(s.(t := Buried(s.t)), op.claim, op.choice.value, op.killEmail);
    }
  }

  lemma LooseEnqueue(s: State, op: Op)
    requires LooseInv(s) && op.EnqueueOp?
    ensures LooseInv(Apply(s, op))
  {
    var ds := AfterEnqueue(s.t, op.event, op.channels).deliveries;
    assert Apply(s, op) == s.(t := s.t.(deliveries := ds));
    assert forall k :: k in ds && k !in s.t.deliveries ==> ds[k] == Delivery(Pending, 0, None, s.t.now);
    assert forall k :: k in s.t.deliveries ==> k in ds && ds[k] == s.t.deliveries[k];
    hide Counted, AfterEnqueue, Apply;
    MoreCounted(s.claims, s.t.deliveries, ds, s.sends);
  }

  /** A claim moves on, and its row changes without another attempt. */
  lemma LooseMove(s: State, c: ClaimId, claim: Claim, d: Delivery)
    requires LooseInv(s) && c in s.claims && claim.key == s.claims[c].key && claim.attempts == s.claims[c].attempts
    requires (s.claims[c].sent ==> claim.sent) && (claim.phase.Fetched? ==> !claim.sent)
             && (claim.phase.Sent? ==> claim.sent)
    requires d.attempts == s.t.deliveries[claim.key].attempts && Spendable(d)
    ensures var sends := if claim.sent && !s.claims[c].sent then s.sends + [claim.key] else s.sends;
            LooseInv(s.(t := s.t.(deliveries := s.t.deliveries[claim.key := d]), claims := s.claims[c := claim],
                        sends := sends))
  {
    PhaseCounts(s.claims, s.t.deliveries, s.sends, c, claim);
    SameAttemptsCounted(s.claims[c := claim], s.t.deliveries,
                        if claim.sent && !s.claims[c].sent then s.sends + [claim.key] else s.sends, claim.key, d);
    hide Counted;
  }

  lemma LooseFinish(s: State, op: Op)
    requires LooseInv(s) && Restrained(s, op) && (op.SendOp? || op.DeliveredOp? || op.FailedOp? || op.LetterOp?)
    ensures LooseInv(Apply(s, op))
  {
    var s' := Apply(s, op);
    if s' != s {
      var k := s.claims[op.claim].key;
      assert ClaimFits(s.claims[op.claim], s.t.deliveries) && Spendable(s.t.deliveries[k]);
      LooseMove(s, op.claim, s'.claims[op.claim], s'.t.deliveries[k]);
      assert s.t.deliveries[k := s.t.deliveries[k]] == s.t.deliveries;
      hide LooseInv, Wait;
    }
  }

  lemma LooseKeeps(s: State, op: Op)
    requires LooseInv(s) && Restrained(s, op)
    ensures LooseInv(Apply(s, op))
  {
    match op
    case EnqueueOp(_, _) => LooseEnqueue(s, op);
    case ClaimOp(_, _, _) => LooseClaim(s, op);
    case TickOp(_) =>
    case _ => LooseFinish(s, op);
  }

  lemma EveryStepLoose()
    ensures Kept(Apply, Restrained, LooseInv) && LooseInv(Fresh)
  {
    forall k ensures SentOf(map[], k) == {} {}
    assert LooseInv(Fresh);
    hide LooseInv, Apply, Restrained;
    forall s, op | LooseInv(s) && Restrained(s, op) ensures LooseInv(Apply(s, op)) {
      LooseKeeps(s, op);
    }
  }

  /**
   * However late outcomes are written: as long as none revives a spent delivery, each delivery is sent at
   * most five times.
   */
  lemma SentAtMostFiveUnlessRevived(ops: seq<Op>, k: Key)
    requires LegalRun(Fresh, Apply, Restrained, ops)
    ensures LooseInv(At(ops)) && Times(At(ops).sends, k) <= 5
  {
    EveryStepLoose();
    InvariantHolds(Fresh, Apply, Restrained, LooseInv, ops);
    LooseBound(At(ops), k);
  }

  lemma LooseBound(s: State, k: Key)
    requires LooseInv(s)
    ensures Times(s.sends, k) <= 5
  {
    assert SentOf(s.claims, k) <= ClaimsOf(s.claims, k);
    SmallerSet(SentOf(s.claims, k), ClaimsOf(s.claims, k));
    if k in s.t.deliveries {
      assert Spendable(s.t.deliveries[k]);
    } else {
      assert ClaimsOf(s.claims, k) == {};
    }
    hide ClaimsOf, SentOf, Times;
  }

  /** Some delivery is claimed for a sixth time. */
  ghost predicate Overspent(s: State) {
    exists k :: k in s.t.deliveries && s.t.deliveries[k].attempts > ATTEMPTS
  }

  lemma {:induction false} Unused(ids: set<ClaimId>) returns (c: ClaimId)
    ensures forall x :: x in ids ==> x < c
    decreases ids
  {
    if ids == {} {
      c := 0;
    } else {
      var x :| x in ids;
      var rest := Unused(ids - {x});
      c := if x < rest then rest else x + 1;
      forall y | y in ids ensures y < c {
        if y != x { assert y in ids - {x}; }
      }
    }
  }

  /** After a revival, the clock and one claim are enough. */
  lemma RevivalOverspends(s: State, op: Op) returns (later: seq<Op>)
    requires LooseInv(s) && Revives(s, op)
    ensures LegalRun(Apply(s, op), Apply, Restrained, later) && Overspent(After(Apply(s, op), Apply, later))
  {
    var s1, k := Apply(s, op), s.claims[op.claim].key;
    var d := s1.t.deliveries[k];
    var c := Unused(s1.claims.Keys);
    var wait: nat := if d.availableAt > s1.t.now then d.availableAt - s1.t.now else 0;
    var tick, claim := TickOp(wait), ClaimOp(c, Some(k), false);
    var s2 := Apply(s1, tick);
    hide Counted, Wait, KeysOf;
    assert d.status.Pending? && d.attempts >= ATTEMPTS && Buried(s2.t).deliveries[k] == d;
    assert Due(Buried(s2.t), k, false);
    assert Apply(s2, claim).t.deliveries[k].attempts == d.attempts + 1;
    assert Overspent(Apply(s2, claim));
    Extend(s1, Apply, Restrained, [], tick);
    Extend(s1, Apply, Restrained, [tick], claim);
    assert [] + [tick] == [tick];
    later := [tick] + [claim];
  }

  lemma LooseWithin(s: State)
    requires LooseInv(s)
    ensures !Overspent(s)
  {
    forall k | k in s.t.deliveries ensures s.t.deliveries[k].attempts <= ATTEMPTS {
      assert Spendable(s.t.deliveries[k]);
    }
  }

  lemma RestrainedStays(s: State, later: seq<Op>)
    requires LooseInv(s) && LegalRun(s, Apply, Restrained, later)
    ensures !Overspent(After(s, Apply, later))
  {
    EveryStepLoose();
    InvariantHolds(s, Apply, Restrained, LooseInv, later);
    LooseWithin(After(s, Apply, later));
  }

  /** A step lets some delivery be claimed for a sixth time, now or later, if and only if it revives a spent one. */
  lemma SixthClaimIff(s: State, op: Op)
    requires LooseInv(s) && Possible(s, op)
    ensures Revives(s, op) <==> exists later ::
            LegalRun(Apply(s, op), Apply, Restrained, later) && Overspent(After(Apply(s, op), Apply, later))
  {
    if Revives(s, op) {
      var later := RevivalOverspends(s, op);
    } else {
      LooseKeeps(s, op);
      hide LooseInv, Overspent;
      forall later | LegalRun(Apply(s, op), Apply, Restrained, later)
        ensures !Overspent(After(Apply(s, op), Apply, later)) {
        RestrainedStays(Apply(s, op), later);
      }
    }
  }

  // ---------------------------------------------------------------------------------------------
  // What each step writes.

  /** No other delivery and no other letter changes. */
  ghost predicate OnlyKey(t: Tables, t': Tables, k: Key) {
    && (forall x :: x != k ==>
          && (x in t.deliveries <==> x in t'.deliveries) && (x in t.deliveries ==> t'.deliveries[x] == t.deliveries[x])
          && (x in t.deadLetters <==> x in t'.deadLetters)
          && (x in t.deadLetters ==> t'.deadLetters[x] == t.deadLetters[x]))
    && t'.now == t.now
  }

  /**
   * A failure makes the delivery due again after the base delay or the backoff, whichever is longer, or dead if the
   * claim was the last attempt allowed, at least one and at most five; a success settles it.
   */
  lemma OutcomesWritten(s: State, c: ClaimId, maxAttempts: int, baseDelay: int)
    requires Open(s, c) && s.claims[c].key in s.t.deliveries
    ensures var k, n := s.claims[c].key, s.claims[c].attempts;
            var t := Apply(s, FailedOp(c, maxAttempts, baseDelay)).t;
            var last := (maxAttempts < 1 && n >= 1) || (1 <= maxAttempts <= 5 && n >= maxAttempts) || n >= 5;
            && OnlyKey(s.t, t, k) && t.deadLetters == s.t.deadLetters && k in t.deliveries
            && t.deliveries[k].attempts == s.t.deliveries[k].attempts && t.deliveries[k].claimedAt == None
            && t.deliveries[k].status == (if last then DeadLetter else Pending)
            && t.deliveries[k].availableAt >= s.t.now + baseDelay && t.deliveries[k].availableAt >= s.t.now + Wait(n)
            && t.deliveries[k].availableAt in {s.t.now + baseDelay, s.t.now + Wait(n)}
    ensures var k := s.claims[c].key; var t := Apply(s, DeliveredOp(c)).t;
            s.claims[c].phase.Sent? ==>
              && OnlyKey(s.t, t, k) && t.deadLetters == s.t.deadLetters && k in t.deliveries
              && t.deliveries[k] == s.t.deliveries[k].(status := Delivered, claimedAt := None)
  {
    hide Wait;
  }

  /** The letter names the attempts of the claim that failed; one that exists stays. */
  lemma LetterWritten(s: State, c: ClaimId)
    requires c in s.claims && s.claims[c].phase.Exhausting?
    ensures var k := s.claims[c].key; var t := Apply(s, LetterOp(c)).t;
            && OnlyKey(s.t, t, k) && t.deliveries == s.t.deliveries && k in t.deadLetters
            && t.deadLetters[k] == if k in s.t.deadLetters then s.t.deadLetters[k] else s.claims[c].attempts
  {
  }

  /** A claim takes the delivery it chose under the next attempt, and buries what was abandoned on its fifth one. */
  lemma ClaimWritten(s: State, op: Op, x: Key)
    requires op.ClaimOp? && x in s.t.deliveries
    ensures var d, t := s.t.deliveries[x], Apply(s, op).t;
            var abandoned := d.status == Sending && d.claimedAt.Some? && d.claimedAt.value + 120000 < s.t.now;
            && x in t.deliveries && t.now == s.t.now
            && if abandoned && d.attempts >= 5 then
                 t.deliveries[x] == d.(status := DeadLetter, claimedAt := None) && x in t.deadLetters
               else if op.choice == Some(x) && (d.status == Pending || abandoned) && d.availableAt <= s.t.now
                       && !(op.killEmail && x.1 == Email) then
                 t.deliveries[x] == d.(status := Sending, claimedAt := Some(s.t.now), attempts := d.attempts + 1)
               else t.deliveries[x] == d && (d.status == DeadLetter ==> x in t.deadLetters)
    ensures var t := Apply(s, op).t;
            && t.deliveries.Keys == s.t.deliveries.Keys
            && (x in t.deadLetters ==> x in s.t.deadLetters || t.deliveries[x].status == DeadLetter)
            && (x in t.deadLetters ==> t.deadLetters[x] == if x in s.t.deadLetters then s.t.deadLetters[x]
                                                           else s.t.deliveries[x].attempts)
  {
  }

  /** Enqueuing adds a pending delivery, due now, for each channel that has none, and nothing else. */
  lemma EnqueueWritten(s: State, event: EventId, channels: set<Channel>, x: Key)
    ensures var t := Apply(s, EnqueueOp(event, channels)).t;
            && t.deadLetters == s.t.deadLetters && t.now == s.t.now
            && (x in t.deliveries <==> x in s.t.deliveries || (x.0 == event && x.1 in channels))
            && (x in t.deliveries ==>
                  t.deliveries[x] == if x in s.t.deliveries then s.t.deliveries[x]
                      else Delivery(Pending, 0, None, s.t.now))
  {
  }

  // ---------------------------------------------------------------------------------------------
  // Exactly which step changes a settled delivery.

  predicate Settled(d: Delivery) {
    d.status.Delivered? || d.status.DeadLetter?
  }

  /** Settled rows show no claim. */
  ghost predicate SettledFree(s: State) {
    forall k :: k in s.t.deliveries && Settled(s.t.deliveries[k]) ==> s.t.deliveries[k].claimedAt.None?
  }

  lemma SettledFreeKeeps(s: State, op: Op)
    requires SettledFree(s)
    ensures SettledFree(Apply(s, op))
  {
    hide Wait;
  }

  /** However late outcomes are written. */
  lemma ReachableSettledFree(ops: seq<Op>)
    requires LegalRun(Fresh, Apply, Possible, ops)
    ensures SettledFree(At(ops))
  {
    assert SettledFree(Fresh);
    hide SettledFree, Apply, Possible;
    forall s, op | SettledFree(s) && Possible(s, op) ensures SettledFree(Apply(s, op)) {
      SettledFreeKeeps(s, op);
    }
    InvariantHolds(Fresh, Apply, Possible, SettledFree, ops);
  }

  /**
   * The outcome of an open claim is written on a settled row that says something else: delivered on dead, or
   * failed on either.
   */
  predicate WritesOver(s: State, op: Op, k: Key) {
    && k in s.t.deliveries && Settled(s.t.deliveries[k])
    && match op
       case DeliveredOp(c) =>
         c in s.claims && s.claims[c].phase.Sent? && s.claims[c].key == k && s.t.deliveries[k].status.DeadLetter?
       case FailedOp(c, maxAttempts, baseDelay) =>
         && Open(s, c) && s.claims[c].key == k
         && !(&& s.t.deliveries[k].status.DeadLetter? && s.claims[c].attempts >= Clamp(maxAttempts)
              && s.t.deliveries[k].availableAt == s.t.now + Delay(s.claims[c].attempts, baseDelay))
       case _ => false
  }

  /** A claim transaction passes settled rows by. */
  lemma ClaimPasses(s: State, op: Op, k: Key)
    requires op.ClaimOp? && k in s.t.deliveries && Settled(s.t.deliveries[k])
    ensures k in Apply(s, op).t.deliveries && Apply(s, op).t.deliveries[k] == s.t.deliveries[k]
  {
    assert Buried(s.t).deliveries[k] == s.t.deliveries[k];
    hide Buried;
  }

  /**
   * A step changes a settled delivery if and only if it writes an outcome over it, and makes it pending again if and
   * only if that outcome is a failure below the claimant's limit.
   */
  lemma SettledChangesIff(s: State, op: Op, k: Key)
    requires SettledFree(s) && k in s.t.deliveries && Settled(s.t.deliveries[k])
    ensures k in Apply(s, op).t.deliveries
    ensures Apply(s, op).t.deliveries[k] != s.t.deliveries[k] <==> WritesOver(s, op, k)
    ensures !Settled(Apply(s, op).t.deliveries[k])
       <==>
       op.FailedOp? && Open(s, op.claim) && s.claims[op.claim].key == k
       && s.claims[op.claim].attempts < Clamp(op.maxAttempts)
  {
    assert s.t.deliveries[k].claimedAt.None?;
    if op.ClaimOp? { ClaimPasses(s, op, k); }
    hide Wait, Buried, KeysOf;
  }

  /** Any step that writes over no settled row. */
  predicate Careful(s: State, op: Op) {
    Possible(s, op) && (op.DeliveredOp? || op.FailedOp? ==> op.claim in s.claims ==>
                          !WritesOver(s, op, s.claims[op.claim].key))
  }

  lemma CarefulSettles(s: State, op: Op, k: Key)
    requires SettledFree(s) && Careful(s, op) && k in s.t.deliveries && Settled(s.t.deliveries[k])
    ensures k in Apply(s, op).t.deliveries && Apply(s, op).t.deliveries[k] == s.t.deliveries[k]
  {
    SettledChangesIff(s, op, k);
    hide Wait, Apply, SettledFree;
  }

  /** Letters belong to dead deliveries, and so do the letters still to be written. */
  ghost predicate LettersDead(s: State) {
    && (forall k :: k in s.t.deadLetters ==> k in s.t.deliveries && s.t.deliveries[k].status.DeadLetter?)
    && (forall c :: c in s.claims && s.claims[c].phase.Exhausting? ==>
          s.claims[c].key in s.t.deliveries && s.t.deliveries[s.claims[c].key].status.DeadLetter?)
    && (forall c :: c in s.claims ==> s.claims[c].key in s.t.deliveries)
  }

  ghost predicate CarefulInv(s: State) {
    SettledFree(s) && LettersDead(s)
  }

  /** What is dead stays dead, and a letter is only added for a dead delivery. */
  lemma LettersStayDead(s: State, op: Op)
    requires CarefulInv(s) && Careful(s, op)
    ensures LettersDead(Apply(s, op))
  {
    forall k | k in s.t.deliveries && s.t.deliveries[k].status.DeadLetter?
      ensures k in Apply(s, op).t.deliveries && Apply(s, op).t.deliveries[k].status.DeadLetter?
    {
      CarefulSettles(s, op, k);
    }
    forall k | k in s.t.deliveries ensures k in Apply(s, op).t.deliveries {
      RowsStay(s, op, k);
    }
    NewLetters(s, op);
    NewClaims(s, op);
    hide Apply, Careful, SettledFree, WritesOver;
  }

  lemma RowsStay(s: State, op: Op, k: Key)
    requires k in s.t.deliveries
    ensures k in Apply(s, op).t.deliveries
  {
    hide Wait, KeysOf;
  }

  lemma NewLetters(s: State, op: Op)
    ensures forall k :: k in Apply(s, op).t.deadLetters && k !in s.t.deadLetters ==>
              || (k in Apply(s, op).t.deliveries && Apply(s, op).t.deliveries[k].status.DeadLetter?)
              || (op.LetterOp? && op.claim in s.claims && s.claims[op.claim].phase.Exhausting?
                  && s.claims[op.claim].key == k)
    ensures op.LetterOp? ==> Apply(s, op).t.deliveries == s.t.deliveries
  {
    hide Wait, KeysOf;
  }

  lemma NewClaims(s: State, op: Op)
    requires CarefulInv(s)
    ensures forall c :: c in Apply(s, op).claims ==>
              Apply(s, op).claims[c].key in Apply(s, op).t.deliveries
    ensures forall c :: c in Apply(s, op).claims && Apply(s, op).claims[c].phase.Exhausting? ==>
              || (c in s.claims && s.claims[c].phase.Exhausting? && s.claims[c].key == Apply(s, op).claims[c].key)
              || Apply(s, op).t.deliveries[Apply(s, op).claims[c].key].status.DeadLetter?
  {
    hide Wait, KeysOf, SettledFree;
  }

  lemma EveryStepCareful()
    ensures Kept(Apply, Careful, CarefulInv) && CarefulInv(Fresh)
  {
    assert CarefulInv(Fresh);
    hide LettersDead, SettledFree, Apply, Careful;
    forall s, op | CarefulInv(s) && Careful(s, op) ensures CarefulInv(Apply(s, op)) {
      SettledFreeKeeps(s, op);
      LettersStayDead(s, op);
    }
  }

  ghost predicate StaysSettled(s: State, s': State) {
    forall k :: k in s.t.deliveries && Settled(s.t.deliveries[k]) ==>
        k in s'.t.deliveries && s'.t.deliveries[k] == s.t.deliveries[k]
  }

  lemma EveryStepStays()
    ensures Related(Apply, Careful, CarefulInv, StaysSettled) && Preorder(StaysSettled)
  {
    hide LettersDead, SettledFree, Apply, Careful;
    forall s, op | CarefulInv(s) && Careful(s, op) ensures StaysSettled(s, Apply(s, op)) {
      forall k | k in s.t.deliveries && Settled(s.t.deliveries[k])
        ensures k in Apply(s, op).t.deliveries && Apply(s, op).t.deliveries[k] == s.t.deliveries[k]
      {
        CarefulSettles(s, op, k);
      }
    }
  }

  /**
   * However late outcomes are written: as long as none is written over a settled row, settled deliveries
   * never change.
   */
  lemma SettledForGoodUnlessWrittenOver(ops: seq<Op>, n: nat, k: Key)
    requires LegalRun(Fresh, Apply, Careful, ops) && n <= |ops|
    requires k in At(ops[..n]).t.deliveries && Settled(At(ops[..n]).t.deliveries[k])
    ensures k in At(ops).t.deliveries && At(ops).t.deliveries[k] == At(ops[..n]).t.deliveries[k]
  {
    EveryStepCareful();
    EveryStepStays();
    hide CarefulInv, Apply, Careful;
    StatesRelated(Fresh, Apply, Careful, CarefulInv, StaysSettled, ops, n);
    assert StaysSettled(At(ops[..n]), At(ops));
  }

  /** And right after a claim transaction the deliveries with a letter are exactly the dead ones. */
  lemma LettersExactUnlessWrittenOver(ops: seq<Op>, claim: Op)
    requires LegalRun(Fresh, Apply, Careful, ops) && claim.ClaimOp? && Possible(At(ops), claim)
    ensures var t := Apply(At(ops), claim).t;
            forall k :: k in t.deadLetters <==> k in t.deliveries && t.deliveries[k].status.DeadLetter?
  {
    EveryStepCareful();
    InvariantHolds(Fresh, Apply, Careful, CarefulInv, ops);
    LettersStayDead(At(ops), claim);
    forall k { SameDead(At(ops), claim, k); }
    DeadHaveLetters(At(ops).t);
    hide Apply, Careful, Buried, SettledFree;
  }

  lemma DeadHaveLetters(t: Tables)
    ensures forall k :: k in Buried(t).deliveries && Buried(t).deliveries[k].status.DeadLetter? ==>
            k in Buried(t).deadLetters
  {
  }

  /** A delivered notification is sent again: the first worker's failure arrives after the second worker's success. */
  lemma LateFailureSendsAgain() returns (ops: seq<Op>, n: nat)
    ensures LegalRun(Fresh, Apply, Possible, ops) && n < |ops|
    ensures K in At(ops[..n]).t.deliveries && At(ops[..n]).t.deliveries[K].status.Delivered?
            && Times(At(ops[..n]).sends, K) == 2
    ensures Times(At(ops).sends, K) == 3
  {
    hide Apply;
    var s := RoundsRun(1);
    var now := LEASE + 1;
    var claim, send, done := ClaimOp(1, Some(K), false), SendOp(1), DeliveredOp(1);
    var failed, tick, again, resend := FailedOp(0, 5, 0), TickOp(MINUTE), ClaimOp(2, Some(K), false), SendOp(2);
    var delivered := Delivery(Delivered, 2, None, 0);
    ClaimAgain(s, RoundRow(1), now, 1, 1);
    RanMore(Rounds(1), s, claim);
    var s1 := Apply(s, claim);
    SendAgain(s1, Delivery(Sending, 2, Some(now), 0), now, 1, 1);
    RanMore(Rounds(1) + [claim], s1, send);
    var s2 := Apply(s1, send);
    RowDelivered(s2, Delivery(Sending, 2, Some(now), 0), now);
    RanMore(Rounds(1) + [claim] + [send], s2, done);
    var s3 := Apply(s2, done);
    var prefix := Rounds(1) + [claim] + [send] + [done];
    FailsDelivered(s3, delivered, now);
    RanMore(prefix, s3, failed);
    var s4 := Apply(s3, failed);
    RanMore(prefix + [failed], s4, tick);
    var s5 := Apply(s4, tick);
    Later(s4, MINUTE);
    ClaimAgain(s5, Delivery(Pending, 2, None, now + MINUTE), now + MINUTE, 2, 2);
    RanMore(prefix + [failed] + [tick], s5, again);
    var s6 := Apply(s5, again);
    SendAgain(s6, Delivery(Sending, 3, Some(now + MINUTE), now + MINUTE), now + MINUTE, 2, 2);
    RanMore(prefix + [failed] + [tick] + [again], s6, resend);
    n := |prefix|;
    ops := prefix + [failed] + [tick] + [again] + [resend];
    assert ops[..n] == prefix;
  }

  lemma RowDelivered(s: State, d: Delivery, now: int)
    requires One(s, d, now, 2, 2) && FirstSent(s) && 1 in s.claims && s.claims[1].phase.Sent? && s.claims[1].key == K
    ensures var s' := Apply(s, DeliveredOp(1));
            One(s', d.(status := Delivered, claimedAt := None), now, 2, 2) && FirstSent(s')
  {
  }

  lemma FailsDelivered(s: State, d: Delivery, now: int)
    requires One(s, d, now, 2, 2) && FirstSent(s) && d.attempts == 2
    ensures One(Apply(s, FailedOp(0, 5, 0)), Delivery(Pending, 2, None, now + MINUTE), now, 2, 2)
  {
    assert Pow2(0) == 1;
  }

  /**
   * A letter is left behind: a late failure makes a dead delivery pending, and the next claim transaction
   * keeps its letter.
   */
  lemma LateFailureStrandsLetter() returns (ops: seq<Op>, claim: Op)
    ensures LegalRun(Fresh, Apply, Possible, ops) && claim.ClaimOp? && Possible(At(ops), claim)
    ensures var t := Apply(At(ops), claim).t;
            K in t.deadLetters && K in t.deliveries && t.deliveries[K].status.Pending?
  {
    hide Apply;
    var s := RoundsRun(5);
    var now := (LEASE + 1) * 5;
    var bury, failed := ClaimOp(5, None, false), FailedOp(0, 5, 0);
    claim := ClaimOp(6, None, false);
    Stranded(s, now);
    RanMore(Rounds(5), s, bury);
    var s1 := Apply(s, bury);
    RanMore(Rounds(5) + [bury], s1, failed);
    ops := Rounds(5) + [bury] + [failed];
  }

  lemma Stranded(s: State, now: int)
    requires One(s, RoundRow(5), now, 5, 5) && FirstSent(s) && now == (LEASE + 1) * 5
    ensures var s1 := Apply(s, ClaimOp(5, None, false)); var s2 := Apply(s1, FailedOp(0, 5, 0));
            var t := Apply(s2, ClaimOp(6, None, false)).t;
            && Possible(s, ClaimOp(5, None, false)) && Possible(s2, ClaimOp(6, None, false))
            && K in t.deadLetters && K in t.deliveries && t.deliveries[K].status.Pending?
  {
    var b := Buried(s.t);
    assert Abandoned(RoundRow(5), now);
    assert b.deliveries == map[K := Delivery(DeadLetter, 5, None, 0)] && K in b.deadLetters;
    var s1 := Apply(s, ClaimOp(5, None, false));
    assert s1 == s.(t := b);
    assert s1.claims[0] == Claim(K, 1, 0, Sent, true);
    var s2 := Apply(s1, FailedOp(0, 5, 0));
    assert s2.t.deliveries[K].status.Pending? && s2.t.deadLetters == b.deadLetters;
  }
}
