/**
 * The notification outbox of packages/core/src/notification-delivery.ts: one delivery per event and
 * channel, claimed under a two-minute lease, retried with backoff and dead-lettered. Times are milliseconds.
 */
module Notifications {
  import opened Prelude

  type EventId = nat

  datatype Channel = InApp | Email | WebPush

  type Key = (EventId, Channel)

  datatype Status = Pending | Sending | Delivered | DeadLetter

  datatype Delivery = Delivery(status: Status, attempts: nat, claimedAt: Option<int>, availableAt: int)

  datatype Tables = Tables(deliveries: map<Key, Delivery>, deadLetters: map<Key, nat>, now: int)

  const LEASE: int := 120000
  const ATTEMPTS: nat := 5
  const MINUTE: int := 60000
  const LONGEST_WAIT: int := 6 * 60 * 60000

  function KeysOf(event: EventId, channels: set<Channel>): set<Key> {
    set c | c in channels :: (event, c)
  }

  function AfterEnqueue(t: Tables, event: EventId, channels: set<Channel>): Tables {
    t.(deliveries := map k | k in t.deliveries.Keys + KeysOf(event, channels) ::
         if k in t.deliveries then t.deliveries[k] else Delivery(Pending, 0, None, t.now))
  }

  lemma OneMoreChannel(t: Tables, event: EventId, channels: set<Channel>, c: Channel)
    ensures AfterEnqueue(t, event, channels + {c}).deliveries ==
              var ds := AfterEnqueue(t, event, channels).deliveries;
              if (event, c) in ds then ds else ds[(event, c) := Delivery(Pending, 0, None, t.now)]
  {
    assert KeysOf(event, channels + {c}) == KeysOf(event, channels) + {(event, c)};
  }

  /** A claim whose lease ran out. */
  predicate Abandoned(d: Delivery, now: int) {
    d.status.Sending? && d.claimedAt.Some? && d.claimedAt.value < now - LEASE
  }

  /** The first two statements of a claim: abandoned fifth attempts are dead, and every dead delivery has its letter. */
  function Buried(t: Tables): Tables {
    var deliveries := map k | k in t.deliveries ::
      if Abandoned(t.deliveries[k], t.now) && t.deliveries[k].attempts >= ATTEMPTS
      then t.deliveries[k].(status := DeadLetter, claimedAt := None) else t.deliveries[k];
    t.(deliveries := deliveries,
       deadLetters := map k | k in t.deadLetters.Keys + (set x | x in deliveries && deliveries[x].status.DeadLetter?) ::
         if k in t.deadLetters then t.deadLetters[k] else deliveries[k].attempts)
  }

  predicate Due(t: Tables, k: Key, killEmail: bool) {
    && k in t.deliveries
    && (t.deliveries[k].status.Pending? || (Abandoned(t.deliveries[k], t.now) && t.deliveries[k].attempts < ATTEMPTS))
    && t.deliveries[k].availableAt <= t.now && (killEmail ==> !k.1.Email?)
  }

  function AfterClaim(t: Tables, choice: Option<Key>): Tables {
    var b := Buried(t);
    if choice.Some? && choice.value in b.deliveries then
      var d := b.deliveries[choice.value];
      b.(deliveries := b.deliveries[choice.value := d.(status := Sending, claimedAt := Some(b.now),
                                                       attempts := d.attempts + 1)])
    else b
  }

  function AfterDelivered(t: Tables, k: Key): Tables {
    if k in t.deliveries
    then t.(deliveries := t.deliveries[k := t.deliveries[k].(status := Delivered, claimedAt := None)])
    else t
  }

  function Pow2(n: nat): (p: nat)
    ensures p >= 1
  {
    if n == 0 then 1 else 2 * Pow2(n - 1)
  }

  function Wait(attempts: nat): int {
    var wait := MINUTE * Pow2(if attempts >= 1 then attempts - 1 else 0);
    if wait < LONGEST_WAIT then wait else LONGEST_WAIT
  }

  lemma {:induction false} Pow2Grows(m: nat, n: nat)
    requires m <= n
    ensures Pow2(m) <= Pow2(n)
    decreases n
  {
    if m < n { Pow2Grows(m, n - 1); }
  }

  /** One minute after the first failure, then twice as long each time, never more than six hours. */
  lemma BackoffDoubles(attempts: nat)
    requires attempts >= 1
    ensures 60000 <= Wait(attempts) <= Wait(attempts + 1) <= LONGEST_WAIT == 21600000
    ensures Wait(1) == MINUTE && (2 * Wait(attempts) <= LONGEST_WAIT ==> Wait(attempts + 1) == 2 * Wait(attempts))
    ensures attempts <= 5 ==> Wait(attempts) == MINUTE * Pow2(attempts - 1) <= 16 * MINUTE
  {
    Pow2Grows(attempts - 1, attempts);
    assert Pow2(0) == 1 && Pow2(1) == 2 && Pow2(2) == 4 && Pow2(3) == 8 && Pow2(4) == 16;
    if attempts <= 5 { Pow2Grows(attempts - 1, 4); }
  }

  function Clamp(maxAttempts: int): nat {
    if maxAttempts < 1 then 1 else if maxAttempts > 5 then 5 else maxAttempts
  }

  function Delay(attempts: nat, baseDelay: int): int {
    if baseDelay > Wait(attempts) then baseDelay else Wait(attempts)
  }

  /** `attempts` is what the failing claimant remembers of its own claim. */
  function AfterFailed(t: Tables, k: Key, attempts: nat, maxAttempts: int, baseDelay: int): Tables {
    if k in t.deliveries then
      t.(deliveries := t.deliveries[k := t.deliveries[k].(
           status := if attempts >= Clamp(maxAttempts) then DeadLetter else Pending, claimedAt := None,
           availableAt := t.now + Delay(attempts, baseDelay))])
    else t
  }

  function AfterLetter(t: Tables, k: Key, attempts: nat): Tables {
    if k in t.deadLetters then t else t.(deadLetters := t.deadLetters[k := attempts])
  }

  /** `ORDER BY available_at, event_id`. */
  predicate Before(t: Tables, a: Key, b: Key)
    requires a in t.deliveries && b in t.deliveries
  {
    t.deliveries[a].availableAt < t.deliveries[b].availableAt
    || (t.deliveries[a].availableAt == t.deliveries[b].availableAt && a.0 <= b.0)
  }

  /** Whatever is due, the claim takes one that became available first, and of those the smallest event. */
  lemma BeforeIsOrder(t: Tables, a: Key, b: Key)
    requires a in t.deliveries && b in t.deliveries
    ensures Before(t, a, b) || Before(t, b, a)
    ensures Before(t, a, b) && Before(t, b, a) ==>
              a.0 == b.0 && t.deliveries[a].availableAt == t.deliveries[b].availableAt
    ensures Before(t, a, b) ==> t.deliveries[a].availableAt <= t.deliveries[b].availableAt
  {
  }

  class NotificationOutbox {
    var deliveries: map<Key, Delivery>
    var deadLetters: map<Key, nat>
    var now: int

    function Stored(): Tables
      reads this
    {
      Tables(deliveries, deadLetters, now)
    }

    constructor ()
      ensures Stored() == Tables(map[], map[], 0)
    {
      deliveries, deadLetters, now := map[], map[], 0;
    }

    /** One pending delivery per distinct channel. */
    method Enqueue(event: EventId, channels: seq<Channel>)
      modifies this`deliveries
      ensures Stored() == AfterEnqueue(old(Stored()), event, set c | c in channels)
    {
      ghost var done: set<Channel> := {};
      assert AfterEnqueue(Stored(), event, {}).deliveries == deliveries;
      for i := 0 to |channels|
        invariant done == set c | c in channels[..i]
        invariant deliveries == AfterEnqueue(old(Stored()), event, done).deliveries
      {
        assert channels[..i + 1] == channels[..i] + [channels[i]];
        OneMoreChannel(old(Stored()), event, done, channels[i]);
        if (event, channels[i]) !in deliveries {
          deliveries := deliveries[(event, channels[i]) := Delivery(Pending, 0, None, now)];
        }
        done := done + {channels[i]};
      }
      assert channels[..|channels|] == channels;
    }

    method Bury()
      modifies this`deliveries, this`deadLetters
      ensures Stored() == Buried(old(Stored()))
    {
      deliveries := map k | k in deliveries ::
        if Abandoned(deliveries[k], now) && deliveries[k].attempts >= ATTEMPTS
        then deliveries[k].(status := DeadLetter, claimedAt := None) else deliveries[k];
      deadLetters := map k | k in deadLetters.Keys + (set x | x in deliveries && deliveries[x].status.DeadLetter?) ::
        if k in deadLetters then deadLetters[k] else deliveries[k].attempts;
    }

    /** The claim transaction: the first due delivery, if there is one. */
    method Claim(killEmail: bool) returns (claimed: Option<Key>)
      modifies this`deliveries, this`deadLetters
      ensures Stored() == AfterClaim(old(Stored()), claimed)
      ensures match claimed
              case Some(k) => Due(Buried(old(Stored())), k, killEmail)
                              && forall x :: Due(Buried(old(Stored())), x, killEmail) ==>
                                 Before(Buried(old(Stored())), k, x)
              case None => forall x :: !Due(Buried(old(Stored())), x, killEmail)
    {
      Bury();
      var due := set k | k in deliveries && Due(Stored(), k, killEmail);
      assert forall k :: Due(Stored(), k, killEmail) <==> k in due;
      if due == {} { return None; }
      var key := First(due);
      deliveries := deliveries[key := deliveries[key].(status := Sending, claimedAt := Some(now),
                                                       attempts := deliveries[key].attempts + 1)];
      return Some(key);
    }

    method First(due: set<Key>) returns (k: Key)
      requires due != {} && due <= deliveries.Keys
      ensures k in due && forall x :: x in due ==> Before(Stored(), k, x)
    {
      var rows := deliveries;
      ghost var earliest := LeastExists(due, k => if k in rows then rows[k].availableAt else 0);
      var tied := set k | k in due && forall x :: x in due ==> deliveries[k].availableAt <= deliveries[x].availableAt;
      assert earliest in tied;
      ghost var least := LeastExists(tied, (x: Key) => x.0);
      k :| k in tied && forall x :: x in tied ==> k.0 <= x.0;
      assert forall x :: x in due && deliveries[x].availableAt == deliveries[k].availableAt ==> x in tied;
    }

    /** One call without interference; `sent` says whether the transport exists and succeeds. */
    method DeliverNext(killEmail: bool, sent: bool, maxAttempts: int, baseDelay: int) returns (claimed: Option<Key>)
      modifies this`deliveries, this`deadLetters
      ensures claimed.None? ==>
              Stored() == AfterClaim(old(Stored()), None) && forall x :: !Due(Buried(old(Stored())), x, killEmail)
      ensures claimed.Some? ==>
                && Due(Buried(old(Stored())), claimed.value, killEmail)
                && claimed.value in deliveries
                && var t, k, attempts := AfterClaim(old(Stored()), claimed), claimed.value,
                                         deliveries[claimed.value].attempts;
                   Stored() == if sent then AfterDelivered(t, k)
                               else if attempts >= Clamp(maxAttempts)
                                 then AfterLetter(AfterFailed(t, k, attempts, maxAttempts, baseDelay), k, attempts)
                               else AfterFailed(t, k, attempts, maxAttempts, baseDelay)
    {
      claimed := Claim(killEmail);
      if claimed.None? { return; }
      var key := claimed.value;
      var attempts := deliveries[key].attempts;
      if sent {
        deliveries := deliveries[key := deliveries[key].(status := Delivered, claimedAt := None)];
      } else {
        var wait := Wait(attempts);
        var exhausted := attempts >= Clamp(maxAttempts);
        deliveries := deliveries[key := deliveries[key].(
          status := if exhausted then DeadLetter else Pending, claimedAt := None,
          availableAt := now + if baseDelay > wait then baseDelay else wait)];
        if exhausted && key !in deadLetters {
          deadLetters := deadLetters[key := attempts];
        }
      }
    }
  }
}
