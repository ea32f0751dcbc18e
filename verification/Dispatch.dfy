/**
 * One delivery from start to end: `consumeMessage` (packages/core/src/dispatch.ts) and
 * `executeBullCommand` (packages/core/src/bull-queue.ts) without other processes in between, the
 * publisher loop, and the retry budget that the two programs share.
 */
module Dispatch {
  import opened Prelude
  import opened Leases
  import opened Sightings
  import opened SearchPipeline
  import opened PipelineSafety

  /**
   * What happens while the handler runs, in any order and as often as it likes: it starts or settles its
   * command, time passes, and the heartbeat renews the lease.
   */
  datatype Call =
    | Starts
    | Completes(postings: seq<Posting>)
    | Collects(postings: seq<Posting>, outcomes: seq<SourceOutcome>)
    | Waits(elapsed: nat)
    | Renews

  /** `committed` is what the handler reports at the end, true or not; a handler that throws reports nothing. */
  datatype Handler = Handler(calls: seq<Call>, committed: bool)

  /**
   * Receive count, shutdown before the claim, shutdown during the handler, a failed heartbeat, and which of the
   * later calls fail: the status query behind the handler, the one in the catch path, the acknowledgement.
   */
  datatype Delivery = Delivery(count: nat, stopped: bool, aborted: bool, heartbeatFailed: bool,
                               statusFails: bool, recheckFails: bool, ackFails: bool)

  datatype Reply = Mismatch | Interrupted | Duplicate | AlreadyFailed | Busy | BudgetSpent | Done | GaveUp | Retry

  class Queue {
    var sent: seq<Command>
    var acked: seq<CommandId>

    constructor ()
      ensures sent == [] && acked == []
    {
      sent, acked := [], [];
    }
  }

  function OpOf(call: Call, c: Command, fence: nat): Op {
    match call
    case Starts => StartOp(c, fence)
    case Completes(ps) => CompleteOp(c, fence, ps)
    case Collects(ps, outcomes) => CollectOp(c, fence, ps, outcomes)
    case Waits(elapsed) => TickOp(elapsed)
    case Renews => RenewOp(c.id, fence, LEASE)
  }

  /** The tables after these calls under the command's fence. */
  ghost function Handled(s: State, c: Command, fence: nat, calls: seq<Call>): State
    decreases |calls|
  {
    if calls == [] then s else Apply(Handled(s, c, fence, calls[..|calls| - 1]), OpOf(calls[|calls| - 1], c, fence))
  }

  function Released(s: State, id: CommandId, fence: nat): State {
    s.(executions := Release(s.executions, id, fence, s.now))
  }

  function Claimed(s: State, id: CommandId): (State, Option<nat>) {
    var (e, fence) := Claim(s.executions, id, id in s.outbox, s.now, LEASE);
    (s.(executions := e), fence)
  }

  method RunHandler(db: Database, command: Command, fence: nat, handler: Handler) returns (committed: bool)
    modifies db
    ensures db.Tables() == Handled(old(db.Tables()), command, fence, handler.calls) && committed == handler.committed
  {
    var calls := handler.calls;
    for i := 0 to |calls|
      invariant db.Tables() == Handled(old(db.Tables()), command, fence, calls[..i])
    {
      assert calls[..i + 1][..i] == calls[..i];
      RunCall(db, command, fence, calls[i]);
    }
    assert calls[..|calls|] == calls;
    committed := handler.committed;
  }

  method RunCall(db: Database, command: Command, fence: nat, call: Call)
    modifies db
    ensures db.Tables() == Apply(old(db.Tables()), OpOf(call, command, fence))
  {
    hide AfterSettle, AfterStartSearch;
    match call {
      case Starts =>
        var started := db.StartSearch(command, fence);
      case Completes(postings) =>
        var reply := db.Complete(command, fence, postings);
      case Collects(postings, outcomes) =>
        var reply := db.CompleteCollection(command, fence, postings, outcomes);
      case Waits(elapsed) =>
        db.now := db.now + elapsed;
      case Renews =>
        var held := db.Renew(command.id, fence, LEASE);
    }
  }

  /** The reply when the claim is refused. */
  function Turned(e: Executions, id: CommandId): Reply {
    if IsCompleted(e, id) then Duplicate else if IsFailed(e, id) then AlreadyFailed else Busy
  }

  /** The tables after one Redis delivery, and its outcome. */
  ghost function Consumed(s: State, message: Command, h: Handler, d: Delivery): (State, Reply) {
    if !Matches(s, message) then (s, Mismatch)
    else if d.stopped then (s, Interrupted)
    else
      var (claimed, fence) := Claimed(s, message.id);
      if fence.None? then
        (claimed, if Turned(s.executions, message.id).Duplicate? && d.ackFails then Retry
         else Turned(s.executions, message.id))
      else if fence.value > MAX_ATTEMPTS then (AfterFail(claimed, message, fence.value).0, BudgetSpent)
      else
        var worked := Handled(claimed, message, fence.value, h.calls);
        var done := h.committed && !d.statusFails && IsCompleted(worked.executions, message.id) && !d.ackFails;
        var giveUp := (fence.value >= MAX_ATTEMPTS || d.count >= 5) && !d.aborted && !d.heartbeatFailed;
        var caught := if done then worked
                      else if giveUp then AfterFail(worked, message, fence.value).0
                      else Released(worked, message.id, fence.value);
        (if d.heartbeatFailed then Released(caught, message.id, fence.value) else caught,
         if done then Done else if giveUp then GaveUp else Retry)
  }

  method ConsumeMessage(db: Database, queue: Queue, message: Command, handler: Handler, delivery: Delivery)
    returns (reply: Reply)
    modifies db, queue`acked
    ensures (db.Tables(), reply) == Consumed(old(db.Tables()), message, handler, delivery)
    ensures queue.acked == old(queue.acked) + (if reply.Done? || reply.Duplicate? then [message.id] else [])
  {
    hide Handled, AfterFail;
    if !Matches(db.Tables(), message) { return Mismatch; }
    if delivery.stopped { return Interrupted; }
    var fence := db.Claim(message.id, LEASE);
    if fence.None? {
      if IsCompleted(db.executions, message.id) {
        if delivery.ackFails { return Retry; }
        queue.acked := queue.acked + [message.id];
        return Duplicate;
      }
      return if IsFailed(db.executions, message.id) then AlreadyFailed else Busy;
    }
    if fence.value > MAX_ATTEMPTS {
      var failed := db.Fail(message, fence.value);
      return BudgetSpent;
    }
    var committed := RunHandler(db, message, fence.value, handler);
    if committed && !delivery.statusFails && IsCompleted(db.executions, message.id) && !delivery.ackFails {
      queue.acked := queue.acked + [message.id];
      reply := Done;
    } else if (fence.value >= MAX_ATTEMPTS || delivery.count >= 5) && !delivery.aborted && !delivery.heartbeatFailed {
      var failed := db.Fail(message, fence.value);
      reply := GaveUp;
    } else {
      db.Release(message.id, fence.value);
      reply := Retry;
    }
    if delivery.heartbeatFailed {
      db.Release(message.id, fence.value);
    }
  }

  /** The tables after one BullMQ delivery, and its outcome. */
  ghost function Executed(s: State, message: Command, h: Handler, d: Delivery): (State, Reply) {
    if !Matches(s, message) then (s, Mismatch)
    else if d.stopped then (s, Interrupted)
    else
      var (claimed, fence) := Claimed(s, message.id);
      if fence.None? then (claimed, Turned(s.executions, message.id))
      else if fence.value > MAX_ATTEMPTS then
        (AfterFail(claimed, message, fence.value).0, if AfterFail(claimed, message, fence.value).1.SettleCommitted?
         then BudgetSpent else Retry)
      else
        var worked := Handled(claimed, message, fence.value, h.calls);
        var completed := IsCompleted(worked.executions, message.id);
        var done := h.committed && !d.statusFails && completed;
        var tried := !d.recheckFails && !completed && fence.value >= MAX_ATTEMPTS && !d.aborted && !d.heartbeatFailed;
        var caught := if !done && tried then AfterFail(worked, message, fence.value) else (worked, SettleLost);
        (Released(caught.0, message.id, fence.value),
         if done then Done
         else if completed && !d.recheckFails then Duplicate
         else if caught.1.SettleCommitted? then GaveUp else Retry)
  }

  method ExecuteBullCommand(db: Database, message: Command, handler: Handler, delivery: Delivery) returns (reply: Reply)
    modifies db
    ensures (db.Tables(), reply) == Executed(old(db.Tables()), message, handler, delivery)
  {
    hide Handled, AfterFail;
    if !Matches(db.Tables(), message) { return Mismatch; }
    if delivery.stopped { return Interrupted; }
    var fence := db.Claim(message.id, LEASE);
    if fence.None? {
      return if IsCompleted(db.executions, message.id) then Duplicate
             else if IsFailed(db.executions, message.id) then AlreadyFailed else Busy;
    }
    if fence.value > MAX_ATTEMPTS {
      var failed := db.Fail(message, fence.value);
      return if failed.SettleCommitted? then BudgetSpent else Retry;
    }
    var committed := RunHandler(db, message, fence.value, handler);
    if committed && !delivery.statusFails && IsCompleted(db.executions, message.id) {
      reply := Done;
    } else {
      reply := Retry;
      if !delivery.recheckFails {
        if IsCompleted(db.executions, message.id) {
          reply := Duplicate;
        } else if fence.value >= MAX_ATTEMPTS && !delivery.aborted && !delivery.heartbeatFailed {
          var failed := db.Fail(message, fence.value);
          if failed.SettleCommitted? { reply := GaveUp; }
        }
      }
    }
    db.Release(message.id, fence.value);
  }

  /** A dead letter is failed under a fresh fence, unless somebody holds the lease. */
  method ReconcileDeadLetter(db: Database, message: Command) returns (failed: bool)
    modifies db
    ensures failed <==>
              && Matches(old(db.Tables()), message) && Claimed(old(db.Tables()), message.id).1.Some?
              && AfterFail(Claimed(old(db.Tables()), message.id).0, message,
                           Claimed(old(db.Tables()), message.id).1.value).1.SettleCommitted?
    ensures db.Tables() == if !Matches(old(db.Tables()), message) || Claimed(old(db.Tables()), message.id).1.None?
                           then old(db.Tables())
                           else AfterFail(Claimed(old(db.Tables()), message.id).0, message,
                                          Claimed(old(db.Tables()), message.id).1.value).0
  {
    if !Matches(db.Tables(), message) { return false; }
    var fence := db.Claim(message.id, LEASE);
    if fence.None? { return false; }
    var reply := db.Fail(message, fence.value);
    return reply.SettleCommitted?;
  }

  function CommandsOf(outbox: map<CommandId, OutboxRow>, ids: seq<CommandId>): seq<Command>
    requires forall id :: id in ids ==> id in outbox
  {
    if ids == [] then [] else CommandsOf(outbox, ids[..|ids| - 1]) + [outbox[ids[|ids| - 1]].command]
  }

  function MarkedSent(outbox: map<CommandId, OutboxRow>, ids: seq<CommandId>, now: int): map<CommandId, OutboxRow> {
    map id | id in outbox :: if id in ids then outbox[id].(publishedAt := Some(now)) else outbox[id]
  }

  /** Sends the oldest due commands, marking each published after its send; none of them is due again right away. */
  method PublishPending(db: Database, queue: Queue, routed: set<Kind>)
    returns (published: nat, ghost due: seq<CommandId>)
    modifies db`outbox, queue`sent
    ensures OldestDue(old(db.Tables()), routed, due) && published == |due|
    ensures forall id :: id in due ==> id in old(db.outbox)
    ensures queue.sent == old(queue.sent) + CommandsOf(old(db.outbox), due)
    ensures db.outbox == MarkedSent(old(db.outbox), due, db.now)
    ensures forall id :: id in due ==> !Due(db.Tables(), id)
  {
    var records := db.Unpublished(routed);
    hide OldestDue, Due, CommandsOf, MarkedSent;
    due, published := records, 0;
    NothingSent(db.outbox, db.now);
    for i := 0 to |records|
      invariant published == i && due == records
      invariant queue.sent == old(queue.sent) + CommandsOf(old(db.outbox), records[..i])
      invariant db.outbox == MarkedSent(old(db.outbox), records[..i], db.now)
    {
      OneMoreSent(old(db.outbox), records, i, db.now);
      queue.sent := queue.sent + [db.outbox[records[i]].command];
      db.Published(records[i]);
      published := published + 1;
    }
    assert records[..|records|] == records;
    forall id | id in records ensures !Due(db.Tables(), id) {
      JustSent(old(db.outbox), records, db.Tables(), id);
    }
  }

  lemma NothingSent(outbox: map<CommandId, OutboxRow>, now: int)
    ensures MarkedSent(outbox, [], now) == outbox && CommandsOf(outbox, []) == []
  {
  }

  lemma OneMoreSent(outbox: map<CommandId, OutboxRow>, ids: seq<CommandId>, i: nat, now: int)
    requires i < |ids| && forall id :: id in ids ==> id in outbox
    ensures CommandsOf(outbox, ids[..i + 1]) == CommandsOf(outbox, ids[..i]) + [outbox[ids[i]].command]
    ensures var marked := MarkedSent(outbox, ids[..i], now);
            && ids[i] in marked && marked[ids[i]].command == outbox[ids[i]].command
            && MarkedSent(outbox, ids[..i + 1], now) == marked[ids[i] := marked[ids[i]].(publishedAt := Some(now))]
  {
    assert ids[..i + 1][..i] == ids[..i];
    assert forall id :: id in ids[..i + 1] <==> id in ids[..i] || id == ids[i];
  }

  lemma JustSent(outbox: map<CommandId, OutboxRow>, ids: seq<CommandId>, s: State, id: CommandId)
    requires s.outbox == MarkedSent(outbox, ids, s.now) && id in ids && id in outbox
    ensures !Due(s, id)
  {
  }

  // ---------------------------------------------------------------------------------------------
  // The retry budget.

  /** Undisturbed deliveries still needed in the worst case. */
  function AttemptsLeft(e: Executions, id: CommandId): nat {
    if id !in e then MAX_ATTEMPTS
    else if Terminal(e, id) then 0
    else if e[id].fence < MAX_ATTEMPTS then MAX_ATTEMPTS - e[id].fence
    else 1
  }

  /** No shutdown, no failed heartbeat, and the catch path can ask for the status. */
  predicate Undisturbed(d: Delivery) {
    !d.stopped && !d.aborted && !d.heartbeatFailed && !d.recheckFails
  }

  /**
   * Whether the heartbeat keeps a lease that still runs for `left` alive through these calls, and how much is
   * left then.
   */
  function LeaseLeft(calls: seq<Call>, left: int): int
    decreases |calls|
  {
    if calls == [] then left
    else
      var before := LeaseLeft(calls[..|calls| - 1], left);
      if before <= 0 then before
      else match calls[|calls| - 1]
        case Waits(elapsed) => before - elapsed
        case Renews => LEASE
        case _ => before
  }

  /** The heartbeat renews in time. */
  predicate Steady(h: Handler) {
    LeaseLeft(h.calls, LEASE) > 0
  }

  predicate Claimable(s: State, id: CommandId) {
    id in s.executions && s.executions[id].status.ExecRunning? ==> s.executions[id].leaseUntil < s.now
  }

  /** One delivery over either transport. */
  datatype Attempt = Attempt(bull: bool, handler: Handler, delivery: Delivery, pause: nat)

  predicate Fair(a: Attempt) {
    Undisturbed(a.delivery) && Steady(a.handler)
  }

  ghost function Deliver(s: State, id: CommandId, a: Attempt): State {
    if id !in s.outbox then s
    else if a.bull then Executed(s, s.outbox[id].command, a.handler, a.delivery).0
    else Consumed(s, s.outbox[id].command, a.handler, a.delivery).0
  }

  /** `w` is where an attempt that claimed `fence` in `s` stands: finished, or still holding its lease for `left`. */
  ghost predicate InAttempt(s: State, w: State, id: CommandId, fence: nat, left: int) {
    && Inv(w) && w.outbox == s.outbox && IsSearch(w.outbox, id) && AttemptsLeft(s.executions, id) > 0
    && (Terminal(w.executions, id)
        || (&& Owns(w.executions, id, fence, w.now) && left > 0 && w.executions[id].leaseUntil == w.now + left
            && (fence < MAX_ATTEMPTS ==> AttemptsLeft(s.executions, id) > MAX_ATTEMPTS - fence)))
  }

  /** The attempt is over: one fewer is left, and a running command can be claimed once the clock moves. */
  ghost predicate Spent(s: State, s': State, id: CommandId) {
    && Inv(s') && s'.outbox == s.outbox
    && AttemptsLeft(s'.executions, id) < AttemptsLeft(s.executions, id)
    && (id in s'.executions && s'.executions[id].status.ExecRunning? ==> s'.executions[id].leaseUntil == s'.now)
  }

  lemma ClaimSpends(s: State, id: CommandId)
    requires Inv(s) && IsSearch(s.outbox, id) && Claimable(s, id) && AttemptsLeft(s.executions, id) > 0
    ensures Claimed(s, id).1.Some? && InAttempt(s, Claimed(s, id).0, id, Claimed(s, id).1.value, LEASE)
            && !Terminal(Claimed(s, id).0.executions, id)
  {
    assert Inv(Claimed(s, id).0) by {
      hide Inv;
      LeaseOpKeeps(s, ClaimOp(id, LEASE));
    }
    hide Inv;
  }

  /** What a call does to the executions: start and time nothing, renew extends, settle completes or nothing. */
  lemma CallMoves(s: State, c: Command, fence: nat, call: Call)
    requires Owns(s.executions, c.id, fence, s.now)
    ensures var s' := Apply(s, OpOf(call, c, fence));
            && s'.outbox == s.outbox && s'.now == s.now + (if call.Waits? then call.elapsed else 0)
            && (IsCompleted(s'.executions, c.id)
                || s'.executions == (if call.Renews? then Renew(s.executions, c.id, fence, s.now, LEASE)
                                     else s.executions))
  {
    hide RecordAll, StoreJobs, JobsMatchOutcomes, CollectionStatus;
  }

  /** Once finished, the command is left alone by every further call. */
  lemma CallAfterFinish(s: State, c: Command, fence: nat, call: Call)
    requires Terminal(s.executions, c.id)
    ensures var s' := Apply(s, OpOf(call, c, fence)); s'.outbox == s.outbox && s'.executions == s.executions
  {
    StaleHolderChangesNothing(s, c, fence, LEASE, if call.Completes? || call.Collects? then call.postings else [],
                              if call.Collects? then call.outcomes else []);
    hide AfterSettle, AfterStartSearch, AfterCompleteCollection, Renew;
  }

  lemma CallKeepsAttempt(s: State, w: State, id: CommandId, fence: nat, call: Call, left: int)
    requires InAttempt(s, w, id, fence, left) && w.outbox[id].command.id == id && left > 0
    requires IsCompleted(w.executions, id) || !Terminal(w.executions, id)
    requires call.Waits? ==> call.elapsed < left
    ensures var w' := Apply(w, OpOf(call, w.outbox[id].command, fence));
            var left' := if call.Waits? then left - call.elapsed else if call.Renews? then LEASE else left;
            InAttempt(s, w', id, fence, left') && (IsCompleted(w'.executions, id) || !Terminal(w'.executions, id))
                && left' > 0
  {
    var c := w.outbox[id].command;
    ApplyKeeps(w, OpOf(call, c, fence));
    if Terminal(w.executions, id) { CallAfterFinish(w, c, fence, call); } else { CallMoves(w, c, fence, call); }
    hide Inv, Apply;
  }

  /** Whatever the handler does, it ends with the command completed or with its lease alive. */
  lemma {:induction false} HandlerKeepsAttempt(s: State, w: State, id: CommandId, fence: nat, calls: seq<Call>)
    requires InAttempt(s, w, id, fence, LEASE) && !Terminal(w.executions, id) && LeaseLeft(calls, LEASE) > 0
    ensures var w' := Handled(w, w.outbox[id].command, fence, calls);
            InAttempt(s, w', id, fence, LeaseLeft(calls, LEASE))
                && (IsCompleted(w'.executions, id) || !Terminal(w'.executions, id))
    decreases |calls|
  {
    assert w.outbox[id].command.id == id by { LiveCommand(w, id); }
    if calls != [] {
      var front, last := calls[..|calls| - 1], calls[|calls| - 1];
      hide Inv, Apply;
      HandlerKeepsAttempt(s, w, id, fence, front);
      CallKeepsAttempt(s, Handled(w, w.outbox[id].command, fence, front), id, fence, last, LeaseLeft(front, LEASE));
    }
  }

  /** Giving up under a live lease always finishes the command. */
  lemma GiveUpSpends(s: State, w: State, id: CommandId, fence: nat, left: int)
    requires InAttempt(s, w, id, fence, left) && !Terminal(w.executions, id)
    ensures AfterFail(w, w.outbox[id].command, fence).1.SettleCommitted?
    ensures Terminal(AfterFail(w, w.outbox[id].command, fence).0.executions, id)
    ensures InAttempt(s, AfterFail(w, w.outbox[id].command, fence).0, id, fence, left)
  {
    LiveHolderCanFail(w, id, fence);
    hide Inv;
    SettleKeeps(w, w.outbox[id].command, fence, [], Failed, None);
  }

  lemma ReleaseSpends(s: State, w: State, id: CommandId, fence: nat, left: int)
    requires InAttempt(s, w, id, fence, left) && (!Terminal(w.executions, id) ==> fence < MAX_ATTEMPTS)
    ensures Spent(s, Released(w, id, fence), id)
    ensures Terminal(w.executions, id) ==> Spent(s, w, id) && Released(w, id, fence) == w
  {
    hide Inv;
    LeaseOpKeeps(w, ReleaseOp(id, fence));
  }

  /** Where an undisturbed attempt ends that gives up from fence `limit` on, from the end of the handler. */
  ghost function Caught(w: State, c: Command, fence: nat, limit: nat): State {
    if !IsCompleted(w.executions, c.id) && fence >= limit then Released(AfterFail(w, c, fence).0, c.id, fence)
    else Released(w, c.id, fence)
  }

  lemma CaughtSpends(s: State, w: State, id: CommandId, fence: nat, limit: nat, left: int)
    requires InAttempt(s, w, id, fence, left) && w.outbox[id].command.id == id && limit <= MAX_ATTEMPTS
    requires IsCompleted(w.executions, id) || !Terminal(w.executions, id)
    ensures Spent(s, Caught(w, w.outbox[id].command, fence, limit), id)
  {
    var c := w.outbox[id].command;
    hide Inv, InAttempt, Spent, AfterFail, Released, AttemptsLeft;
    if !IsCompleted(w.executions, id) && fence >= limit {
      GiveUpSpends(s, w, id, fence, left);
      ReleaseSpends(s, AfterFail(w, c, fence).0, id, fence, left);
    } else {
      ReleaseSpends(s, w, id, fence, left);
    }
  }

  /** A claim beyond the budget ends the command. */
  lemma OverBudgetSpends(s: State, id: CommandId)
    requires Inv(s) && IsSearch(s.outbox, id) && Claimable(s, id) && AttemptsLeft(s.executions, id) > 0
    requires Claimed(s, id).1.Some?
    ensures Spent(s, AfterFail(Claimed(s, id).0, s.outbox[id].command, Claimed(s, id).1.value).0, id)
  {
    ClaimSpends(s, id);
    var (claimed, fence) := Claimed(s, id);
    hide Inv, InAttempt, Spent, AfterFail, Released, AttemptsLeft, Claimed;
    GiveUpSpends(s, claimed, id, fence.value, LEASE);
    ReleaseSpends(s, AfterFail(claimed, s.outbox[id].command, fence.value).0, id, fence.value, LEASE);
  }

  /** An undisturbed Redis attempt ends like `Caught`. */
  lemma ConsumedUndisturbed(s: State, c: Command, h: Handler, d: Delivery)
    requires Matches(s, c) && Undisturbed(d) && Claimed(s, c.id).1.Some? && Claimed(s, c.id).1.value <= MAX_ATTEMPTS
    requires var w := Handled(Claimed(s, c.id).0, c, Claimed(s, c.id).1.value, h.calls);
             IsCompleted(w.executions, c.id) || AfterFail(w, c, Claimed(s, c.id).1.value).1.SettleCommitted?
    ensures var (claimed, fence) := Claimed(s, c.id);
            Consumed(s, c, h, d).0 == Caught(Handled(claimed, c, fence.value, h.calls), c, fence.value,
                                             if d.count >= 5 then 0 else MAX_ATTEMPTS)
  {
    var (claimed, fence) := Claimed(s, c.id);
    var w := Handled(claimed, c, fence.value, h.calls);
    CaughtIs(w, c, fence.value);
    hide Handled, AfterFail, Claimed, Released;
  }

  lemma ExecutedUndisturbed(s: State, c: Command, h: Handler, d: Delivery)
    requires Matches(s, c) && Undisturbed(d) && Claimed(s, c.id).1.Some? && Claimed(s, c.id).1.value <= MAX_ATTEMPTS
    ensures var (claimed, fence) := Claimed(s, c.id);
            Executed(s, c, h, d).0 == Caught(Handled(claimed, c, fence.value, h.calls), c, fence.value, MAX_ATTEMPTS)
  {
    hide Handled, AfterFail, Claimed, Released;
  }

  /** A finished command is neither failed nor released, and failing it leaves nothing to release. */
  lemma CaughtIs(w: State, c: Command, fence: nat)
    ensures Terminal(w.executions, c.id) ==> Released(w, c.id, fence) == w && AfterFail(w, c, fence).0 == w
    ensures AfterFail(w, c, fence).1.SettleCommitted? ==>
            Released(AfterFail(w, c, fence).0, c.id, fence) == AfterFail(w, c, fence).0
    ensures !AfterFail(w, c, fence).1.SettleCommitted? ==> AfterFail(w, c, fence).0 == w
  {
  }

  /**
   * A result that the handler committed stands, whatever fails behind it: the catch path neither fails nor releases
   * the command. BullMQ reports it as done or duplicate, unless its own status query fails too.
   */
  lemma CommittedStands(s: State, c: Command, h: Handler, d: Delivery)
    requires Matches(s, c) && !d.stopped && Claimed(s, c.id).1.Some? && Claimed(s, c.id).1.value <= MAX_ATTEMPTS
    requires IsCompleted(Handled(Claimed(s, c.id).0, c, Claimed(s, c.id).1.value, h.calls).executions, c.id)
    ensures var w := Handled(Claimed(s, c.id).0, c, Claimed(s, c.id).1.value, h.calls);
            && Consumed(s, c, h, d).0 == w && Executed(s, c, h, d).0 == w
            && (Consumed(s, c, h, d).1.Done? <==> h.committed && !d.statusFails && !d.ackFails)
            && (Executed(s, c, h, d).1.Done? <==> h.committed && !d.statusFails)
            && (Executed(s, c, h, d).1.Duplicate? <==> !(h.committed && !d.statusFails) && !d.recheckFails)
  {
    var (claimed, fence) := Claimed(s, c.id);
    CaughtIs(Handled(claimed, c, fence.value, h.calls), c, fence.value);
    hide Handled, AfterFail, Claimed, Released;
  }

  /** The attempt is given up: the command and its search have failed, and the log says so last. */
  ghost predicate GivenUp(w: State, s': State, c: Command) {
    && IsFailed(s'.executions, c.id) && c.aggregateId in s'.runs && s'.runs[c.aggregateId].status == Failed
    && s'.events == w.events + [RunEvent(c.aggregateId, c.ownerId, SearchFailed)]
  }

  /** The attempt is handed back: nothing but the lease has changed, and it ends now. */
  ghost predicate HandedBack(w: State, s': State, c: Command, fence: nat) {
    && s'.runs == w.runs && s'.events == w.events && s'.jobs == w.jobs && s'.executions.Keys == w.executions.Keys
    && c.id in s'.executions && s'.executions[c.id].status == ExecRunning && s'.executions[c.id].fence == fence
    && s'.executions[c.id].leaseUntil == s'.now == w.now
    && forall id :: id in w.executions && id != c.id ==> s'.executions[id] == w.executions[id]
  }

  /**
   * What becomes of a delivery whose handler leaves the command unfinished under its live lease: it is given up if it
   * was the last attempt and nothing interrupted it, and handed back for another one otherwise.
   */
  lemma UnfinishedVerdict(s: State, c: Command, h: Handler, d: Delivery)
    requires Inv(s) && Matches(s, c) && !d.stopped
    requires Claimed(s, c.id).1.Some? && Claimed(s, c.id).1.value <= MAX_ATTEMPTS
    requires var w := Handled(Claimed(s, c.id).0, c, Claimed(s, c.id).1.value, h.calls);
             Owns(w.executions, c.id, Claimed(s, c.id).1.value, w.now)
    ensures var (claimed, fence) := Claimed(s, c.id);
            var w := Handled(claimed, c, fence.value, h.calls);
            var interrupted := d.aborted || d.heartbeatFailed;
            && (if (fence.value == 5 || d.count >= 5) && !interrupted
                then Consumed(s, c, h, d).1 == GaveUp && GivenUp(w, Consumed(s, c, h, d).0, c)
                else Consumed(s, c, h, d).1 == Retry && HandedBack(w, Consumed(s, c, h, d).0, c, fence.value))
            && (if fence.value == 5 && !interrupted && !d.recheckFails
                then Executed(s, c, h, d).1 == GaveUp && GivenUp(w, Executed(s, c, h, d).0, c)
                else Executed(s, c, h, d).1 == Retry && HandedBack(w, Executed(s, c, h, d).0, c, fence.value))
  {
    hide Handled, AfterFail, Claimed, Inv, Released, GivenUp, HandedBack, Owns;
    var (claimed, fence) := Claimed(s, c.id);
    var w := Handled(claimed, c, fence.value, h.calls);
    assert Inv(w) && Matches(w, c) by {
      ClaimLeavesSound(s, c);
      HandledKeeps(claimed, c, fence.value, h.calls);
    }
    FailUnderLease(w, c, fence.value);
    ReleaseUnderLease(w, c, fence.value);
  }

  lemma ClaimLeavesSound(s: State, c: Command)
    requires Inv(s) && Matches(s, c)
    ensures Inv(Claimed(s, c.id).0) && Matches(Claimed(s, c.id).0, c)
  {
    LeaseOpKeeps(s, ClaimOp(c.id, LEASE));
    hide Inv;
  }

  lemma CallKeeps(w: State, c: Command, fence: nat, call: Call)
    requires Inv(w) && Matches(w, c)
    ensures Inv(Apply(w, OpOf(call, c, fence))) && Matches(Apply(w, OpOf(call, c, fence)), c)
  {
    hide Inv, Apply, RunsAdvance, Advances;
    ApplyKeeps(w, OpOf(call, c, fence));
  }

  lemma {:induction false} HandledKeeps(w: State, c: Command, fence: nat, calls: seq<Call>)
    requires Inv(w) && Matches(w, c)
    ensures Inv(Handled(w, c, fence, calls)) && Matches(Handled(w, c, fence, calls), c)
    decreases |calls|
  {
    if calls != [] {
      var front, last := calls[..|calls| - 1], calls[|calls| - 1];
      hide Inv, Apply;
      HandledKeeps(w, c, fence, front);
      CallKeeps(Handled(w, c, fence, front), c, fence, last);
    }
  }

  lemma FailUnderLease(w: State, c: Command, fence: nat)
    requires Inv(w) && Matches(w, c) && Owns(w.executions, c.id, fence, w.now)
    ensures AfterFail(w, c, fence).1.SettleCommitted? && GivenUp(w, AfterFail(w, c, fence).0, c)
    ensures Released(AfterFail(w, c, fence).0, c.id, fence) == AfterFail(w, c, fence).0
  {
    LiveHolderCanFail(w, c.id, fence);
    CaughtIs(w, c, fence);
    hide Inv, RecordAll, StoreJobs;
  }

  lemma ReleaseUnderLease(w: State, c: Command, fence: nat)
    requires Matches(w, c) && Owns(w.executions, c.id, fence, w.now)
    ensures HandedBack(w, Released(w, c.id, fence), c, fence)
    ensures Released(Released(w, c.id, fence), c.id, fence) == Released(w, c.id, fence)
    ensures !IsCompleted(w.executions, c.id)
  {
    var e := Release(w.executions, c.id, fence, w.now);
    assert Release(e, c.id, fence, w.now) == e;
  }

  /** What becomes of a delivery that does not get as far as the handler. */
  lemma TurnedAway(s: State, c: Command, h: Handler, d: Delivery)
    requires !Matches(s, c) || d.stopped || Claimed(s, c.id).1.None?
    ensures Consumed(s, c, h, d).0 == Executed(s, c, h, d).0 == s
    ensures !Matches(s, c) ==> Consumed(s, c, h, d).1 == Executed(s, c, h, d).1 == Mismatch
    ensures Matches(s, c) && d.stopped ==> Consumed(s, c, h, d).1 == Executed(s, c, h, d).1 == Interrupted
    ensures Matches(s, c) && !d.stopped ==>
              && c.id in s.executions
              && match s.executions[c.id].status
                 case ExecCompleted =>
                   Executed(s, c, h, d).1 == Duplicate
                   && Consumed(s, c, h, d).1 == if d.ackFails then Retry else Duplicate
                 case ExecFailed => Consumed(s, c, h, d).1 == Executed(s, c, h, d).1 == AlreadyFailed
                 case ExecRunning =>
                   s.executions[c.id].leaseUntil >= s.now && Consumed(s, c, h, d).1 == Executed(s, c, h, d).1 == Busy
  {
    assert s.(executions := s.executions) == s;
    hide Handled, AfterFail;
  }

  /** A delivery beyond the budget fails the command without running the handler. */
  lemma BudgetIsSpent(s: State, c: Command, h: Handler, d: Delivery)
    requires Inv(s) && Matches(s, c) && !d.stopped && Claimed(s, c.id).1.Some?
             && Claimed(s, c.id).1.value > MAX_ATTEMPTS
    ensures Consumed(s, c, h, d) == Executed(s, c, h, d) && Consumed(s, c, h, d).1 == BudgetSpent
    ensures GivenUp(s, Consumed(s, c, h, d).0, c)
  {
    var (claimed, fence) := Claimed(s, c.id);
    ClaimLeavesSound(s, c);
    FailUnderLease(claimed, c, fence.value);
    hide Handled, AfterFail, Inv;
  }

  lemma WorkedSpends(s: State, id: CommandId, calls: seq<Call>, limit: nat)
    requires Inv(s) && IsSearch(s.outbox, id) && Claimable(s, id) && AttemptsLeft(s.executions, id) > 0
    requires LeaseLeft(calls, LEASE) > 0 && limit <= MAX_ATTEMPTS && Claimed(s, id).1.Some?
    ensures var (claimed, fence) := Claimed(s, id); var w := Handled(claimed, s.outbox[id].command, fence.value, calls);
            && Spent(s, Caught(w, s.outbox[id].command, fence.value, limit), id)
            && (IsCompleted(w.executions, id) || AfterFail(w, s.outbox[id].command, fence.value).1.SettleCommitted?)
  {
    ClaimSpends(s, id);
    var (claimed, fence) := Claimed(s, id);
    assert s.outbox[id].command.id == id by { LiveCommand(s, id); }
    HandlerKeepsAttempt(s, claimed, id, fence.value, calls);
    hide Inv, Handled, Spent, AfterFail, Claimed, Caught, AttemptsLeft, LeaseLeft;
    var w := Handled(claimed, s.outbox[id].command, fence.value, calls);
    if !Terminal(w.executions, id) { GiveUpSpends(s, w, id, fence.value, LeaseLeft(calls, LEASE)); }
    CaughtSpends(s, w, id, fence.value, limit, LeaseLeft(calls, LEASE));
  }

  lemma BullAttempt(s: State, id: CommandId, h: Handler, d: Delivery)
    requires Inv(s) && IsSearch(s.outbox, id) && Claimable(s, id) && Undisturbed(d) && Steady(h)
             && AttemptsLeft(s.executions, id) > 0
    ensures Spent(s, Executed(s, s.outbox[id].command, h, d).0, id)
  {
    ClaimSpends(s, id);
    assert s.outbox[id].command.id == id by { LiveCommand(s, id); }
    if Claimed(s, id).1.value > MAX_ATTEMPTS {
      OverBudgetSpends(s, id);
      hide Inv, Spent, AfterFail, Handled, Claimed;
    } else {
      ExecutedUndisturbed(s, s.outbox[id].command, h, d);
      hide Inv, Spent, Executed, Caught, Handled;
      WorkedSpends(s, id, h.calls, MAX_ATTEMPTS);
    }
  }

  lemma RedisAttempt(s: State, id: CommandId, h: Handler, d: Delivery)
    requires Inv(s) && IsSearch(s.outbox, id) && Claimable(s, id) && Undisturbed(d) && Steady(h)
             && AttemptsLeft(s.executions, id) > 0
    ensures Spent(s, Consumed(s, s.outbox[id].command, h, d).0, id)
  {
    ClaimSpends(s, id);
    assert s.outbox[id].command.id == id by { LiveCommand(s, id); }
    if Claimed(s, id).1.value > MAX_ATTEMPTS {
      OverBudgetSpends(s, id);
      hide Inv, Spent, AfterFail, Handled, Claimed;
    } else {
      WorkedSpends(s, id, h.calls, if d.count >= 5 then 0 else MAX_ATTEMPTS);
      ConsumedUndisturbed(s, s.outbox[id].command, h, d);
      hide Inv, Spent, Consumed, Caught, Handled;
    }
  }

  /**
   * Each undisturbed delivery uses up an attempt, whatever its handler does and reports: afterwards the
   * command is finished, or it can be claimed as soon as the clock moves and has fewer attempts left.
   */
  lemma AttemptProgress(s: State, id: CommandId, a: Attempt)
    requires Inv(s) && IsSearch(s.outbox, id) && Claimable(s, id) && Fair(a) && AttemptsLeft(s.executions, id) > 0
    ensures Spent(s, Deliver(s, id, a), id)
  {
    hide Inv, Spent, Executed, Consumed, AttemptsLeft, Claimable, Steady;
    if a.bull { BullAttempt(s, id, a.handler, a.delivery); } else { RedisAttempt(s, id, a.handler, a.delivery); }
  }

  /** Let the clock pass the current lease, and then some. */
  function Later(s: State, id: CommandId, pause: nat): State {
    s.(now := (if id in s.executions && s.executions[id].leaseUntil > s.now then s.executions[id].leaseUntil
               else s.now) + 1 + pause)
  }

  ghost function Retried(s: State, id: CommandId, attempts: seq<Attempt>): State
    decreases |attempts|
  {
    if attempts == [] then s
    else
      var last := attempts[|attempts| - 1];
      Deliver(Later(Retried(s, id, attempts[..|attempts| - 1]), id, last.pause), id, last)
  }

  lemma LaterKeeps(s: State, id: CommandId, pause: nat)
    requires Inv(s)
    ensures Inv(Later(s, id, pause)) && Claimable(Later(s, id, pause), id)
    ensures Later(s, id, pause).outbox == s.outbox && Later(s, id, pause).executions == s.executions
  {
    TickKeeps(s, Later(s, id, pause).now - s.now);
  }

  lemma RetryStep(s: State, id: CommandId, a: Attempt)
    requires Inv(s) && IsSearch(s.outbox, id) && Fair(a)
    ensures var s' := Deliver(Later(s, id, a.pause), id, a);
            Inv(s') && s'.outbox == s.outbox
                && (AttemptsLeft(s'.executions, id) == 0
                    || AttemptsLeft(s'.executions, id) < AttemptsLeft(s.executions, id))
  {
    LaterKeeps(s, id, a.pause);
    if AttemptsLeft(s.executions, id) > 0 {
      AttemptProgress(Later(s, id, a.pause), id, a);
      hide Inv, Deliver, AttemptsLeft, Later;
    } else {
      DeliveryToFinished(Later(s, id, a.pause), id, a);
      hide Inv, Deliver, AttemptsLeft, Later;
    }
  }

  /**
   * From any reachable state, five undisturbed deliveries end the command: each over either transport, with any
   * receive count, whatever the handler does and reports, even if it commits and then fails.
   */
  lemma {:induction false} FiveDeliveriesFinish(s: State, id: CommandId, attempts: seq<Attempt>)
    requires Inv(s) && IsSearch(s.outbox, id) && forall a :: a in attempts ==> Fair(a)
    ensures var s' := Retried(s, id, attempts);
            && Inv(s') && s'.outbox == s.outbox
            && (AttemptsLeft(s'.executions, id) == 0 || AttemptsLeft(s'.executions, id) + |attempts| <=
                  AttemptsLeft(s.executions, id))
            && (|attempts| >= MAX_ATTEMPTS ==> Terminal(s'.executions, id))
    decreases |attempts|
  {
    hide Inv, Deliver, AttemptsLeft, Later, Fair;
    NoneLeftIsFinished(s.executions, id);
    NoneLeftIsFinished(Retried(s, id, attempts).executions, id);
    if attempts != [] {
      var front, last := attempts[..|attempts| - 1], attempts[|attempts| - 1];
      assert last in attempts && forall a :: a in front ==> a in attempts;
      FiveDeliveriesFinish(s, id, front);
      RetryStep(Retried(s, id, front), id, last);
    }
  }

  lemma NoneLeftIsFinished(e: Executions, id: CommandId)
    ensures AttemptsLeft(e, id) == 0 <==> Terminal(e, id)
    ensures AttemptsLeft(e, id) <= MAX_ATTEMPTS
  {
  }

  /** A delivery for a finished command changes nothing. */
  lemma DeliveryToFinished(s: State, id: CommandId, a: Attempt)
    requires Inv(s) && IsSearch(s.outbox, id) && AttemptsLeft(s.executions, id) == 0
    ensures Deliver(s, id, a) == s
  {
    assert s.(executions := s.executions) == s;
    hide Handled, AfterFail;
  }
}
