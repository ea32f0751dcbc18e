/**
 * The two models of a delivery agree: what `Dispatch` says of a delivery without interference is what one
 * worker of `Workers` does in a run of its own steps, with time passing in between.
 */
module Deliveries {
  import opened Prelude
  import opened Leases
  import opened SearchPipeline
  import opened Workers
  import opened Runs
  import D = Dispatch
  import PS = PipelineSafety

  lemma Then(s: System, actions: seq<Action>, a: Action)
    ensures After(s, Step, actions + [a]) == Step(After(s, Step, actions), a)
  {
    assert (actions + [a])[..|actions|] == actions;
    hide Step;
  }

  lemma {:induction false} Both(s: System, a: seq<Action>, b: seq<Action>)
    ensures After(s, Step, a + b) == After(After(s, Step, a), Step, b)
    decreases |b|
  {
    hide Step;
    if b == [] {
      assert a + b == a;
    } else {
      var n := |b| - 1;
      Both(s, a, b[..n]);
      assert (a + b)[..|a + b| - 1] == a + b[..n];
    }
  }

  /** What the steps of a worker do to the tables, in the terms of a delivery. */
  lemma TablesAre(s: State, c: Command, fence: nat)
    ensures PS.Apply(s, PS.ClaimOp(c.id, LEASE)) == D.Claimed(s, c.id).0
    ensures PS.Apply(s, PS.FailOp(c, fence)) == AfterFail(s, c, fence).0
    ensures PS.Apply(s, PS.ReleaseOp(c.id, fence)) == D.Released(s, c.id, fence)
    ensures Matches(s, c) ==> Claim(s.executions, c.id, true, s.now, LEASE).1 == D.Claimed(s, c.id).1
  {
    hide AfterSettle;
  }

  function ActionOf(w: WorkerId, c: Command, fence: nat, call: D.Call): Action {
    if call.Waits? then Environment(PS.TickOp(call.elapsed)) else Work(w, D.OpOf(call, c, fence))
  }

  /** The handler, its heartbeat and the clock. */
  lemma {:induction false} HandlerRun(s: System, w: WorkerId, c: Command, fence: nat, calls: seq<D.Call>)
    returns (actions: seq<Action>)
    requires PhaseOf(s, w) == Handling(c, fence)
    ensures After(s, Step, actions) == s.(db := D.Handled(s.db, c, fence, calls))
    decreases |calls|
  {
    if calls == [] {
      actions := [];
    } else {
      var front, last := calls[..|calls| - 1], calls[|calls| - 1];
      var before := HandlerRun(s, w, c, fence, front);
      var a := ActionOf(w, c, fence, last);
      actions := before + [a];
      Then(s, before, a);
      hide PS.Apply;
      assert Enabled(After(s, Step, before), a);
    }
  }

  /** One worker has changed: the tables are these, it is idle, and this has been recorded. */
  ghost predicate Ended(s: System, s': System, w: WorkerId, db: State, acked: set<CommandId>,
                        handled: seq<(CommandId, nat)>) {
    && s'.db == db && PhaseOf(s', w) == Idle && s'.acked == s.acked + acked && s'.handled == s.handled + handled
    && forall v :: v != w ==>
         (v in s.workers <==> v in s'.workers) && (v in s.workers ==> s'.workers[v] == s.workers[v])
  }

  function Acknowledged(reply: D.Reply, id: CommandId): set<CommandId> {
    if reply.Done? || reply.Duplicate? then {id} else {}
  }

  /** One step of a worker that is refused, or has no attempts left. */
  lemma LastStep(s: System, w: WorkerId, phase: Phase, a: Action)
    requires w in s.workers && s.workers[w].phase == phase
    requires if a == Exhaust(w) then phase.OverBudget? else a in {Answer(w), Crash(w)} && phase.Refused?
    ensures var id := phase.command.id;
            Ended(s, Step(s, a), w, if a.Exhaust? then AfterFail(s.db, phase.command, phase.fence).0 else s.db,
                  if a.Answer? && IsCompleted(s.db.executions, id) then {id} else {}, [])
  {
    if a.Exhaust? { TablesAre(s.db, phase.command, phase.fence); }
    hide PS.Apply, AfterFail;
  }

  lemma OneAction(s: System, a: Action)
    ensures After(s, Step, [a]) == Step(s, a)
  {
    Then(s, [], a);
    assert [] + [a] == [a];
    hide Step;
  }

  /** The claim of a delivery: the tables are those of `Claimed`, and the worker stands where the claim leads. */
  lemma FirstStep(s: System, w: WorkerId, bull: bool, c: Command)
    requires PhaseOf(s, w) == Idle && Matches(s.db, c)
    ensures var s' := Step(s, Deliver(w, if bull then BullQueue else RedisQueue, c));
            var (claimed, fence) := D.Claimed(s.db, c.id);
            && s'.db == claimed && s'.acked == s.acked && w in s'.workers
            && s'.workers[w] == Worker(if bull then BullQueue else RedisQueue,
                                       if fence.None? then Refused(c) else if fence.value > MAX_ATTEMPTS
                                       then OverBudget(c, fence.value) else Handling(c, fence.value))
            && s'.handled == s.handled + (if fence.Some? && fence.value <= MAX_ATTEMPTS then [(c.id, fence.value)]
                                          else [])
            && forall v :: v != w ==>
                 (v in s.workers <==> v in s'.workers) && (v in s.workers ==> s'.workers[v] == s.workers[v])
  {
    TablesAre(s.db, c, 0);
    hide PS.Apply;
    assert s.handled + [] == s.handled;
  }

  /** A delivery that does not get to its handler. */
  lemma ShortRun(s: System, w: WorkerId, bull: bool, c: Command, h: D.Handler, d: D.Delivery)
    returns (actions: seq<Action>)
    requires PhaseOf(s, w) == Idle
    requires !Matches(s.db, c) || d.stopped || D.Claimed(s.db, c.id).1.None?
             || D.Claimed(s.db, c.id).1.value > MAX_ATTEMPTS
    ensures var (db, reply) := Delivered(s.db, bull, c, h, d);
            Ended(s, After(s, Step, actions), w, db, Acknowledged(reply, c.id), [])
  {
    hide PS.Apply, AfterFail, D.Handled, Step, D.Claimed, Matches;
    if !Matches(s.db, c) || d.stopped {
      actions := [];
      assert s.acked + {} == s.acked && s.handled + [] == s.handled;
      return;
    }
    var deliver := Deliver(w, if bull then BullQueue else RedisQueue, c);
    var (claimed, fence) := D.Claimed(s.db, c.id);
    FirstStep(s, w, bull, c);
    OneAction(s, deliver);
    var s1, phase := Step(s, deliver), PhaseOf(Step(s, deliver), w);
    var last := if fence.Some? then Exhaust(w)
                else if !bull && d.ackFails && IsCompleted(s.db.executions, c.id) then Crash(w) else Answer(w);
    if fence.None? { D.TurnedAway(s.db, c, h, d); ClaimLeaves(s.db, c); }
    LastStep(s1, w, phase, last);
    Then(s, [deliver], last);
    actions := [deliver] + [last];
    assert s1.handled == s.handled;
  }

  lemma ClaimLeaves(s: State, c: Command)
    requires D.Claimed(s, c.id).1.None?
    ensures D.Claimed(s, c.id).0 == s
  {
    assert s.(executions := s.executions) == s;
  }

  ghost function Delivered(s: State, bull: bool, c: Command, h: D.Handler, d: D.Delivery): (State, D.Reply) {
    if bull then D.Executed(s, c, h, d) else D.Consumed(s, c, h, d)
  }

  /** Up to the end of the handler. */
  lemma HandledRun(s: System, w: WorkerId, bull: bool, c: Command, calls: seq<D.Call>)
    returns (actions: seq<Action>, s': System)
    requires PhaseOf(s, w) == Idle && Matches(s.db, c)
    requires D.Claimed(s.db, c.id).1.Some? && D.Claimed(s.db, c.id).1.value <= MAX_ATTEMPTS
    ensures s' == After(s, Step, actions)
    ensures var (claimed, fence) := D.Claimed(s.db, c.id);
            && w in s'.workers
            && s'.workers[w] == Worker(if bull then BullQueue else RedisQueue, Handling(c, fence.value))
            && Ended(s, Enter(s', w, Idle), w, D.Handled(claimed, c, fence.value, calls), {}, [(c.id, fence.value)])
  {
    hide PS.Apply, AfterFail, D.Handled, D.Claimed, Step;
    var deliver := Deliver(w, if bull then BullQueue else RedisQueue, c);
    var (claimed, fence) := D.Claimed(s.db, c.id);
    FirstStep(s, w, bull, c);
    OneAction(s, deliver);
    var s1 := Step(s, deliver);
    var rest := HandlerRun(s1, w, c, fence.value, calls);
    Both(s, [deliver], rest);
    actions := [deliver] + rest;
    s' := s1.(db := D.Handled(claimed, c, fence.value, calls));
  }

  /** The handler returns, and its result is checked if it reports one. */
  lemma CheckRun(s: System, w: WorkerId, c: Command, fence: nat, committed: bool, answered: bool)
    returns (actions: seq<Action>)
    requires w in s.workers && s.workers[w].phase == Handling(c, fence)
    ensures var done := committed && answered && IsCompleted(s.db.executions, c.id);
            After(s, Step, actions) == Enter(s.(acked := if done then s.acked + {c.id} else s.acked), w,
                                             if done then Closing(c, fence) else Catching(c, fence))
  {
    OneAction(s, Return(w, committed));
    actions := [Return(w, committed)];
    if committed {
      Then(s, actions, CheckResult(w, answered));
      actions := actions + [CheckResult(w, answered)];
    }
    hide PS.Apply;
  }

  lemma CatchStep(s: System, w: WorkerId, c: Command, fence: nat, giveUp: bool, rechecked: bool)
    requires w in s.workers && s.workers[w].phase == Catching(c, fence)
    requires s.workers[w].transport.BullQueue? && giveUp ==> rechecked && fence >= MAX_ATTEMPTS
    ensures var bull := s.workers[w].transport.BullQueue?;
            var late := bull && rechecked && IsCompleted(s.db.executions, c.id);
            Step(s, Catch(w, giveUp, rechecked)) ==
              Enter(s.(acked := if late then s.acked + {c.id} else s.acked,
                       db := if late then s.db else if giveUp then AfterFail(s.db, c, fence).0
                             else if bull then s.db else D.Released(s.db, c.id, fence)), w, Closing(c, fence))
  {
    TablesAre(s.db, c, fence);
    hide PS.Apply, AfterFail, D.Released;
  }

  lemma CloseStep(s: System, w: WorkerId, c: Command, fence: nat, release: bool)
    requires w in s.workers && s.workers[w].phase == Closing(c, fence)
    requires s.workers[w].transport.BullQueue? ==> release
    ensures Step(s, Close(w, release)) ==
            Enter(s.(db := if release then D.Released(s.db, c.id, fence) else s.db), w, Idle)
  {
    TablesAre(s.db, c, fence);
    hide PS.Apply, D.Released;
  }

  /** Behind the handler: the check of its result, the catch path and the `finally` block. */
  lemma TailRun(s: System, w: WorkerId, c: Command, fence: nat, committed: bool, answered: bool, giveUp: bool,
                rechecked: bool, release: bool)
    returns (actions: seq<Action>)
    requires w in s.workers && s.workers[w].phase == Handling(c, fence)
    requires s.workers[w].transport.BullQueue? ==> release && (giveUp ==> rechecked && fence >= MAX_ATTEMPTS)
    ensures var bull, completed := s.workers[w].transport.BullQueue?, IsCompleted(s.db.executions, c.id);
            var done := committed && answered && completed;
            var late := bull && rechecked && completed;
            var caught := if done || late then s.db else if giveUp then AfterFail(s.db, c, fence).0
                          else if bull then s.db else D.Released(s.db, c.id, fence);
            Ended(s, After(s, Step, actions), w, if release then D.Released(caught, c.id, fence) else caught,
                  if done || late then {c.id} else {}, [])
  {
    hide AfterFail, D.Released, Step, IsCompleted;
    actions := CheckRun(s, w, c, fence, committed, answered);
    var done := committed && answered && IsCompleted(s.db.executions, c.id);
    var rest := CaughtRun(After(s, Step, actions), w, c, fence, done, giveUp, rechecked, release);
    Both(s, actions, rest);
    actions := actions + rest;
    assert s.handled + [] == s.handled && s.acked + {} == s.acked;
  }

  /** The catch path, unless the result was good, and the `finally` block. */
  lemma CaughtRun(s: System, w: WorkerId, c: Command, fence: nat, done: bool, giveUp: bool, rechecked: bool,
                  release: bool)
    returns (actions: seq<Action>)
    requires w in s.workers && s.workers[w].phase == (if done then Closing(c, fence) else Catching(c, fence))
    requires s.workers[w].transport.BullQueue? ==> release && (giveUp ==> rechecked && fence >= MAX_ATTEMPTS)
    ensures var bull := s.workers[w].transport.BullQueue?;
            var late := bull && rechecked && IsCompleted(s.db.executions, c.id);
            var caught := if done || late then s.db else if giveUp then AfterFail(s.db, c, fence).0
                          else if bull then s.db else D.Released(s.db, c.id, fence);
            Ended(s, After(s, Step, actions), w, if release then D.Released(caught, c.id, fence) else caught,
                  if !done && late then {c.id} else {}, [])
  {
    hide AfterFail, D.Released, Step, IsCompleted;
    actions := [];
    if !done {
      CatchStep(s, w, c, fence, giveUp, rechecked);
      OneAction(s, Catch(w, giveUp, rechecked));
      actions := [Catch(w, giveUp, rechecked)];
    }
    CloseStep(After(s, Step, actions), w, c, fence, release);
    Then(s, actions, Close(w, release));
    actions := actions + [Close(w, release)];
    assert s.handled + [] == s.handled && s.acked + {} == s.acked;
  }

  /**
   * Whatever the transport, the message, the handler and the failures on the way: the delivery is a run of one idle
   * worker, which ends idle with the same tables, the same acknowledgement and at most one call of the handler.
   */
  lemma DeliveryIsARun(s: System, w: WorkerId, bull: bool, c: Command, h: D.Handler, d: D.Delivery)
    returns (actions: seq<Action>)
    requires PhaseOf(s, w) == Idle
    ensures var (db, reply) := Delivered(s.db, bull, c, h, d);
            exists calls :: |calls| <= 1 && Ended(s, After(s, Step, actions), w, db, Acknowledged(reply, c.id), calls)
  {
    var (claimed, fence) := D.Claimed(s.db, c.id);
    if !Matches(s.db, c) || d.stopped || fence.None? || fence.value > MAX_ATTEMPTS {
      actions := ShortRun(s, w, bull, c, h, d);
      return;
    }
    var first, s1 := HandledRun(s, w, bull, c, h.calls);
    var rest := LongTail(s, s1, w, bull, c, h, d);
    actions := first + rest;
    Both(s, first, rest);
    hide *;
    assert |[(c.id, fence.value)]| <= 1;
  }

  /** So is the reconciliation of a dead letter. */
  lemma DeadLetterIsARun(s: System, w: WorkerId, c: Command)
    returns (actions: seq<Action>)
    requires PhaseOf(s, w) == Idle
    ensures var (claimed, fence) := D.Claimed(s.db, c.id);
            Ended(s, After(s, Step, actions), w,
                  if !Matches(s.db, c) || fence.None? then s.db else AfterFail(claimed, c, fence.value).0, {}, [])
  {
    var (claimed, fence) := D.Claimed(s.db, c.id);
    TablesAre(s.db, c, 0);
    hide PS.Apply, AfterFail;
    assert s.acked + {} == s.acked && s.handled + [] == s.handled;
    actions := [];
    if Matches(s.db, c) && fence.Some? {
      var s1 := Step(s, Action.DeadLetter(w, c));
      OneAction(s, Action.DeadLetter(w, c));
      LastStep(s1, w, OverBudget(c, fence.value), Exhaust(w));
      Then(s, [Action.DeadLetter(w, c)], Exhaust(w));
      actions := [Action.DeadLetter(w, c)] + [Exhaust(w)];
    }
  }

  /** Around the workers, searches are created and cancelled, parse commands stored, commands sent, and time passes. */
  lemma OthersAct(s: System, op: PS.Op)
    requires PS.Legal(s.db, op) && (op.CreateOp? || op.CancelOp? || op.StoreParseOp? || op.PublishOp? || op.TickOp?)
    ensures Step(s, Environment(op)) == s.(db := PS.Apply(s.db, op))
  {
    hide PS.Apply;
  }

  /** The tail of a delivery whose handler has run. */
  lemma LongTail(s: System, s1: System, w: WorkerId, bull: bool, c: Command, h: D.Handler, d: D.Delivery)
    returns (rest: seq<Action>)
    requires PhaseOf(s, w) == Idle && Matches(s.db, c) && !d.stopped
    requires D.Claimed(s.db, c.id).1.Some? && D.Claimed(s.db, c.id).1.value <= MAX_ATTEMPTS
    requires var (claimed, fence) := D.Claimed(s.db, c.id);
             && w in s1.workers
             && s1.workers[w] == Worker(if bull then BullQueue else RedisQueue, Handling(c, fence.value))
             && Ended(s, Enter(s1, w, Idle), w, D.Handled(claimed, c, fence.value, h.calls), {}, [(c.id, fence.value)])
    ensures var (db, reply) := Delivered(s.db, bull, c, h, d);
            Ended(s, After(s1, Step, rest), w, db, Acknowledged(reply, c.id), [(c.id, D.Claimed(s.db, c.id).1.value)])
  {
    hide D.Handled, AfterFail, Step, D.Claimed, D.Released, IsCompleted, Matches;
    var (claimed, fence) := D.Claimed(s.db, c.id);
    var completed := IsCompleted(s1.db.executions, c.id);
    var interrupted := d.aborted || d.heartbeatFailed;
    if bull {
      rest := TailRun(s1, w, c, fence.value, h.committed, !d.statusFails,
                      !d.recheckFails && !completed && fence.value >= MAX_ATTEMPTS && !interrupted,
                      !d.recheckFails, true);
    } else {
      rest := TailRun(s1, w, c, fence.value, h.committed, !d.statusFails && !d.ackFails,
                      (fence.value >= MAX_ATTEMPTS || d.count >= 5) && !interrupted, false, d.heartbeatFailed);
    }
  }
}
