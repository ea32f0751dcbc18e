/**
 * Fenced leases over `command_executions`: each function is one SQL statement of
 * packages/core/src/database.ts, over the table value, with the transaction time as `now`.
 */
module Leases {
  import opened Prelude

  type CommandId = nat

  datatype ExecStatus = ExecRunning | ExecCompleted | ExecFailed

  datatype Execution = Execution(status: ExecStatus, fence: nat, attempts: nat, leaseUntil: int)

  type Executions = map<CommandId, Execution>

  /** The retry budget and the lease of the worker programs, in milliseconds. */
  const MAX_ATTEMPTS: nat := 5
  const LEASE: nat := 60000

  /** The lease test shared by `renew`, `startSearch` and `settle`. */
  predicate Owns(e: Executions, id: CommandId, fence: nat, now: int) {
    id in e && e[id].status.ExecRunning? && e[id].fence == fence && e[id].leaseUntil > now
  }

  predicate Terminal(e: Executions, id: CommandId) {
    id in e && !e[id].status.ExecRunning?
  }

  predicate IsCompleted(e: Executions, id: CommandId) {
    id in e && e[id].status.ExecCompleted?
  }

  predicate IsFailed(e: Executions, id: CommandId) {
    id in e && e[id].status.ExecFailed?
  }

  /** `claim`: insert the first attempt, or take over an expired lease under a new fence. */
  function Claim(e: Executions, id: CommandId, stored: bool, now: int, lease: nat): (Executions, Option<nat>) {
    if !stored then (e, None)
    else if id !in e then (e[id := Execution(ExecRunning, 1, 1, now + lease)], Some(1))
    else if e[id].status.ExecRunning? && e[id].leaseUntil < now then
      (e[id := Execution(ExecRunning, e[id].fence + 1, e[id].attempts + 1, now + lease)], Some(e[id].fence + 1))
    else (e, None)
  }

  function Renew(e: Executions, id: CommandId, fence: nat, now: int, lease: nat): Executions {
    if Owns(e, id, fence, now) then e[id := e[id].(leaseUntil := now + lease)] else e
  }

  /** `release` does not test the lease, only the fence and the status. */
  function Release(e: Executions, id: CommandId, fence: nat, now: int): Executions {
    if id in e && e[id].status.ExecRunning? && e[id].fence == fence
    then e[id := e[id].(leaseUntil := now)] else e
  }

  /** The execution half of a cancellation: never claimed, running, or already finished. */
  function CancelExecution(e: Executions, id: CommandId, now: int): Executions {
    if id !in e then e[id := Execution(ExecCompleted, 1, 0, now)]
    else if e[id].status.ExecRunning? then
      e[id := Execution(ExecCompleted, e[id].fence + 1, e[id].attempts, now)]
    else e
  }

  /** Every statement keeps finished executions exactly, and never lowers a fence. */
  ghost predicate Advances(e: Executions, e': Executions) {
    && (forall id :: id in e ==> id in e' && e[id].fence <= e'[id].fence)
    && (forall id :: Terminal(e, id) ==> e'[id] == e[id])
  }

  /** While a command runs, its fence is its number of attempts. */
  ghost predicate FencesCountAttempts(e: Executions) {
    forall id :: id in e ==> e[id].fence >= 1 && (e[id].status.ExecRunning? ==> e[id].fence == e[id].attempts)
  }

  ghost predicate SameFinished(e: Executions, e': Executions) {
    forall id :: Terminal(e, id) <==> Terminal(e', id)
  }

  /** `e'` is a lease change: it advances, finishes nothing, and claims only stored commands. */
  ghost predicate LeaseChange(e: Executions, e': Executions, outbox: set<CommandId>) {
    && Advances(e, e') && SameFinished(e, e') && FencesCountAttempts(e')
    && (forall id :: id in e' ==> id in e || id in outbox)
  }

  lemma ClaimIsLeaseChange(e: Executions, id: CommandId, outbox: set<CommandId>, now: int, lease: nat)
    requires FencesCountAttempts(e)
    ensures LeaseChange(e, Claim(e, id, id in outbox, now, lease).0, outbox)
    ensures var (e', fence) := Claim(e, id, id in outbox, now, lease);
            fence.Some? ==> id in e' && e'[id].fence == fence.value && (id in e ==> e[id].fence < fence.value)
  {
  }

  /** A command is claimed exactly when it is stored and was never claimed, or its lease has run out unfinished. */
  lemma ClaimAnswers(e: Executions, id: CommandId, stored: bool, now: int, lease: nat, other: CommandId)
    ensures var (e', fence) := Claim(e, id, stored, now, lease);
            && (fence.Some? <==> stored && (id !in e || (e[id].status == ExecRunning && e[id].leaseUntil < now)))
            && (fence.None? ==> e' == e)
            && (fence.Some? ==>
                  && fence.value == (if id in e then e[id].fence + 1 else 1)
                  && Owns(e', id, fence.value, now) == (lease > 0) && e'[id].leaseUntil == now + lease
                  && e'[id].attempts == (if id in e then e[id].attempts + 1 else 1)
                  && e'.Keys == e.Keys + {id} && (other in e && other != id ==> e'[other] == e[other]))
  {
  }

  /** A renewal moves the end of the holder's own lease, and changes nothing for anybody else. */
  lemma RenewAnswers(e: Executions, id: CommandId, fence: nat, now: int, lease: nat, other: CommandId)
    ensures var e' := Renew(e, id, fence, now, lease);
            && (!Owns(e, id, fence, now) ==> e' == e)
            && (Owns(e, id, fence, now) ==>
                  e'.Keys == e.Keys && e'[id] == e[id].(leaseUntil := now + lease)
                  && (other in e && other != id ==> e'[other] == e[other]))
  {
  }

  lemma RenewIsLeaseChange(e: Executions, id: CommandId, fence: nat, outbox: set<CommandId>, now: int, lease: nat)
    requires FencesCountAttempts(e)
    ensures LeaseChange(e, Renew(e, id, fence, now, lease), outbox)
  {
  }

  lemma ReleaseIsLeaseChange(e: Executions, id: CommandId, fence: nat, outbox: set<CommandId>, now: int)
    requires FencesCountAttempts(e)
    ensures LeaseChange(e, Release(e, id, fence, now), outbox)
  {
  }

  /** One execution that is not finished yet finishes. */
  lemma FinishAdvances(e: Executions, id: CommandId, x: Execution)
    requires FencesCountAttempts(e) && !Terminal(e, id) && !x.status.ExecRunning? && x.fence >= 1
    requires id in e ==> x.fence >= e[id].fence
    ensures FencesCountAttempts(e[id := x]) && Advances(e, e[id := x])
  {
  }

  /**
   * A release changes the table exactly for the current fence of a running command whose lease does not end
   * right now.
   */
  lemma ReleaseChangesIff(e: Executions, id: CommandId, fence: nat, now: int)
    ensures Release(e, id, fence, now) != e
       <==> id in e && e[id].status.ExecRunning? && e[id].fence == fence && e[id].leaseUntil != now
  {
    if id in e {
      assert Release(e, id, fence, now)[id].leaseUntil == now || Release(e, id, fence, now) == e;
    }
    if id in e && e[id].leaseUntil == now {
      assert e[id := e[id].(leaseUntil := now)] == e;
    }
  }

  /** A holder whose lease expired a while ago still moves it: the late release is not always a no-op. */
  lemma ExpiredHolderReleaseMovesLease()
    ensures var e := map[7 := Execution(ExecRunning, 2, 2, 100)];
            !Owns(e, 7, 2, 500) && Release(e, 7, 2, 500) != e
  {
    ReleaseChangesIff(map[7 := Execution(ExecRunning, 2, 2, 100)], 7, 2, 500);
  }

  /**
   * What a late release can cost: nobody else loses or gains ownership, and a takeover waits at most until
   * the clock moves.
   */
  lemma LateReleaseIsHarmless(e: Executions, id: CommandId, fence: nat, now: int, later: int, other: CommandId,
                              holder: nat)
    requires !Owns(e, id, fence, now) && now < later
    ensures Advances(e, Release(e, id, fence, now))
    ensures Owns(Release(e, id, fence, now), other, holder, later) <==> Owns(e, other, holder, later)
    ensures Claim(Release(e, id, fence, now), other, other in e, later, 60000).1 ==
            Claim(e, other, other in e, later, 60000).1
  {
  }
}
