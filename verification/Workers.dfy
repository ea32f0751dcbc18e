/**
 * The worker programs of packages/core/src/dispatch.ts and packages/core/src/bull-queue.ts as
 * processes over the pipeline: any number of workers, any messages (duplicated, redelivered, stale
 * or forged), crashes at any point, and cancellations in between. One action is one atomic step of
 * one process.
 */
module Workers {
  import opened Prelude
  import opened Leases
  import opened SearchPipeline
  import PipelineSafety
  import opened Runs

  type WorkerId = nat

  datatype Transport = RedisQueue | BullQueue

  /** Where a worker program stands between two steps. */
  datatype Phase =
    | Idle
    | Refused(command: Command)
    | OverBudget(command: Command, fence: nat)
    | Handling(command: Command, fence: nat)
    | Returned(command: Command, fence: nat)
    | Catching(command: Command, fence: nat)
    | Closing(command: Command, fence: nat)
  {
    /** The command and the fence this worker acts under. */
    predicate Holds(id: CommandId, f: nat) {
      (OverBudget? || Handling? || Returned? || Catching? || Closing?) && command.id == id && fence == f
    }
  }

  datatype Worker = Worker(transport: Transport, phase: Phase)

  /** `handled` records every handler invocation, `acked` every message acknowledged as done. */
  datatype System = System(db: State, workers: map<WorkerId, Worker>, handled: seq<(CommandId, nat)>,
                           acked: set<CommandId>)

  const Start := System(Empty, map[], [], {})

  datatype Action =
    | Environment(op: PipelineSafety.Op)
    | Deliver(w: WorkerId, transport: Transport, message: Command)
    | DeadLetter(w: WorkerId, message: Command)
    | Answer(w: WorkerId)
    | Exhaust(w: WorkerId)
    | Work(w: WorkerId, op: PipelineSafety.Op)
    | Return(w: WorkerId, committed: bool)
    | CheckResult(w: WorkerId, answered: bool)
    | Catch(w: WorkerId, giveUp: bool, answered: bool)
    | Close(w: WorkerId, release: bool)
    | Crash(w: WorkerId)

  function PhaseOf(s: System, w: WorkerId): Phase {
    if w in s.workers then s.workers[w].phase else Idle
  }

  function Enter(s: System, w: WorkerId, phase: Phase): System {
    s.(workers := s.workers[w := Worker(if w in s.workers then s.workers[w].transport else RedisQueue, phase)])
  }

  ghost function OnDb(s: System, op: PipelineSafety.Op): System {
    s.(db := PipelineSafety.Apply(s.db, op))
  }

  /**
   * What a handler and the heartbeat may do, under the worker's own command and fence: start and settle
   * while the handler runs, renew until the program reaches its `finally` block.
   */
  predicate OwnWork(p: Phase, op: PipelineSafety.Op) {
    match op
    case RenewOp(id, fence, lease) =>
      (p.Handling? || p.Returned? || p.Catching?) && id == p.command.id && fence == p.fence && lease == LEASE
    case StartOp(c, fence) => p.Handling? && c == p.command && fence == p.fence
    case CompleteOp(c, fence, _) => p.Handling? && c == p.command && fence == p.fence
    case CollectOp(c, fence, _, _) => p.Handling? && c == p.command && fence == p.fence
    case _ => false
  }

  /**
   * The branch conditions of the two programs. A Redis worker may also give up on the receive count, which is
   * outside the model; `answered` says that the status query, and the acknowledgement behind it, did not fail.
   */
  predicate Enabled(s: System, a: Action) {
    match a
    case Environment(op) =>
      PipelineSafety.Legal(s.db, op)
          && (op.CreateOp? || op.PublishOp? || op.CancelOp? || op.StoreParseOp? || op.TickOp?)
    case Deliver(w, _, _) => PhaseOf(s, w).Idle?
    case DeadLetter(w, _) => PhaseOf(s, w).Idle?
    case Answer(w) => PhaseOf(s, w).Refused?
    case Exhaust(w) => PhaseOf(s, w).OverBudget?
    case Work(w, op) => OwnWork(PhaseOf(s, w), op)
    case Return(w, _) => PhaseOf(s, w).Handling?
    case CheckResult(w, _) => PhaseOf(s, w).Returned?
    case Catch(w, giveUp, answered) =>
      && PhaseOf(s, w).Catching?
      && (giveUp && s.workers[w].transport.BullQueue? ==> answered && PhaseOf(s, w).fence >= MAX_ATTEMPTS)
    case Close(w, release) =>
      PhaseOf(s, w).Closing? && (s.workers[w].transport.BullQueue? ==> release)
    case Crash(w) => true
  }

  ghost function Step(s: System, a: Action): System {
    if !Enabled(s, a) then s else
    match a
    case Environment(op) => OnDb(s, op)
    case Deliver(w, transport, message) =>
      if !Matches(s.db, message) then s
      else
        var claimed := OnDb(s, PipelineSafety.ClaimOp(message.id, LEASE))
                       .(workers := s.workers[w := Worker(transport, Idle)]);
        (match Claim(s.db.executions, message.id, true, s.db.now, LEASE).1
         case None => Enter(claimed, w, Refused(message))
         case Some(fence) =>
           if fence > MAX_ATTEMPTS then Enter(claimed, w, OverBudget(message, fence))
           else Enter(claimed, w, Handling(message, fence)).(handled := s.handled + [(message.id, fence)]))
    case DeadLetter(w, message) =>
      if !Matches(s.db, message) then s
      else (match Claim(s.db.executions, message.id, true, s.db.now, LEASE).1
            case None => s
            case Some(fence) => Enter(OnDb(s, PipelineSafety.ClaimOp(message.id, LEASE)), w,
                                      OverBudget(message, fence)))
    case Answer(w) =>
      var id := PhaseOf(s, w).command.id;
      Enter(s.(acked := if IsCompleted(s.db.executions, id) then s.acked + {id} else s.acked), w, Idle)
    case Exhaust(w) => Enter(OnDb(s, PipelineSafety.FailOp(PhaseOf(s, w).command, PhaseOf(s, w).fence)), w, Idle)
    case Work(w, op) => OnDb(s, op)
    case Return(w, committed) =>
      var p := PhaseOf(s, w);
      Enter(s, w, if committed then Returned(p.command, p.fence) else Catching(p.command, p.fence))
    case CheckResult(w, answered) =>
      var p := PhaseOf(s, w);
      if answered && IsCompleted(s.db.executions, p.command.id)
      then Enter(s.(acked := s.acked + {p.command.id}), w, Closing(p.command, p.fence))
      else Enter(s, w, Catching(p.command, p.fence))
    case Catch(w, giveUp, answered) =>
      var p := PhaseOf(s, w);
      var done := answered && IsCompleted(s.db.executions, p.command.id) && s.workers[w].transport.BullQueue?;
      if done then Enter(s.(acked := s.acked + {p.command.id}), w, Closing(p.command, p.fence))
      else if giveUp then Enter(OnDb(s, PipelineSafety.FailOp(p.command, p.fence)), w, Closing(p.command, p.fence))
      else if s.workers[w].transport.RedisQueue?
      then Enter(OnDb(s, PipelineSafety.ReleaseOp(p.command.id, p.fence)), w, Closing(p.command, p.fence))
      else Enter(s, w, Closing(p.command, p.fence))
    case Close(w, release) =>
      var p := PhaseOf(s, w);
      Enter(if release then OnDb(s, PipelineSafety.ReleaseOp(p.command.id, p.fence)) else s, w, Idle)
    case Crash(w) => Enter(s, w, Idle)
  }

  // ---------------------------------------------------------------------------------------------
  // The invariant.

  predicate WorkerOk(db: State, p: Phase) {
    match p
    case Idle => true
    case Refused(c) => c.id in db.executions
    case _ => p.command.id in db.executions && 1 <= p.fence <= db.executions[p.command.id].fence
  }

  ghost predicate WorkersOk(db: State, workers: map<WorkerId, Worker>) {
    forall w :: w in workers ==> WorkerOk(db, workers[w].phase)
  }

  /** No two workers act under the same fence of the same command. */
  ghost predicate OneHolderPerFence(workers: map<WorkerId, Worker>) {
    forall v, w, id, f ::
      v in workers && w in workers && workers[v].phase.Holds(id, f) && workers[w].phase.Holds(id, f) ==> v == w
  }

  /** Handler invocations of one command carry increasing fences, each in 1..5 and no larger than the current one. */
  ghost predicate HandledInOrder(e: Executions, handled: seq<(CommandId, nat)>) {
    && (forall i :: 0 <= i < |handled| ==>
          handled[i].0 in e && 1 <= handled[i].1 <= MAX_ATTEMPTS && handled[i].1 <= e[handled[i].0].fence)
    && (forall i, j :: 0 <= i < j < |handled| && handled[i].0 == handled[j].0 ==> handled[i].1 < handled[j].1)
  }

  /** Only completed commands are ever acknowledged. */
  ghost predicate AckedCompleted(e: Executions, acked: set<CommandId>) {
    forall id :: id in acked ==> id in e && e[id].status.ExecCompleted?
  }

  ghost predicate SysInv(s: System) {
    && PipelineSafety.Inv(s.db)
    && WorkersOk(s.db, s.workers)
    && OneHolderPerFence(s.workers)
    && HandledInOrder(s.db.executions, s.handled)
    && AckedCompleted(s.db.executions, s.acked)
  }

  /** A database step of any kind keeps everything recorded about workers. */
  lemma DbStepKeeps(s: System, op: PipelineSafety.Op)
    requires SysInv(s) && PipelineSafety.Legal(s.db, op)
    ensures SysInv(OnDb(s, op)) && Advances(s.db.executions, OnDb(s, op).db.executions)
  {
    hide PipelineSafety.Inv, PipelineSafety.Apply, OneHolderPerFence;
    PipelineSafety.ApplyKeeps(s.db, op);
    var e, e' := s.db.executions, PipelineSafety.Apply(s.db, op).executions;
    assert forall id :: id in s.acked ==> Terminal(e, id);
  }

  /** Entering a phase under a fence nobody else holds. */
  lemma EnterKeeps(s: System, w: WorkerId, p: Phase)
    requires SysInv(s) && WorkerOk(s.db, p)
    requires forall v, id, f :: v in s.workers && v != w && p.Holds(id, f) ==> !s.workers[v].phase.Holds(id, f)
    ensures SysInv(Enter(s, w, p))
  {
    hide PipelineSafety.Inv;
  }

  /** The same worker moves on under the fence it already holds, or drops it. */
  lemma MoveKeeps(s: System, w: WorkerId, p: Phase)
    requires SysInv(s) && w in s.workers && WorkerOk(s.db, p)
    requires forall id, f :: p.Holds(id, f) ==> s.workers[w].phase.Holds(id, f)
    ensures SysInv(Enter(s, w, p))
  {
    hide PipelineSafety.Inv;
    assert forall v, id, f :: v in s.workers && v != w && p.Holds(id, f) ==> !s.workers[v].phase.Holds(id, f);
    EnterKeeps(s, w, p);
  }

  /** A claim that succeeds returns a fence that no worker holds and no handler run has used. */
  lemma ClaimIsFresh(s: System, id: CommandId, fence: nat)
    requires SysInv(s) && Claim(s.db.executions, id, id in s.db.outbox, s.db.now, LEASE).1 == Some(fence)
    ensures forall v :: v in s.workers ==> !s.workers[v].phase.Holds(id, fence)
    ensures forall i :: 0 <= i < |s.handled| && s.handled[i].0 == id ==> s.handled[i].1 < fence
    ensures var e := OnDb(s, PipelineSafety.ClaimOp(id, LEASE)).db.executions; id in e && e[id].fence == fence >= 1
  {
    hide PipelineSafety.Inv;
    assert forall v, f :: v in s.workers && s.workers[v].phase.Holds(id, f) ==> WorkerOk(s.db, s.workers[v].phase);
  }

  lemma ClaimRefused(s: System, id: CommandId)
    requires SysInv(s) && id in s.db.outbox && Claim(s.db.executions, id, true, s.db.now, LEASE).1 == None
    ensures id in OnDb(s, PipelineSafety.ClaimOp(id, LEASE)).db.executions
  {
  }

  /** A worker that was idle claims: its table entry is new, and so is the fence. */
  lemma ClaimKeeps(s: System, w: WorkerId, worker: Worker, id: CommandId)
    requires SysInv(s) && PhaseOf(s, w).Idle? && worker.phase.Idle?
    ensures SysInv(OnDb(s, PipelineSafety.ClaimOp(id, LEASE)).(workers := s.workers[w := worker]))
  {
    hide PipelineSafety.Inv, HandledInOrder, AckedCompleted, PipelineSafety.Apply;
    DbStepKeeps(s, PipelineSafety.ClaimOp(id, LEASE));
  }

  /** Entering the handler under a fresh fence, with the invocation recorded. */
  lemma HandleKeeps(s: System, w: WorkerId, c: Command, fence: nat)
    requires SysInv(s) && WorkerOk(s.db, Handling(c, fence)) && s.db.executions[c.id].fence == fence <= MAX_ATTEMPTS
    requires forall v :: v in s.workers && v != w ==> !s.workers[v].phase.Holds(c.id, fence)
    requires forall i :: 0 <= i < |s.handled| && s.handled[i].0 == c.id ==> s.handled[i].1 < fence
    ensures SysInv(Enter(s, w, Handling(c, fence)).(handled := s.handled + [(c.id, fence)]))
  {
    hide PipelineSafety.Inv, HandledInOrder, AckedCompleted, OneHolderPerFence, WorkersOk;
    EnterKeeps(s, w, Handling(c, fence));
    HandledGrows(s.db.executions, s.handled, c.id, fence);
  }

  lemma DeliverKeeps(s: System, w: WorkerId, transport: Transport, message: Command)
    requires SysInv(s) && PhaseOf(s, w).Idle?
    ensures SysInv(Step(s, Deliver(w, transport, message)))
  {
    hide SysInv, PipelineSafety.Apply;
    if Matches(s.db, message) {
      var claimed := OnDb(s, PipelineSafety.ClaimOp(message.id, LEASE))
                     .(workers := s.workers[w := Worker(transport, Idle)]);
      ClaimKeeps(s, w, Worker(transport, Idle), message.id);
      match Claim(s.db.executions, message.id, true, s.db.now, LEASE).1 {
        case None =>
          ClaimRefused(s, message.id);
          EnterKeeps(claimed, w, Refused(message));
        case Some(fence) =>
          ClaimIsFresh(s, message.id, fence);
          if fence > MAX_ATTEMPTS {
            EnterKeeps(claimed, w, OverBudget(message, fence));
          } else {
            HandleKeeps(claimed, w, message, fence);
          }
      }
    }
  }

  lemma HandledGrows(e: Executions, handled: seq<(CommandId, nat)>, id: CommandId, fence: nat)
    requires HandledInOrder(e, handled) && id in e && e[id].fence == fence && 1 <= fence <= MAX_ATTEMPTS
    requires forall i :: 0 <= i < |handled| && handled[i].0 == id ==> handled[i].1 < fence
    ensures HandledInOrder(e, handled + [(id, fence)])
  {
  }

  lemma DeadLetterKeeps(s: System, w: WorkerId, message: Command)
    requires SysInv(s) && PhaseOf(s, w).Idle?
    ensures SysInv(Step(s, DeadLetter(w, message)))
  {
    if Matches(s.db, message) {
      match Claim(s.db.executions, message.id, true, s.db.now, LEASE).1 {
        case None =>
        case Some(fence) =>
          ClaimIsFresh(s, message.id, fence);
          DbStepKeeps(s, PipelineSafety.ClaimOp(message.id, LEASE));
          hide SysInv, PipelineSafety.Apply;
          EnterKeeps(OnDb(s, PipelineSafety.ClaimOp(message.id, LEASE)), w, OverBudget(message, fence));
      }
    }
  }

  lemma AckKeeps(s: System, id: CommandId)
    requires SysInv(s) && IsCompleted(s.db.executions, id)
    ensures SysInv(s.(acked := s.acked + {id}))
  {
    hide PipelineSafety.Inv, WorkersOk, OneHolderPerFence, HandledInOrder;
  }

  /** A database step of the worker, then its next phase. */
  lemma DbThenMove(s: System, w: WorkerId, op: PipelineSafety.Op, p: Phase)
    requires SysInv(s) && w in s.workers && WorkerOk(s.db, p) && PipelineSafety.Legal(s.db, op)
    requires forall id, f :: p.Holds(id, f) ==> s.workers[w].phase.Holds(id, f)
    ensures SysInv(Enter(OnDb(s, op), w, p))
  {
    DbStepKeeps(s, op);
    hide SysInv, PipelineSafety.Apply, PipelineSafety.Legal;
    MoveKeeps(OnDb(s, op), w, p);
  }

  lemma StepKeeps(s: System, a: Action)
    requires SysInv(s) && Enabled(s, a)
    ensures SysInv(Step(s, a))
  {
    match a
    case Environment(op) => DbStepKeeps(s, op);
    case Deliver(w, transport, message) => DeliverKeeps(s, w, transport, message);
    case DeadLetter(w, message) => DeadLetterKeeps(s, w, message);
    case Work(w, op) => DbStepKeeps(s, op);
    case Crash(w) => CrashKeeps(s, w);
    case _ => OwnStepKeeps(s, a);
  }

  lemma CrashKeeps(s: System, w: WorkerId)
    requires SysInv(s)
    ensures SysInv(Enter(s, w, Idle))
  {
    hide SysInv;
    EnterKeeps(s, w, Idle);
  }

  lemma OwnStepKeeps(s: System, a: Action)
    requires SysInv(s) && Enabled(s, a)
    requires a.Answer? || a.Exhaust? || a.Return? || a.CheckResult? || a.Catch? || a.Close?
    ensures SysInv(Step(s, a))
  {
    var p := PhaseOf(s, a.w);
    assert WorkerOk(s.db, p);
    hide SysInv, PipelineSafety.Apply;
    if IsCompleted(s.db.executions, p.command.id) {
      AckKeeps(s, p.command.id);
    }
    var acked := s.(acked := s.acked + {p.command.id});
    match a
    case Answer(w) => MoveKeeps(if IsCompleted(s.db.executions, p.command.id) then acked else s, w, Idle);
    case Exhaust(w) => DbThenMove(s, w, PipelineSafety.FailOp(p.command, p.fence), Idle);
    case Return(w, committed) =>
        MoveKeeps(s, w, if committed then Returned(p.command, p.fence) else Catching(p.command, p.fence));
    case CheckResult(w, answered) =>
      if answered && IsCompleted(s.db.executions, p.command.id) { MoveKeeps(acked, w, Closing(p.command, p.fence)); }
      else { MoveKeeps(s, w, Catching(p.command, p.fence)); }
    case Catch(w, giveUp, answered) =>
      if answered && IsCompleted(s.db.executions, p.command.id) && s.workers[w].transport.BullQueue? {
        MoveKeeps(acked, w, Closing(p.command, p.fence));
      }
      else if giveUp { DbThenMove(s, w, PipelineSafety.FailOp(p.command, p.fence), Closing(p.command, p.fence)); }
      else if s.workers[w].transport.RedisQueue? {
        DbThenMove(s, w, PipelineSafety.ReleaseOp(p.command.id, p.fence), Closing(p.command, p.fence));
      }
      else { MoveKeeps(s, w, Closing(p.command, p.fence)); }
    case Close(w, release) =>
      if release {
        DbThenMove(s, w, PipelineSafety.ReleaseOp(p.command.id, p.fence), Idle);
      } else {
        MoveKeeps(s, w, Idle);
      }
  }

  // ---------------------------------------------------------------------------------------------
  // Whole runs of the system.

  ghost function At(actions: seq<Action>): System {
    After(Start, Step, actions)
  }

  ghost predicate LegalActions(actions: seq<Action>) {
    LegalRun(Start, Step, Enabled, actions)
  }

  lemma ReachableInv(actions: seq<Action>)
    requires LegalActions(actions)
    ensures SysInv(At(actions))
  {
    assert SysInv(Start);
    hide SysInv, Step, Enabled;
    forall s, a | SysInv(s) && Enabled(s, a) ensures SysInv(Step(s, a)) {
      StepKeeps(s, a);
    }
    InvariantHolds(Start, Step, Enabled, SysInv, actions);
  }

  function RunsOf(id: CommandId): ((CommandId, nat)) -> bool {
    (h: (CommandId, nat)) => h.0 == id
  }

  /** The fences of one command's handler runs, in order, climb from at least 1. */
  lemma {:induction false} FencesClimb(e: Executions, handled: seq<(CommandId, nat)>, id: CommandId)
    requires HandledInOrder(e, handled)
    ensures var mine := Filter(handled, RunsOf(id)); mine != [] ==> |mine| <= mine[|mine| - 1].1 <= MAX_ATTEMPTS
    ensures var mine := Filter(handled, RunsOf(id));
            mine != [] ==> mine[|mine| - 1] in handled && mine[|mine| - 1].0 == id
    decreases |handled|
  {
    if handled != [] {
      var front := handled[..|handled| - 1];
      FencesClimb(e, front, id);
    }
  }

  /** In every run, the handler is invoked at most five times per command, over all workers and both transports. */
  lemma HandlerRunsAtMostFive(actions: seq<Action>, id: CommandId)
    requires LegalActions(actions)
    ensures |Filter(At(actions).handled, RunsOf(id))| <= MAX_ATTEMPTS
  {
    ReachableInv(actions);
    FencesClimb(At(actions).db.executions, At(actions).handled, id);
  }

  /** A message is acknowledged only for a command that is durably completed, whose run is over. */
  lemma AcknowledgedIsDone(actions: seq<Action>, id: CommandId)
    requires LegalActions(actions) && id in At(actions).acked && PipelineSafety.IsSearch(At(actions).db.outbox, id)
    ensures IsCompleted(At(actions).db.executions, id)
    ensures PipelineSafety.Finished(At(actions).db, At(actions).db.outbox[id].command.aggregateId)
  {
    ReachableInv(actions);
    PipelineSafety.LiveCommand(At(actions).db, id);
  }

  /** Two workers never hold the live lease of one command at once. */
  lemma MutualExclusion(actions: seq<Action>, v: WorkerId, w: WorkerId, id: CommandId, f: nat, g: nat)
    requires LegalActions(actions)
    requires var s := At(actions);
             && v in s.workers && s.workers[v].phase.Holds(id, f) && Owns(s.db.executions, id, f, s.db.now)
             && w in s.workers && s.workers[w].phase.Holds(id, g) && Owns(s.db.executions, id, g, s.db.now)
    ensures v == w
  {
    ReachableInv(actions);
  }
}
