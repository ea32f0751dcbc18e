/**
 * Safety of the command pipeline over whole runs: any sequence of committed or rolled back
 * transactions, by any number of workers, with any commands and fences as arguments.
 */
module PipelineSafety {
  import opened Prelude
  import opened Leases
  import opened Sightings
  import opened SearchPipeline
  import opened Runs

  /** One transaction. Parse commands share the outbox and the executions with searches. */
  datatype Op =
    | CreateOp(owner: OwnerId, key: string, request: Request, profileHasTitles: bool, run: RunId, commandId: CommandId)
    | PublishOp(id: CommandId)
    | ClaimOp(id: CommandId, lease: nat)
    | RenewOp(id: CommandId, fence: nat, lease: nat)
    | ReleaseOp(id: CommandId, fence: nat)
    | StartOp(c: Command, fence: nat)
    | CompleteOp(c: Command, fence: nat, ps: seq<Posting>)
    | CollectOp(c: Command, fence: nat, ps: seq<Posting>, outcomes: seq<SourceOutcome>)
    | FailOp(c: Command, fence: nat)
    | CancelOp(owner: OwnerId, run: RunId)
    | StoreParseOp(id: CommandId, upload: nat, owner: OwnerId)
    | CloseParseOp(c: Command, fence: nat, failed: bool)
    | TickOp(elapsed: nat)

  ghost function Apply(s: State, op: Op): State {
    match op
    case CreateOp(owner, key, request, titles, run, id) => AfterCreateSearch(s, owner, key, request, titles, run, id).0
    case PublishOp(id) => if id in s.outbox then s.(outbox := s.outbox[id := s.outbox[id].(publishedAt := Some(s.now))])
        else s
    case ClaimOp(id, lease) => s.(executions := Claim(s.executions, id, id in s.outbox, s.now, lease).0)
    case RenewOp(id, fence, lease) => s.(executions := Renew(s.executions, id, fence, s.now, lease))
    case ReleaseOp(id, fence) => s.(executions := Release(s.executions, id, fence, s.now))
    case StartOp(c, fence) => AfterStartSearch(s, c, fence).0
    case CompleteOp(c, fence, ps) => AfterComplete(s, c, fence, ps).0
    case CollectOp(c, fence, ps, outcomes) => AfterCompleteCollection(s, c, fence, ps, outcomes).0
    case FailOp(c, fence) => AfterFail(s, c, fence).0
    case CancelOp(owner, run) => AfterCancelSearch(s, owner, run).0
    case StoreParseOp(id, upload, owner) =>
      s.(outbox := s.outbox[id := OutboxRow(Command(id, ResumeParse, upload, owner, s.now), s.now, None)])
    case CloseParseOp(c, fence, failed) =>
      if c.kind.ResumeParse? && OwnsCommand(s, c, fence)
      then s.(executions := s.executions[c.id := s.executions[c.id].(
                status := if failed then ExecFailed else ExecCompleted)])
      else s
    case TickOp(elapsed) => s.(now := s.now + elapsed)
  }

  /** Random identifiers are fresh. */
  predicate Legal(s: State, op: Op) {
    match op
    case CreateOp(_, _, _, _, run, id) => run !in s.runs && id !in s.outbox
    case StoreParseOp(id, _, _) => id !in s.outbox
    case _ => true
  }

  // ---------------------------------------------------------------------------------------------
  // The invariant.

  function LogOf(events: seq<RunEvent>, run: RunId): seq<EventKind> {
    if events == [] then []
    else LogOf(events[..|events| - 1], run)
         + (if events[|events| - 1].run == run then [events[|events| - 1].kind] else [])
  }

  lemma LogOfAppend(events: seq<RunEvent>, e: RunEvent, run: RunId)
    ensures LogOf(events + [e], run) == LogOf(events, run) + (if e.run == run then [e.kind] else [])
  {
    assert (events + [e])[..|events|] == events;
  }

  /** Queued first, started at most once, and at most one terminal event, last, matching the status. */
  predicate LogMatches(log: seq<EventKind>, status: RunStatus) {
    match status
    case Queued => log == [SearchQueued]
    case Running => log == [SearchQueued, SearchStarted]
    case _ => log == [SearchQueued, EventFor(status)] || log == [SearchQueued, SearchStarted, EventFor(status)]
  }

  predicate IsSearch(outbox: map<CommandId, OutboxRow>, id: CommandId) {
    id in outbox && outbox[id].command.kind.SearchCollect?
  }

  /** Every search command belongs to a run of the same owner, and every run has exactly one. */
  ghost predicate CommandsMatchRuns(outbox: map<CommandId, OutboxRow>, runs: map<RunId, RunRow>) {
    && (forall id :: id in outbox ==> outbox[id].command.id == id)
    && (forall id :: IsSearch(outbox, id) ==> SearchLinked(outbox[id].command, runs))
    && (forall run :: run in runs ==> |CommandsFor(outbox, runs[run].owner, run)| == 1)
  }

  predicate SearchLinked(c: Command, runs: map<RunId, RunRow>) {
    c.aggregateId in runs && runs[c.aggregateId].owner == c.ownerId
  }

  /** The execution of a search command is finished exactly when its run is. */
  ghost predicate FinishedTogether(outbox: map<CommandId, OutboxRow>, e: Executions, runs: map<RunId, RunRow>) {
    forall id :: IsSearch(outbox, id) && SearchLinked(outbox[id].command, runs) ==>
        InStep(e, id, runs[outbox[id].command.aggregateId])
  }

  predicate InStep(e: Executions, id: CommandId, run: RunRow) {
    && (Terminal(e, id) <==> !run.status.Live())
    && (run.status.Running? ==> id in e)
    && (id in e && e[id].status.ExecFailed? ==> run.status.Failed? && run.outcomes.None?)
  }

  predicate ExecutionsStored(outbox: map<CommandId, OutboxRow>, e: Executions) {
    e.Keys <= outbox.Keys
  }

  ghost predicate LogsMatch(events: seq<RunEvent>, runs: map<RunId, RunRow>) {
    forall run :: if run in runs then LogMatches(LogOf(events, run), runs[run].status) else LogOf(events, run) == []
  }

  /** Only completed and partial runs have jobs: a failed or cancelled run never shows any. */
  ghost predicate JobsOnlyOfResults(jobs: map<(RunId, Fingerprint), Posting>, runs: map<RunId, RunRow>) {
    forall k :: k in jobs ==> k.0 in runs && (runs[k.0].status.Completed? || runs[k.0].status.Partial?)
  }

  ghost predicate Inv(s: State) {
    && CommandsMatchRuns(s.outbox, s.runs)
    && FinishedTogether(s.outbox, s.executions, s.runs)
    && ExecutionsStored(s.outbox, s.executions)
    && FencesCountAttempts(s.executions)
    && LogsMatch(s.events, s.runs)
    && JobsOnlyOfResults(s.jobs, s.runs)
  }

  // ---------------------------------------------------------------------------------------------
  // Every transaction keeps it.

  /** Runs keep their owner and request, and finished runs keep everything. */
  ghost predicate RunsAdvance(runs: map<RunId, RunRow>, runs': map<RunId, RunRow>) {
    forall r :: r in runs ==>
      && r in runs' && runs'[r].owner == runs[r].owner && runs'[r].request == runs[r].request
      && (!runs[r].status.Live() ==> runs'[r] == runs[r])
  }

  ghost predicate CommandsStay(outbox: map<CommandId, OutboxRow>, outbox': map<CommandId, OutboxRow>) {
    forall id :: id in outbox ==> id in outbox' && outbox'[id].command == outbox[id].command
  }

  /** What holds of any two states of a run, the second one later. */
  ghost predicate Step(s: State, s': State) {
    && Advances(s.executions, s'.executions)
    && RunsAdvance(s.runs, s'.runs)
    && CommandsStay(s.outbox, s'.outbox)
    && s.events <= s'.events
    && s.now <= s'.now
  }

  lemma StepRefl(s: State)
    ensures Step(s, s)
  {
  }

  // Per table, over the values that change.

  /** One more event, and the run's status moves with it. */
  lemma LogsAppend(events: seq<RunEvent>, runs: map<RunId, RunRow>, run: RunId, row: RunRow, kind: EventKind)
    requires LogsMatch(events, runs)
    requires LogMatches(LogOf(events, run) + [kind], row.status)
    ensures LogsMatch(events + [RunEvent(run, row.owner, kind)], runs[run := row])
  {
    var e, runs' := RunEvent(run, row.owner, kind), runs[run := row];
    forall r
      ensures if r in runs' then LogMatches(LogOf(events + [e], r), runs'[r].status) else LogOf(events + [e], r) == []
    {
      LogOfAppend(events, e, r);
      assert if r in runs then LogMatches(LogOf(events, r), runs[r].status) else LogOf(events, r) == [];
    }
  }

  /** A live run that starts or finishes logs exactly that. */
  lemma LogsMove(events: seq<RunEvent>, runs: map<RunId, RunRow>, run: RunId, row: RunRow, kind: EventKind)
    requires LogsMatch(events, runs) && run in runs && runs[run].status.Live()
    requires if row.status.Running? then runs[run].status.Queued? && kind.SearchStarted?
             else !row.status.Live() && kind == EventFor(row.status)
    ensures LogsMatch(events + [RunEvent(run, row.owner, kind)], runs[run := row])
  {
    assert LogMatches(LogOf(events, run), runs[run].status);
    LogsAppend(events, runs, run, row, kind);
  }

  lemma CreateLinks(outbox: map<CommandId, OutboxRow>, runs: map<RunId, RunRow>, r: OutboxRow, row: RunRow)
    requires CommandsMatchRuns(outbox, runs)
    requires r.command.kind.SearchCollect? && r.command.id !in outbox && r.command.aggregateId !in runs
             && row.owner == r.command.ownerId
    ensures CommandsMatchRuns(outbox[r.command.id := r], runs[r.command.aggregateId := row])
  {
    var c := r.command;
    var outbox', runs' := outbox[c.id := r], runs[c.aggregateId := row];
    forall run | run in runs' ensures |CommandsFor(outbox', runs'[run].owner, run)| == 1 {
      if run == c.aggregateId {
        assert forall id :: IsSearch(outbox, id) ==> SearchLinked(outbox[id].command, runs);
        assert forall id :: IsSearch(outbox, id) ==> outbox[id].command.aggregateId != run;
        assert CommandsFor(outbox', row.owner, run) == {c.id};
      } else {
        assert CommandsFor(outbox', runs[run].owner, run) == CommandsFor(outbox, runs[run].owner, run);
      }
    }
  }

  /** Outbox changes that add no search command and change none. */
  lemma OutboxLinks(outbox: map<CommandId, OutboxRow>, outbox': map<CommandId, OutboxRow>, runs: map<RunId, RunRow>)
    requires CommandsMatchRuns(outbox, runs) && CommandsStay(outbox, outbox')
    requires forall id :: id in outbox' && id !in outbox ==>
             outbox'[id].command.id == id && !outbox'[id].command.kind.SearchCollect?
    ensures CommandsMatchRuns(outbox', runs)
  {
    forall r | r in runs ensures |CommandsFor(outbox', runs[r].owner, r)| == 1 {
      assert CommandsFor(outbox', runs[r].owner, r) == CommandsFor(outbox, runs[r].owner, r);
    }
  }

  /** Two search commands of one run are the same command. */
  lemma OneCommandPerRun(outbox: map<CommandId, OutboxRow>, runs: map<RunId, RunRow>, i: CommandId, j: CommandId)
    requires CommandsMatchRuns(outbox, runs) && IsSearch(outbox, i) && IsSearch(outbox, j)
    requires outbox[i].command.aggregateId == outbox[j].command.aggregateId
    ensures i == j
  {
    var c := outbox[i].command;
    assert SearchLinked(c, runs) && SearchLinked(outbox[j].command, runs);
    var ids := CommandsFor(outbox, c.ownerId, c.aggregateId);
    assert i in ids && j in ids && |ids| == 1;
    assert |ids - {i}| == 0;
  }

  /** A run row changes, and one search execution with it: the pair stays in step. */
  lemma PairMoves(outbox: map<CommandId, OutboxRow>, e: Executions, runs: map<RunId, RunRow>, id: CommandId,
                  e': Executions, row: RunRow)
    requires CommandsMatchRuns(outbox, runs) && FinishedTogether(outbox, e, runs) && IsSearch(outbox, id)
    requires forall j :: j != id ==> (j in e' <==> j in e) && (j in e ==> e'[j] == e[j])
    requires InStep(e', id, row)
    ensures FinishedTogether(outbox, e', runs[outbox[id].command.aggregateId := row])
  {
    var run := outbox[id].command.aggregateId;
    var runs' := runs[run := row];
    forall j | IsSearch(outbox, j) && SearchLinked(outbox[j].command, runs')
      ensures InStep(e', j, runs'[outbox[j].command.aggregateId])
    {
      assert SearchLinked(outbox[j].command, runs);
      if outbox[j].command.aggregateId == run {
        OneCommandPerRun(outbox, runs, id, j);
      } else {
        assert InStep(e, j, runs[outbox[j].command.aggregateId]);
      }
    }
  }

  lemma RowReplaced(outbox: map<CommandId, OutboxRow>, runs: map<RunId, RunRow>, run: RunId, row: RunRow)
    requires CommandsMatchRuns(outbox, runs) && run in runs && runs[run].status.Live()
    requires row.owner == runs[run].owner && row.request == runs[run].request
    ensures CommandsMatchRuns(outbox, runs[run := row]) && RunsAdvance(runs, runs[run := row])
  {
    assert forall id :: IsSearch(outbox, id) && SearchLinked(outbox[id].command, runs) ==>
        SearchLinked(outbox[id].command, runs[run := row]);
  }

  lemma {:induction false} StoreJobsAddsOnly(jobs: map<(RunId, Fingerprint), Posting>, run: RunId, ps: seq<Posting>)
    ensures forall k :: k in StoreJobs(jobs, run, ps) ==> k in jobs || (k.0 == run && ps != [])
    ensures forall k :: k in jobs ==> k in StoreJobs(jobs, run, ps) && StoreJobs(jobs, run, ps)[k] == jobs[k]
    decreases |ps|
  {
    if ps != [] {
      StoreJobsAddsOnly(jobs, run, ps[..|ps| - 1]);
    }
  }

  lemma JobsKept(jobs: map<(RunId, Fingerprint), Posting>, runs: map<RunId, RunRow>, run: RunId,
                 ps: seq<Posting>, row: RunRow)
    requires JobsOnlyOfResults(jobs, runs) && (run in runs ==> runs[run].status.Live())
    requires ps != [] ==> row.status.Completed? || row.status.Partial?
    ensures JobsOnlyOfResults(StoreJobs(jobs, run, ps), runs[run := row])
  {
    StoreJobsAddsOnly(jobs, run, ps);
  }

  // Per transaction.

  lemma FreshRunLogs(events: seq<RunEvent>, runs: map<RunId, RunRow>, run: RunId, row: RunRow)
    requires LogsMatch(events, runs) && run !in runs && row.status.Queued?
    ensures LogsMatch(events + [RunEvent(run, row.owner, SearchQueued)], runs[run := row])
  {
    assert LogOf(events, run) == [];
    LogsAppend(events, runs, run, row, SearchQueued);
  }

  lemma CreateKeeps(s: State, op: Op)
    requires Inv(s) && op.CreateOp? && Legal(s, op)
    ensures Inv(Apply(s, op)) && Step(s, Apply(s, op))
  {
    hide CommandsMatchRuns, ExecutionsStored, FinishedTogether, FencesCountAttempts, LogsMatch, JobsOnlyOfResults,
        RunsAdvance, CommandsStay, Advances;
    StepRefl(s);
    if Apply(s, op) != s {
      var row := RunRow(op.owner, op.key, op.request, Queued, None);
      var sent := OutboxRow(Command(op.commandId, SearchCollect, op.run, op.owner, s.now), s.now, None);
      FreshRunLogs(s.events, s.runs, op.run, row);
      CreateLinks(s.outbox, s.runs, sent, row);
      JobsKept(s.jobs, s.runs, op.run, [], row);
      CreateInStep(s.outbox, s.executions, s.runs, sent, row);
    }
  }

  lemma CreateInStep(outbox: map<CommandId, OutboxRow>, e: Executions, runs: map<RunId, RunRow>, r: OutboxRow,
                     row: RunRow)
    requires CommandsMatchRuns(outbox, runs) && FinishedTogether(outbox, e, runs) && ExecutionsStored(outbox, e)
    requires r.command.id !in outbox && r.command.aggregateId !in runs && row.status.Queued?
    ensures FinishedTogether(outbox[r.command.id := r], e, runs[r.command.aggregateId := row])
    ensures ExecutionsStored(outbox[r.command.id := r], e)
    ensures CommandsStay(outbox, outbox[r.command.id := r]) && RunsAdvance(runs, runs[r.command.aggregateId := row])
  {
    var outbox', runs' := outbox[r.command.id := r], runs[r.command.aggregateId := row];
    forall id | IsSearch(outbox', id) && SearchLinked(outbox'[id].command, runs')
      ensures InStep(e, id, runs'[outbox'[id].command.aggregateId])
    {
      if id != r.command.id {
        assert IsSearch(outbox, id) && SearchLinked(outbox[id].command, runs);
        assert InStep(e, id, runs[outbox[id].command.aggregateId]);
      }
    }
  }

  lemma OutboxInStep(outbox: map<CommandId, OutboxRow>, outbox': map<CommandId, OutboxRow>, e: Executions,
                     runs: map<RunId, RunRow>)
    requires FinishedTogether(outbox, e, runs) && ExecutionsStored(outbox, e) && CommandsStay(outbox, outbox')
    requires forall id :: id in outbox' && id !in outbox ==> !outbox'[id].command.kind.SearchCollect?
    ensures FinishedTogether(outbox', e, runs) && ExecutionsStored(outbox', e)
  {
    assert forall id :: IsSearch(outbox', id) ==> IsSearch(outbox, id) && outbox'[id].command == outbox[id].command;
  }

  lemma OutboxKeeps(s: State, outbox': map<CommandId, OutboxRow>)
    requires Inv(s) && CommandsStay(s.outbox, outbox')
    requires forall id :: id in outbox' && id !in s.outbox ==>
             outbox'[id].command.id == id && !outbox'[id].command.kind.SearchCollect?
    ensures Inv(s.(outbox := outbox')) && Step(s, s.(outbox := outbox'))
  {
    hide CommandsMatchRuns, ExecutionsStored, FinishedTogether, FencesCountAttempts, LogsMatch, JobsOnlyOfResults,
        RunsAdvance, CommandsStay, Advances;
    StepRefl(s);
    OutboxLinks(s.outbox, outbox', s.runs);
    OutboxInStep(s.outbox, outbox', s.executions, s.runs);
  }

  /** Execution changes that finish no search command. */
  lemma LeasesKeep(s: State, e: Executions)
    requires Inv(s) && LeaseChange(s.executions, e, s.outbox.Keys)
    ensures Inv(s.(executions := e)) && Step(s, s.(executions := e))
  {
    hide CommandsMatchRuns, LogsMatch, JobsOnlyOfResults, RunsAdvance, CommandsStay;
    StepRefl(s);
  }

  lemma LeaseOpKeeps(s: State, op: Op)
    requires Inv(s) && (op.ClaimOp? || op.RenewOp? || op.ReleaseOp?)
    ensures Inv(Apply(s, op)) && Step(s, Apply(s, op))
  {
    match op {
      case ClaimOp(id, lease) => ClaimIsLeaseChange(s.executions, id, s.outbox.Keys, s.now, lease);
      case RenewOp(id, fence, lease) => RenewIsLeaseChange(s.executions, id, fence, s.outbox.Keys, s.now, lease);
      case ReleaseOp(id, fence) => ReleaseIsLeaseChange(s.executions, id, fence, s.outbox.Keys, s.now);
    }
    hide Inv, Step, LeaseChange;
    LeasesKeep(s, Apply(s, op).executions);
  }

  /** Settling a parse command leaves every search command alone. */
  lemma CloseParseKeeps(s: State, c: Command, fence: nat, failed: bool)
    requires Inv(s)
    ensures Inv(Apply(s, CloseParseOp(c, fence, failed))) && Step(s, Apply(s, CloseParseOp(c, fence, failed)))
  {
    hide CommandsMatchRuns, LogsMatch, JobsOnlyOfResults, RunsAdvance, CommandsStay;
    StepRefl(s);
    if c.kind.ResumeParse? && OwnsCommand(s, c, fence) {
      assert !IsSearch(s.outbox, c.id);
    }
  }

  lemma StartKeeps(s: State, c: Command, fence: nat)
    requires Inv(s)
    ensures Inv(AfterStartSearch(s, c, fence).0) && Step(s, AfterStartSearch(s, c, fence).0)
  {
    hide CommandsMatchRuns, ExecutionsStored, FinishedTogether, FencesCountAttempts, LogsMatch, JobsOnlyOfResults,
        RunsAdvance, CommandsStay, Advances;
    StepRefl(s);
    var s' := AfterStartSearch(s, c, fence).0;
    if s'.runs != s.runs {
      var row := s'.runs[c.aggregateId];
      LogsMove(s.events, s.runs, c.aggregateId, row, SearchStarted);
      RowReplaced(s.outbox, s.runs, c.aggregateId, row);
      PairMoves(s.outbox, s.executions, s.runs, c.id, s.executions, row);
      JobsKept(s.jobs, s.runs, c.aggregateId, [], row);
    }
  }

  /** A run and its execution finish in one transaction. */
  lemma FinishKeeps(s: State, id: CommandId, x: Execution, row: RunRow, ps: seq<Posting>)
    requires Inv(s) && IsSearch(s.outbox, id) && !row.status.Live() && !x.status.ExecRunning?
    requires var run := s.outbox[id].command.aggregateId;
             && run in s.runs && s.runs[run].status.Live() && row.owner == s.runs[run].owner
                && row.request == s.runs[run].request
             && !Terminal(s.executions, id)
    requires x.status.ExecFailed? ==> row.status.Failed? && row.outcomes.None?
    requires x.fence >= 1 && (id in s.executions ==> x.fence >= s.executions[id].fence)
    requires ps != [] ==> row.status.Completed? || row.status.Partial?
    ensures var run := s.outbox[id].command.aggregateId;
            && CommandsMatchRuns(s.outbox, s.runs[run := row]) && RunsAdvance(s.runs, s.runs[run := row])
            && LogsMatch(s.events + [RunEvent(run, row.owner, EventFor(row.status))], s.runs[run := row])
            && FinishedTogether(s.outbox, s.executions[id := x], s.runs[run := row])
            && FencesCountAttempts(s.executions[id := x]) && ExecutionsStored(s.outbox, s.executions[id := x])
            && Advances(s.executions, s.executions[id := x])
            && JobsOnlyOfResults(StoreJobs(s.jobs, run, ps), s.runs[run := row])
  {
    hide CommandsMatchRuns, FinishedTogether, FencesCountAttempts, LogsMatch, JobsOnlyOfResults, RunsAdvance, Advances,
        StoreJobs;
    var run := s.outbox[id].command.aggregateId;
    LogsMove(s.events, s.runs, run, row, EventFor(row.status));
    RowReplaced(s.outbox, s.runs, run, row);
    PairMoves(s.outbox, s.executions, s.runs, id, s.executions[id := x], row);
    JobsKept(s.jobs, s.runs, run, ps, row);
    FinishAdvances(s.executions, id, x);
  }

  /** What the invariant says about the command of a live run. */
  lemma LiveCommand(s: State, id: CommandId)
    requires Inv(s) && IsSearch(s.outbox, id)
    ensures var c := s.outbox[id].command; c.id == id && SearchLinked(c, s.runs)
    ensures s.runs[s.outbox[id].command.aggregateId].status.Live() <==> !Terminal(s.executions, id)
    ensures id in s.executions ==> s.executions[id].fence >= 1
  {
    hide LogsMatch, JobsOnlyOfResults;
    assert SearchLinked(s.outbox[id].command, s.runs);
    assert InStep(s.executions, id, s.runs[s.outbox[id].command.aggregateId]);
  }

  lemma CancelKeeps(s: State, owner: OwnerId, run: RunId)
    requires Inv(s)
    ensures Inv(AfterCancelSearch(s, owner, run).0) && Step(s, AfterCancelSearch(s, owner, run).0)
  {
    hide CommandsMatchRuns, ExecutionsStored, FinishedTogether, FencesCountAttempts, LogsMatch, JobsOnlyOfResults,
        RunsAdvance, CommandsStay, Advances;
    StepRefl(s);
    var (s', reply) := AfterCancelSearch(s, owner, run);
    if reply.CancelCommitted? {
      var id := Only(CommandsFor(s.outbox, owner, run));
      assert id in CommandsFor(s.outbox, owner, run);
      LiveCommand(s, id);
      FinishKeeps(s, id, s'.executions[id], s'.runs[run], []);
      assert s'.executions == s.executions[id := s'.executions[id]];
    }
  }

  lemma SettleKeeps(s: State, c: Command, fence: nat, ps: seq<Posting>, status: RunStatus,
                    outcomes: Option<seq<SourceOutcome>>)
    requires Inv(s) && status in {Completed, Partial, Failed} && (status.Failed? ==> ps == [])
    ensures Inv(AfterSettle(s, c, fence, ps, status, outcomes).0)
            && Step(s, AfterSettle(s, c, fence, ps, status, outcomes).0)
  {
    hide CommandsMatchRuns, ExecutionsStored, FinishedTogether, FencesCountAttempts, LogsMatch, JobsOnlyOfResults,
        RunsAdvance, CommandsStay, Advances;
    hide RecordAll, StoreJobs;
    StepRefl(s);
    var (s', reply) := AfterSettle(s, c, fence, ps, status, outcomes);
    if reply.SettleCommitted? {
      LiveCommand(s, c.id);
      FinishKeeps(s, c.id, s'.executions[c.id], s'.runs[c.aggregateId], ps);
    }
  }

  lemma CollectKeeps(s: State, c: Command, fence: nat, ps: seq<Posting>, outcomes: seq<SourceOutcome>)
    requires Inv(s)
    ensures Inv(AfterCompleteCollection(s, c, fence, ps, outcomes).0)
            && Step(s, AfterCompleteCollection(s, c, fence, ps, outcomes).0)
  {
    StepRefl(s);
    hide Inv, Step;
    if JobsMatchOutcomes(ps, outcomes) {
      SettleKeeps(s, c, fence, ps, CollectionStatus(ps, outcomes), Some(outcomes));
    }
  }

  lemma TickKeeps(s: State, elapsed: nat)
    requires Inv(s)
    ensures Inv(s.(now := s.now + elapsed)) && Step(s, s.(now := s.now + elapsed))
  {
    hide CommandsMatchRuns, FinishedTogether, FencesCountAttempts, LogsMatch, JobsOnlyOfResults, RunsAdvance,
        CommandsStay, Advances;
    StepRefl(s);
  }

  lemma PublishKeeps(s: State, id: CommandId, at: int)
    requires Inv(s) && id in s.outbox
    ensures var s' := s.(outbox := s.outbox[id := s.outbox[id].(publishedAt := Some(at))]); Inv(s') && Step(s, s')
  {
    hide Inv, Step;
    OutboxKeeps(s, s.outbox[id := s.outbox[id].(publishedAt := Some(at))]);
  }

  lemma StoreParseKeeps(s: State, row: OutboxRow)
    requires Inv(s) && row.command.id !in s.outbox && row.command.kind.ResumeParse?
    ensures Inv(s.(outbox := s.outbox[row.command.id := row])) && Step(s, s.(outbox := s.outbox[row.command.id := row]))
  {
    hide Inv, Step;
    OutboxKeeps(s, s.outbox[row.command.id := row]);
  }

  lemma ApplyKeeps(s: State, op: Op)
    requires Inv(s) && Legal(s, op)
    ensures Inv(Apply(s, op)) && Step(s, Apply(s, op))
  {
    hide Inv, Step, AfterSettle, AfterCompleteCollection, AfterStartSearch, AfterCancelSearch, AfterCreateSearch, Claim,
        Renew, Release;
    match op
    case CreateOp(_, _, _, _, _, _) => CreateKeeps(s, op);
    case StartOp(c, fence) => StartKeeps(s, c, fence);
    case CancelOp(owner, run) => CancelKeeps(s, owner, run);
    case CompleteOp(c, fence, ps) => SettleKeeps(s, c, fence, ps, Completed, None);
    case FailOp(c, fence) => SettleKeeps(s, c, fence, [], Failed, None);
    case CollectOp(c, fence, ps, outcomes) => CollectKeeps(s, c, fence, ps, outcomes);
    case PublishOp(id) => if id in s.outbox { PublishKeeps(s, id, s.now); } else { StepRefl(s); }
    case StoreParseOp(id, _, _) => StoreParseKeeps(s, Apply(s, op).outbox[id]);
    case TickOp(elapsed) => TickKeeps(s, elapsed);
    case CloseParseOp(c, fence, failed) => CloseParseKeeps(s, c, fence, failed);
    case _ => LeaseOpKeeps(s, op);
  }

  // ---------------------------------------------------------------------------------------------
  // Whole runs.

  ghost function At(ops: seq<Op>): State {
    After(Empty, Apply, ops)
  }

  ghost predicate LegalOps(ops: seq<Op>) {
    LegalRun(Empty, Apply, Legal, ops)
  }

  lemma EveryStepKeeps()
    ensures Kept(Apply, Legal, Inv) && Related(Apply, Legal, Inv, Step) && Inv(Empty)
  {
    assert Inv(Empty);
    hide Inv, Step, Apply, Legal;
    forall s, op | Inv(s) && Legal(s, op) ensures Inv(Apply(s, op)) && Step(s, Apply(s, op)) {
      ApplyKeeps(s, op);
    }
  }

  /** Every reachable state satisfies the invariant. */
  lemma ReachableInv(ops: seq<Op>)
    requires LegalOps(ops)
    ensures Inv(At(ops))
  {
    hide Inv, Step, Apply, Legal;
    EveryStepKeeps();
    InvariantHolds(Empty, Apply, Legal, Inv, ops);
  }

  lemma StepIsPreorder()
    ensures Preorder(Step)
  {
    forall a, b, c | Step(a, b) && Step(b, c) ensures Step(a, c) {
      assert forall id :: Terminal(a.executions, id) ==> Terminal(b.executions, id);
    }
  }

  /** Finished runs and executions, owners, commands and the event log survive any continuation of a run. */
  lemma RunsOnlyAdvance(ops: seq<Op>, n: nat)
    requires LegalOps(ops) && n <= |ops|
    ensures Step(At(ops[..n]), At(ops))
  {
    hide Inv, Step, Apply, Legal;
    EveryStepKeeps();
    StepIsPreorder();
    StatesRelated(Empty, Apply, Legal, Inv, Step, ops, n);
  }

  /** The transaction that ends run `run`: a settlement or a cancellation that committed. */
  ghost predicate Ends(s: State, op: Op, run: RunId) {
    match op
    case CompleteOp(c, fence, ps) => c.aggregateId == run && AfterComplete(s, c, fence, ps).1.SettleCommitted?
    case CollectOp(c, fence, ps, outcomes) => c.aggregateId == run
        && AfterCompleteCollection(s, c, fence, ps, outcomes).1.SettleCommitted?
    case FailOp(c, fence) => c.aggregateId == run && AfterFail(s, c, fence).1.SettleCommitted?
    case CancelOp(owner, r) => r == run && AfterCancelSearch(s, owner, r).1.CancelCommitted?
    case _ => false
  }

  predicate Finished(s: State, run: RunId) {
    run in s.runs && !s.runs[run].status.Live()
  }

  lemma EndsFinishes(s: State, op: Op, run: RunId)
    ensures if Ends(s, op, run) then !Finished(s, run) && Finished(Apply(s, op), run)
            else Finished(Apply(s, op), run) == Finished(s, run) || (op.CreateOp? && !Legal(s, op))
  {
  }

  /** At most one settle, fail or cancel ever commits per run, and exactly one has when the run is finished. */
  lemma EndedOnce(ops: seq<Op>, run: RunId)
    requires LegalOps(ops)
    ensures Count(Empty, Apply, (s, op) => Ends(s, op, run), ops) == if Finished(At(ops), run) then 1 else 0
  {
    EveryStepKeeps();
    hide Inv, Step, Apply, Ends;
    forall s, op | Inv(s) && Legal(s, op)
      ensures if Ends(s, op, run) then !Finished(s, run) && Finished(Apply(s, op), run)
              else Finished(Apply(s, op), run) == Finished(s, run)
    {
      EndsFinishes(s, op, run);
    }
    CountsOnce(Empty, Apply, Legal, Inv, (s, op) => Ends(s, op, run), s => Finished(s, run), ops);
  }

  // ---------------------------------------------------------------------------------------------
  // What each transaction answers and does.

  /** Nothing about any other run or command changes. */
  ghost predicate OnlyRun(s: State, s': State, run: RunId, id: CommandId) {
    && (forall r :: r != run ==> (r in s.runs <==> r in s'.runs) && (r in s.runs ==> s'.runs[r] == s.runs[r]))
    && (forall c :: c != id ==>
          && (c in s.executions <==> c in s'.executions)
          && (c in s.executions ==> s'.executions[c] == s.executions[c])
          && (c in s.outbox <==> c in s'.outbox) && (c in s.outbox ==> s'.outbox[c] == s.outbox[c]))
    && (forall k: (RunId, Fingerprint) :: k.0 != run ==>
          (k in s.jobs <==> k in s'.jobs) && (k in s.jobs ==> s'.jobs[k] == s.jobs[k]))
    && s'.now == s.now
  }

  /** A key that is new gets a queued run with one unsent command; a known key only answers. */
  lemma CreateAnswers(s: State, owner: OwnerId, key: string, request: Request, titles: bool, run: RunId, id: CommandId)
    requires run !in s.runs && id !in s.outbox
    ensures var (s', reply) := AfterCreateSearch(s, owner, key, request, titles, run, id);
            var known := (owner, key) in s.runKeys;
            && (reply == MissingTargetRoles <==> !known && request.useProfileTitles && !titles)
            && (reply == KeyReused <==>
                  known && !(s.runKeys[(owner, key)] in s.runs && s.runs[s.runKeys[(owner, key)]].request == request))
            && (known && !reply.KeyReused? ==> reply == Created(s.runKeys[(owner, key)]))
            && (known || !reply.Created? ==> s' == s)
            && (!known && reply.Created? ==>
                  && reply == Created(run) && OnlyRun(s, s', run, id) && s'.executions == s.executions
                  && run in s'.runs && s'.runs[run] == RunRow(owner, key, request, Queued, None)
                  && id in s'.outbox && s'.outbox[id].publishedAt == None && s'.outbox[id].createdAt == s.now
                  && s'.outbox[id].command == Command(id, SearchCollect, run, owner, s.now)
                  && s'.runKeys == s.runKeys[(owner, key) := run]
                  && s'.events == s.events + [RunEvent(run, owner, SearchQueued)]
                  && s'.jobs == s.jobs && s'.sightings == s.sightings)
  {
  }

  /** In every kept state the owner can cancel a run exactly as long as it is live. */
  lemma CancelAnswers(s: State, owner: OwnerId, run: RunId)
    requires Inv(s) && run in s.runs
    ensures var (s', reply) := AfterCancelSearch(s, owner, run);
            && (reply == NotOwned <==> s.runs[run].owner != owner)
            && (reply == AlreadySettled <==> s.runs[run].owner == owner && !s.runs[run].status.Live())
            && (reply == CancelCommitted <==> s.runs[run].owner == owner && s.runs[run].status.Live())
            && (reply != CancelCommitted ==> s' == s)
  {
    assert |CommandsFor(s.outbox, s.runs[run].owner, run)| == 1;
    hide Inv, CommandsFor, Only, CancelExecution;
  }

  /** That cancels the run, completes its command and says so in the log, and changes nothing else. */
  lemma CancelChanges(s: State, owner: OwnerId, run: RunId, id: CommandId)
    requires AfterCancelSearch(s, owner, run).1 == CancelCommitted && id in CommandsFor(s.outbox, owner, run)
    requires !Terminal(s.executions, id)
    ensures var s' := AfterCancelSearch(s, owner, run).0;
            && OnlyRun(s, s', run, id) && run in s.runs && s'.runs[run] == s.runs[run].(status := Cancelled)
            && id in s'.executions && s'.outbox == s.outbox
            && var e := if id in s.executions then s.executions[id] else Execution(ExecRunning, 0, 0, 0);
            && s'.executions[id] == Execution(ExecCompleted, e.fence + 1, e.attempts, s.now)
            && s'.events == s.events + [RunEvent(run, owner, SearchCancelled)]
            && s'.jobs == s.jobs && s'.sightings == s.sightings && s'.runKeys == s.runKeys
  {
    var commands := CommandsFor(s.outbox, owner, run);
    assert Only(commands) == id;
    hide CommandsFor, Only;
  }

  /** The live holder starts a queued search once; starting it again answers the same and changes nothing. */
  lemma StartAnswers(s: State, c: Command, fence: nat)
    requires Inv(s) && Matches(s, c) && Owns(s.executions, c.id, fence, s.now)
    ensures var (s', reply) := AfterStartSearch(s, c, fence);
            && reply == StartOk && s'.runs[c.aggregateId] == s.runs[c.aggregateId].(status := Running)
            && s' == s.(runs := s'.runs, events := s'.events) && OnlyRun(s, s', c.aggregateId, c.id)
            && if s.runs[c.aggregateId].status == Queued
               then s'.events == s.events + [RunEvent(c.aggregateId, c.ownerId, SearchStarted)] else s' == s
  {
    hide FencesCountAttempts, LogsMatch, JobsOnlyOfResults, CommandsFor;
    assert IsSearch(s.outbox, c.id);
  }

  /** The live holder's result is committed unless it names other sources than the request. */
  lemma SettleAnswers(s: State, c: Command, fence: nat, ps: seq<Posting>, status: RunStatus,
                      outcomes: Option<seq<SourceOutcome>>)
    requires Inv(s) && Matches(s, c) && Owns(s.executions, c.id, fence, s.now)
    ensures var (s', reply) := AfterSettle(s, c, fence, ps, status, outcomes);
            && c.aggregateId in s.runs
            && (reply == SettleCommitted <==>
                  (outcomes.Some? ==> forall source ::
                     source in s.runs[c.aggregateId].request.sources
                     <==> exists i :: 0 <= i < |outcomes.value| && outcomes.value[i].source == source))
            && (reply != SettleCommitted ==> reply == SettleConflict && s' == s)
  {
    hide FencesCountAttempts, LogsMatch, RecordAll, CommandsFor, StoreJobs, Sources, JobsOnlyOfResults;
    assert IsSearch(s.outbox, c.id);
    if outcomes.Some? { SourcesAre(outcomes.value, s.runs[c.aggregateId].request.sources); }
  }

  /** Then execution, run, jobs and log show it, and nothing else changes. */
  lemma SettleChanges(s: State, c: Command, fence: nat, ps: seq<Posting>, status: RunStatus,
                      outcomes: Option<seq<SourceOutcome>>)
    requires AfterSettle(s, c, fence, ps, status, outcomes).1 == SettleCommitted
    ensures var s' := AfterSettle(s, c, fence, ps, status, outcomes).0;
            && OnlyRun(s, s', c.aggregateId, c.id) && s'.outbox == s.outbox && s'.runKeys == s.runKeys
            && s'.runs[c.aggregateId] == s.runs[c.aggregateId].(status := status, outcomes := outcomes)
            && s'.executions[c.id].fence == fence
            && (IsFailed(s'.executions, c.id) <==> status == Failed && outcomes == None)
            && (IsCompleted(s'.executions, c.id) <==> status != Failed || outcomes != None)
  {
    hide RecordAll, StoreJobs, Sources, Observations;
    forall k { StoredJob(s.jobs, c.aggregateId, ps, k, 0); }
  }

  lemma SourcesAre(outcomes: seq<SourceOutcome>, sources: set<Source>)
    ensures sources == Sources(outcomes) <==> forall source ::
              source in sources <==> exists i :: 0 <= i < |outcomes| && outcomes[i].source == source
  {
    forall source
      ensures source in Sources(outcomes) <==> exists i :: 0 <= i < |outcomes| && outcomes[i].source == source
    {
      if source in Sources(outcomes) {
        var o :| o in outcomes && o.source == source;
        var i :| 0 <= i < |outcomes| && outcomes[i] == o;
      }
      if i :| 0 <= i < |outcomes| && outcomes[i].source == source { assert outcomes[i] in outcomes; }
    }
  }

  /** The ledger keeps what it had, and gets the first posting of this run with each new fingerprint; nothing else. */
  lemma {:induction false} StoredJob(jobs: map<(RunId, Fingerprint), Posting>, run: RunId, ps: seq<Posting>,
                                     k: (RunId, Fingerprint), i: int)
    ensures k in jobs ==> k in StoreJobs(jobs, run, ps) && StoreJobs(jobs, run, ps)[k] == jobs[k]
    ensures k !in jobs && k.0 == run && FirstPosting(ps, i, k.1) ==>
              k in StoreJobs(jobs, run, ps) && StoreJobs(jobs, run, ps)[k] == ps[i]
    ensures k !in jobs && (k.0 != run || forall j :: 0 <= j < |ps| ==> ps[j].fingerprint != k.1) ==>
              k !in StoreJobs(jobs, run, ps)
    decreases |ps|
  {
    if ps != [] {
      var n := |ps| - 1;
      StoredJob(jobs, run, ps[..n], k, i);
      assert forall j :: 0 <= j < n ==> ps[..n][j] == ps[j];
      if i == n && FirstPosting(ps, n, k.1) {
        assert forall j :: 0 <= j < |ps[..n]| ==> ps[..n][j].fingerprint != k.1;
      }
    }
  }

  predicate FirstPosting(ps: seq<Posting>, i: int, fingerprint: Fingerprint) {
    && 0 <= i < |ps| && ps[i].fingerprint == fingerprint
    && forall j :: 0 <= j < i ==> ps[j].fingerprint != fingerprint
  }

  /** How many postings came from a source. */
  function PostedBy(ps: seq<Posting>, source: Source): set<int> {
    set i | 0 <= i < |ps| && ps[i].source == source
  }

  lemma {:induction false} FromSourceCounts(ps: seq<Posting>, source: Source)
    ensures FromSource(ps, source) == |PostedBy(ps, source)|
    decreases |ps|
  {
    if ps != [] {
      var n := |ps| - 1;
      FromSourceCounts(ps[..n], source);
      assert PostedBy(ps, source) == PostedBy(ps[..n], source) + (if ps[n].source == source then {n} else {});
    }
  }

  /** Jobs are refused exactly when a source has more than it reported, or when one comes from a source without any. */
  lemma MismatchIff(s: State, c: Command, fence: nat, ps: seq<Posting>, outcomes: seq<SourceOutcome>)
    ensures AfterCompleteCollection(s, c, fence, ps, outcomes).1 == SettleMismatch <==>
              || (exists i :: 0 <= i < |outcomes| && |PostedBy(ps, outcomes[i].source)| > outcomes[i].accepted)
              || (exists i :: 0 <= i < |ps| && !Accepts(outcomes, ps[i].source))
              || (exists i, j :: 0 <= i < |ps| && 0 <= j < |ps[i].links| && !Accepts(outcomes, ps[i].links[j]))
    ensures forall source :: Accepts(outcomes, source) <==>
              exists i :: 0 <= i < |outcomes| && outcomes[i].source == source && outcomes[i].accepted > 0
  {
    forall source { FromSourceCounts(ps, source); }
    hide FromSource, PostedBy, RecordAll, StoreJobs;
  }

  // ---------------------------------------------------------------------------------------------
  // Stale holders.

  /** Without the current fence on a live lease, start, renew and every settlement change nothing at all. */
  lemma StaleHolderChangesNothing(s: State, c: Command, fence: nat, lease: nat, ps: seq<Posting>,
                                  outcomes: seq<SourceOutcome>)
    requires !Owns(s.executions, c.id, fence, s.now)
    ensures Apply(s, StartOp(c, fence)) == s
    ensures Apply(s, RenewOp(c.id, fence, lease)) == s
    ensures Apply(s, CompleteOp(c, fence, ps)) == s && Apply(s, CollectOp(c, fence, ps, outcomes)) == s
    ensures Apply(s, FailOp(c, fence)) == s && Apply(s, CloseParseOp(c, fence, true)) == s
  {
  }

  /** A stale fence also cannot release; only an expired holder of the current fence can still move its lease end. */
  lemma ReleaseByStaleFence(s: State, id: CommandId, fence: nat)
    requires !(id in s.executions && s.executions[id].status.ExecRunning? && s.executions[id].fence == fence)
    ensures Apply(s, ReleaseOp(id, fence)) == s
  {
    ReleaseChangesIff(s.executions, id, fence, s.now);
    assert s.(executions := s.executions) == s;
  }

  /**
   * The late release that still moves the lease happens: a search is created and claimed, and the holder
   * outlives its lease.
   */
  lemma LateReleaseIsReachable(owner: OwnerId, key: string, request: Request, run: RunId, id: CommandId)
    returns (ops: seq<Op>)
    ensures LegalOps(ops) && IsSearch(At(ops).outbox, id) && !Owns(At(ops).executions, id, 1, At(ops).now)
    ensures Apply(At(ops), ReleaseOp(id, 1)).executions != At(ops).executions
  {
    var create, claim, tick := CreateOp(owner, key, request, true, run, id), ClaimOp(id, LEASE), TickOp(LEASE + 1);
    var s1 := Apply(Empty, create);
    var s2 := Apply(s1, claim);
    var s3 := Apply(s2, tick);
    Extend(Empty, Apply, Legal, [], create);
    Extend(Empty, Apply, Legal, [create], claim);
    Extend(Empty, Apply, Legal, [create] + [claim], tick);
    assert [] + [create] == [create];
    assert At([]) == Empty && LegalOps([]);
    assert s3.executions == map[id := Execution(ExecRunning, 1, 1, LEASE)] && s3.now == LEASE + 1;
    ReleaseChangesIff(s3.executions, id, 1, s3.now);
    ops := [create] + [claim] + [tick];
  }

  /** A takeover or a cancellation makes the previous holder stale for good: no later state gives its fence back. */
  lemma FenceNeverReturns(ops: seq<Op>, n: nat, id: CommandId, fence: nat)
    requires LegalOps(ops) && n <= |ops| && id in At(ops[..n]).executions && fence < At(ops[..n]).executions[id].fence
    ensures !Owns(At(ops).executions, id, fence, At(ops).now)
  {
    RunsOnlyAdvance(ops, n);
  }

  // ---------------------------------------------------------------------------------------------
  // Progress.

  /** The holder of a live lease on a search can always fail it: no conflict is possible. */
  lemma LiveHolderCanFail(s: State, id: CommandId, fence: nat)
    requires Inv(s) && IsSearch(s.outbox, id) && Owns(s.executions, id, fence, s.now)
    ensures var c := s.outbox[id].command;
            && AfterFail(s, c, fence).1.SettleCommitted?
            && AfterFail(s, c, fence).0.runs[c.aggregateId].status.Failed?
            && Terminal(AfterFail(s, c, fence).0.executions, id)
  {
  }

  /** The holder of a live lease on a search can always start it, whatever attempt this is. */
  lemma LiveHolderCanStart(s: State, id: CommandId, fence: nat)
    requires Inv(s) && IsSearch(s.outbox, id) && Owns(s.executions, id, fence, s.now)
    ensures var c := s.outbox[id].command;
            AfterStartSearch(s, c, fence).1.StartOk?
                && AfterStartSearch(s, c, fence).0.runs[c.aggregateId].status.Running?
  {
  }

  /**
   * Nothing is stranded: an unfinished command without a live lease becomes due again two minutes after it
   * was sent.
   */
  lemma UnfinishedBecomesDue(s: State, id: CommandId, later: int)
    requires Inv(s) && IsSearch(s.outbox, id) && s.runs[s.outbox[id].command.aggregateId].status.Live()
    requires id in s.executions ==> s.executions[id].leaseUntil <= later
    requires s.outbox[id].publishedAt.Some? ==> s.outbox[id].publishedAt.value + 120000 < later
    ensures Due(s.(now := later), id)
  {
  }

  /**
   * When a search command is sent: at once, and again whenever it was sent over two minutes ago, its search is not
   * finished, and nobody holds its lease.
   */
  lemma DueIff(s: State, id: CommandId)
    requires Inv(s) && IsSearch(s.outbox, id)
    ensures Due(s, id) <==>
              || s.outbox[id].publishedAt == None
              || (&& s.outbox[id].publishedAt.value + 120000 < s.now
                  && s.runs[s.outbox[id].command.aggregateId].status in {Queued, Running}
                  && !(id in s.executions && s.executions[id].leaseUntil > s.now))
  {
    hide LogsMatch, JobsOnlyOfResults, FencesCountAttempts, CommandsFor;
  }

  /** And a finished command that was sent is never sent again. */
  lemma FinishedIsNeverDue(s: State, id: CommandId)
    requires Inv(s) && IsSearch(s.outbox, id) && !s.runs[s.outbox[id].command.aggregateId].status.Live()
    requires s.outbox[id].publishedAt.Some?
    ensures !Due(s, id)
  {
  }
}
