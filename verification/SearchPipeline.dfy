/**
 * The command pipeline of packages/core/src/database.ts: creating and cancelling searches, fenced
 * leases, and the single settle path. `State` is the value of the tables; the ghost functions say
 * what one committed (or rolled back) transaction does to it, and class `Database` carries out each
 * transaction statement by statement.
 */
module SearchPipeline {
  import opened Prelude
  import opened Leases
  import opened Sightings

  datatype Kind = SearchCollect | ResumeParse | OtherKind

  datatype Command = Command(id: CommandId, kind: Kind, aggregateId: RunId, ownerId: OwnerId, occurredAt: int)

  datatype OutboxRow = OutboxRow(command: Command, createdAt: int, publishedAt: Option<int>)

  datatype RunStatus = Queued | Running | Completed | Partial | Failed | Cancelled {
    predicate Live() { Queued? || Running? }
  }

  datatype Request = Request(query: string, useProfileTitles: bool, sources: set<Source>)

  datatype OutcomeStatus = SourceCompleted | SourceEmpty | SourceFailed

  datatype SourceOutcome = SourceOutcome(source: Source, status: OutcomeStatus, accepted: nat)

  /** `requestHash` is a digest of the canonical request, so the request itself stands for it. */
  datatype RunRow = RunRow(owner: OwnerId, key: string, request: Request, status: RunStatus,
                           outcomes: Option<seq<SourceOutcome>>)

  datatype EventKind = SearchQueued | SearchStarted | SearchCompleted | SearchPartial | SearchFailed | SearchCancelled

  datatype RunEvent = RunEvent(run: RunId, owner: OwnerId, kind: EventKind)

  /** `runKeys` is the unique index `search_owner_key`; `events` is in `sequence` order. */
  datatype State = State(
    outbox: map<CommandId, OutboxRow>,
    executions: Executions,
    runs: map<RunId, RunRow>,
    runKeys: map<(OwnerId, string), RunId>,
    events: seq<RunEvent>,
    jobs: map<(RunId, Fingerprint), Posting>,
    sightings: map<Key, Sighting>,
    now: int)

  const Empty := State(map[], map[], map[], map[], [], map[], map[], 0)

  datatype CreateReply = Created(run: RunId) | KeyReused | MissingTargetRoles

  datatype CancelReply = NotOwned | CommandMissing | AlreadySettled | CancelCommitted

  datatype StartReply = StartUnsupported | StartLost | StartConflict | StartOk

  datatype SettleReply = SettleUnsupported | SettleLost | SettleConflict | SettleMismatch | SettleCommitted

  // ---------------------------------------------------------------------------------------------
  // What each transaction does.

  predicate IsCommandFor(c: Command, owner: OwnerId, run: RunId) {
    c.kind.SearchCollect? && c.aggregateId == run && c.ownerId == owner
  }

  function CommandsFor(outbox: map<CommandId, OutboxRow>, owner: OwnerId, run: RunId): set<CommandId> {
    set c | c in outbox && IsCommandFor(outbox[c].command, owner, run)
  }

  ghost function Only(s: set<CommandId>): (x: CommandId)
    requires |s| == 1
    ensures s == {x}
  {
    var x :| x in s;
    assert |s - {x}| == 0;
    x
  }

  /** The lease test together with the comparison against the stored command. */
  predicate OwnsCommand(s: State, c: Command, fence: nat) {
    Owns(s.executions, c.id, fence, s.now) && c.id in s.outbox && s.outbox[c.id].command == c
  }

  /** A worker compares the message with the stored command before anything else happens. */
  predicate Matches(s: State, message: Command) {
    message.id in s.outbox && s.outbox[message.id].command == message && message.kind.SearchCollect?
  }

  function AfterCreateSearch(s: State, owner: OwnerId, key: string, request: Request, profileHasTitles: bool,
                        run: RunId, commandId: CommandId): (State, CreateReply)
  {
    if (owner, key) in s.runKeys then
      var existing := s.runKeys[(owner, key)];
      if existing in s.runs && s.runs[existing].request == request then (s, Created(existing)) else (s, KeyReused)
    else if request.useProfileTitles && !profileHasTitles then (s, MissingTargetRoles)
    else
      var command := Command(commandId, SearchCollect, run, owner, s.now);
      (s.(runs := s.runs[run := RunRow(owner, key, request, Queued, None)],
          runKeys := s.runKeys[(owner, key) := run],
          outbox := s.outbox[commandId := OutboxRow(command, s.now, None)],
          events := s.events + [RunEvent(run, owner, SearchQueued)]),
       Created(run))
  }

  ghost function AfterCancelSearch(s: State, owner: OwnerId, run: RunId): (State, CancelReply) {
    if run !in s.runs || s.runs[run].owner != owner then (s, NotOwned)
    else if |CommandsFor(s.outbox, owner, run)| != 1 then (s, CommandMissing)
    else if !s.runs[run].status.Live() then (s, AlreadySettled)
    else
      (s.(executions := CancelExecution(s.executions, Only(CommandsFor(s.outbox, owner, run)), s.now),
          runs := s.runs[run := s.runs[run].(status := Cancelled)],
          events := s.events + [RunEvent(run, owner, SearchCancelled)]),
       CancelCommitted)
  }

  function AfterStartSearch(s: State, c: Command, fence: nat): (State, StartReply) {
    if !c.kind.SearchCollect? then (s, StartUnsupported)
    else if !OwnsCommand(s, c, fence) then (s, StartLost)
    else if c.aggregateId !in s.runs || s.runs[c.aggregateId].owner != c.ownerId then (s, StartConflict)
    else if s.runs[c.aggregateId].status.Queued? then
      (s.(runs := s.runs[c.aggregateId := s.runs[c.aggregateId].(status := Running)],
          events := s.events + [RunEvent(c.aggregateId, c.ownerId, SearchStarted)]), StartOk)
    else if s.runs[c.aggregateId].status.Running? then (s, StartOk)
    else (s, StartConflict)
  }

  function Sources(outcomes: seq<SourceOutcome>): set<Source> {
    set o | o in outcomes :: o.source
  }

  /** The run row accepts this result: still live, and the same set of sources when outcomes are given. */
  predicate Eligible(s: State, c: Command, outcomes: Option<seq<SourceOutcome>>) {
    && c.aggregateId in s.runs
    && s.runs[c.aggregateId].owner == c.ownerId
    && s.runs[c.aggregateId].status.Live()
    && (outcomes.Some? ==> s.runs[c.aggregateId].request.sources == Sources(outcomes.value))
  }

  function StoreJobs(jobs: map<(RunId, Fingerprint), Posting>, run: RunId,
                     ps: seq<Posting>): map<(RunId, Fingerprint), Posting> {
    if ps == [] then jobs
    else
      var init, last := StoreJobs(jobs, run, ps[..|ps| - 1]), ps[|ps| - 1];
      if (run, last.fingerprint) in init then init else init[(run, last.fingerprint) := last]
  }

  function EventFor(status: RunStatus): EventKind {
    match status
    case Completed => SearchCompleted
    case Partial => SearchPartial
    case Cancelled => SearchCancelled
    case _ => SearchFailed
  }

  function Observations(c: Command, ps: seq<Posting>): seq<Row> {
    Observed(Batch(c.ownerId, c.aggregateId, 0, 0, ps))
  }

  lemma OneMoreObservation(m: map<Key, Sighting>, c: Command, ps: seq<Posting>, now: int, i: nat)
    requires i < |ps|
    ensures RecordAll(m, Observations(c, ps[..i + 1]), SettledAt(now))
         == Record(RecordAll(m, Observations(c, ps[..i]), SettledAt(now)), Row(c.ownerId, ps[i], c.aggregateId, 0),
                   SettledAt(now))
  {
    var rows := Observations(c, ps[..i + 1]);
    assert rows[..i] == Observations(c, ps[..i]);
  }

  lemma OneMoreJob(jobs: map<(RunId, Fingerprint), Posting>, run: RunId, ps: seq<Posting>, i: nat)
    requires i < |ps|
    ensures var init := StoreJobs(jobs, run, ps[..i]);
            StoreJobs(jobs, run, ps[..i + 1]) == if (run, ps[i].fingerprint) in init then init
                else init[(run, ps[i].fingerprint) := ps[i]]
  {
    assert ps[..i + 1][..i] == ps[..i];
  }

  function AfterSettle(s: State, c: Command, fence: nat, ps: seq<Posting>, status: RunStatus,
                  outcomes: Option<seq<SourceOutcome>>): (State, SettleReply)
  {
    if !c.kind.SearchCollect? then (s, SettleUnsupported)
    else if !OwnsCommand(s, c, fence) then (s, SettleLost)
    else if !Eligible(s, c, outcomes) then (s, SettleConflict)
    else
      var done := if outcomes.None? && status.Failed? then ExecFailed else ExecCompleted;
      (s.(executions := s.executions[c.id := s.executions[c.id].(status := done)],
          runs := s.runs[c.aggregateId := s.runs[c.aggregateId].(status := status, outcomes := outcomes)],
          jobs := StoreJobs(s.jobs, c.aggregateId, ps),
          sightings := RecordAll(s.sightings, Observations(c, ps), SettledAt(s.now)),
          events := s.events + [RunEvent(c.aggregateId, c.ownerId, EventFor(status))]),
       SettleCommitted)
  }

  function CollectionStatus(ps: seq<Posting>, outcomes: seq<SourceOutcome>): RunStatus {
    if forall o :: o in outcomes ==> o.status.SourceCompleted? then Completed
    else if ps != [] || exists o :: o in outcomes && !o.status.SourceFailed? then Partial
    else Failed
  }

  /**
   * What a committed collection says: completed iff every source completed; failed iff it found nothing and every
   * source failed; partial otherwise. The run, its outcomes, the execution and the last event agree on it.
   */
  lemma CollectionVerdict(s: State, c: Command, fence: nat, ps: seq<Posting>, outcomes: seq<SourceOutcome>)
    requires AfterCompleteCollection(s, c, fence, ps, outcomes).1.SettleCommitted? && outcomes != []
    ensures var s' := AfterCompleteCollection(s, c, fence, ps, outcomes).0;
            var last := s'.events[|s'.events| - 1];
            var allCompleted := forall i :: 0 <= i < |outcomes| ==> outcomes[i].status == SourceCompleted;
            var allFailed := forall i :: 0 <= i < |outcomes| ==> outcomes[i].status == SourceFailed;
            && c.aggregateId in s'.runs && s'.runs[c.aggregateId].outcomes == Some(outcomes)
            && s'.events == s.events + [last] && last.run == c.aggregateId && last.owner == c.ownerId
            && IsCompleted(s'.executions, c.id)
            && (allCompleted ==> s'.runs[c.aggregateId].status == Completed && last.kind == SearchCompleted)
            && (ps == [] && allFailed ==> s'.runs[c.aggregateId].status == Failed && last.kind == SearchFailed)
            && (!allCompleted && !(ps == [] && allFailed) ==>
                  s'.runs[c.aggregateId].status == Partial && last.kind == SearchPartial)
  {
    hide RecordAll, StoreJobs, JobsMatchOutcomes, Observations;
    assert outcomes[0] in outcomes;
    assert (forall o :: o in outcomes ==> o.status.SourceCompleted?)
      <==> (forall i :: 0 <= i < |outcomes| ==> outcomes[i].status == SourceCompleted);
    assert (forall o :: o in outcomes ==> o.status.SourceFailed?)
      <==> (forall i :: 0 <= i < |outcomes| ==> outcomes[i].status == SourceFailed);
  }

  function FromSource(ps: seq<Posting>, source: Source): nat {
    if ps == [] then 0
    else FromSource(ps[..|ps| - 1], source) + (if ps[|ps| - 1].source == source then 1 else 0)
  }

  predicate Accepts(outcomes: seq<SourceOutcome>, source: Source) {
    exists o :: o in outcomes && o.source == source && o.accepted > 0
  }

  /** Every job, and every extra link of a job, belongs to a source that accepted jobs, within its count. */
  predicate JobsMatchOutcomes(ps: seq<Posting>, outcomes: seq<SourceOutcome>) {
    && (forall o :: o in outcomes ==> FromSource(ps, o.source) <= o.accepted)
    && (forall p :: p in ps ==> Accepts(outcomes, p.source) && forall l :: l in p.links ==> Accepts(outcomes, l))
  }

  function AfterCompleteCollection(s: State, c: Command, fence: nat, ps: seq<Posting>,
                                   outcomes: seq<SourceOutcome>): (State, SettleReply) {
    if !JobsMatchOutcomes(ps, outcomes) then (s, SettleMismatch)
    else AfterSettle(s, c, fence, ps, CollectionStatus(ps, outcomes), Some(outcomes))
  }

  function AfterComplete(s: State, c: Command, fence: nat, ps: seq<Posting>): (State, SettleReply) {
    AfterSettle(s, c, fence, ps, Completed, None)
  }

  function AfterFail(s: State, c: Command, fence: nat): (State, SettleReply) {
    AfterSettle(s, c, fence, [], Failed, None)
  }

  /** `unpublished`: never sent, or sent over two minutes ago with no finished or live execution. */
  predicate Due(s: State, id: CommandId) {
    && id in s.outbox
    && (s.outbox[id].publishedAt.None?
        || (&& s.outbox[id].publishedAt.value < s.now - 120000
            && !(id in s.executions && (!s.executions[id].status.ExecRunning? || s.executions[id].leaseUntil > s.now))))
  }

  const BATCH: nat := 20

  predicate Sendable(s: State, kinds: set<Kind>, id: CommandId) {
    Due(s, id) && s.outbox[id].command.kind in kinds
  }

  /** At most 20 sendable commands, oldest first, and none left out that is older than one of them. */
  ghost predicate OldestDue(s: State, kinds: set<Kind>, due: seq<CommandId>) {
    && |due| <= BATCH && (forall id :: id in due ==> Sendable(s, kinds, id))
    && (forall i, j :: 0 <= i < j < |due| ==> due[i] != due[j] && CreatedBy(s.outbox, due[i], due[j]))
    && (forall id :: Sendable(s, kinds, id) && id !in due ==>
            |due| == BATCH && forall x :: x in due ==> CreatedBy(s.outbox, x, id))
  }

  predicate CreatedBy(outbox: map<CommandId, OutboxRow>, a: CommandId, b: CommandId) {
    a in outbox && b in outbox && outbox[a].createdAt <= outbox[b].createdAt
  }

  // ---------------------------------------------------------------------------------------------
  // The same transactions over mutable tables.

  class Database {
    var outbox: map<CommandId, OutboxRow>
    var executions: Executions
    var runs: map<RunId, RunRow>
    var runKeys: map<(OwnerId, string), RunId>
    var events: seq<RunEvent>
    var jobs: map<(RunId, Fingerprint), Posting>
    var sightings: map<Key, Sighting>
    var now: int

    function Tables(): State
      reads this
    {
      State(outbox, executions, runs, runKeys, events, jobs, sightings, now)
    }

    constructor ()
      ensures Tables() == Empty
    {
      outbox, executions, runs, runKeys := map[], map[], map[], map[];
      events, jobs, sightings, now := [], map[], map[], 0;
    }

    method CreateSearch(owner: OwnerId, key: string, request: Request, profileHasTitles: bool,
                         run: RunId, commandId: CommandId)
      returns (reply: CreateReply)
      requires run !in runs && commandId !in outbox
      modifies this
      ensures (Tables(), reply) == AfterCreateSearch(old(Tables()), owner, key, request, profileHasTitles, run,
                                                     commandId)
    {
      if (owner, key) in runKeys {
        var existing := runKeys[(owner, key)];
        if existing !in runs || runs[existing].request != request { return KeyReused; }
        return Created(existing);
      }
      var savedRuns, savedKeys := runs, runKeys;
      runs := runs[run := RunRow(owner, key, request, Queued, None)];
      runKeys := runKeys[(owner, key) := run];
      if request.useProfileTitles && !profileHasTitles {
        runs, runKeys := savedRuns, savedKeys;  // rollback
        return MissingTargetRoles;
      }
      outbox := outbox[commandId := OutboxRow(Command(commandId, SearchCollect, run, owner, now), now, None)];
      events := events + [RunEvent(run, owner, SearchQueued)];
      return Created(run);
    }

    method CancelSearch(owner: OwnerId, run: RunId) returns (reply: CancelReply)
      modifies this
      ensures (Tables(), reply) == AfterCancelSearch(old(Tables()), owner, run)
    {
      if run !in runs || runs[run].owner != owner { return NotOwned; }
      var commands := CommandsFor(outbox, owner, run);
      if |commands| != 1 { return CommandMissing; }
      var id :| id in commands;
      assert |commands - {id}| == 0;
      assert id == Only(commands);
      var savedExecutions := executions;
      if id !in executions {
        executions := executions[id := Execution(ExecCompleted, 1, 0, now)];
      } else if executions[id].status.ExecRunning? {
        executions := executions[id := executions[id].(status := ExecCompleted, fence := executions[id].fence + 1,
                                                       leaseUntil := now)];
      }
      if !runs[run].status.Live() {
        executions := savedExecutions;  // rollback
        return AlreadySettled;
      }
      runs := runs[run := runs[run].(status := Cancelled)];
      events := events + [RunEvent(run, owner, SearchCancelled)];
      return CancelCommitted;
    }

    /** `ORDER BY created_at LIMIT 20` over the commands that somebody can be sent to. */
    method Unpublished(kinds: set<Kind>) returns (due: seq<CommandId>)
      ensures OldestDue(Tables(), kinds, due)
      ensures |due| <= 20 && forall id :: id in due ==> id in outbox && outbox[id].command.kind in kinds
    {
      due := [];
      var left := set id | id in outbox && Sendable(Tables(), kinds, id);
      while left != {} && |due| < BATCH
        invariant |due| <= BATCH && forall id :: Sendable(Tables(), kinds, id) <==> id in left || id in due
        invariant forall i :: 0 <= i < |due| ==>
                  due[i] !in left && forall x :: x in left ==> CreatedBy(outbox, due[i], x)
        invariant forall i, j :: 0 <= i < j < |due| ==> due[i] != due[j] && CreatedBy(outbox, due[i], due[j])
        decreases left
      {
        var rows := outbox;
        ghost var oldest := LeastExists(left, id => if id in rows then rows[id].createdAt else 0);
        var id :| id in left && forall x :: x in left ==> CreatedBy(outbox, id, x);
        due, left := due + [id], left - {id};
      }
    }

    method Published(id: CommandId)
      modifies this`outbox
      ensures outbox == if id in old(outbox) then old(outbox)[id := old(outbox)[id].(publishedAt := Some(now))]
              else old(outbox)
    {
      if id in outbox {
        outbox := outbox[id := outbox[id].(publishedAt := Some(now))];
      }
    }

    method Claim(id: CommandId, lease: nat) returns (fence: Option<nat>)
      modifies this`executions
      ensures (executions, fence) == Leases.Claim(old(executions), id, id in outbox, now, lease)
    {
      if id !in outbox { return None; }
      if id !in executions {
        executions := executions[id := Execution(ExecRunning, 1, 1, now + lease)];
        return Some(1);
      }
      var row := executions[id];
      if !row.status.ExecRunning? || row.leaseUntil >= now { return None; }
      executions := executions[id := Execution(ExecRunning, row.fence + 1, row.attempts + 1, now + lease)];
      return Some(row.fence + 1);
    }

    method Renew(id: CommandId, fence: nat, lease: nat) returns (held: bool)
      modifies this`executions
      ensures held == Owns(old(executions), id, fence, now)
      ensures executions == Leases.Renew(old(executions), id, fence, now, lease)
    {
      held := Owns(executions, id, fence, now);
      if held {
        executions := executions[id := executions[id].(leaseUntil := now + lease)];
      }
    }

    method Release(id: CommandId, fence: nat)
      modifies this`executions
      ensures executions == Leases.Release(old(executions), id, fence, now)
    {
      if id in executions && executions[id].status.ExecRunning? && executions[id].fence == fence {
        executions := executions[id := executions[id].(leaseUntil := now)];
      }
    }

    method StartSearch(command: Command, fence: nat) returns (reply: StartReply)
      modifies this
      ensures (Tables(), reply) == AfterStartSearch(old(Tables()), command, fence)
    {
      if !command.kind.SearchCollect? { return StartUnsupported; }
      if !OwnsCommand(Tables(), command, fence) { return StartLost; }
      var run := command.aggregateId;
      if run in runs && runs[run].owner == command.ownerId && runs[run].status.Queued? {
        runs := runs[run := runs[run].(status := Running)];
        events := events + [RunEvent(run, command.ownerId, SearchStarted)];
      } else if !(run in runs && runs[run].owner == command.ownerId && runs[run].status.Running?) {
        return StartConflict;
      }
      return StartOk;
    }

    /** The single completion path: execution, run, then the postings, then the event. */
    method Settle(command: Command, fence: nat, postings: seq<Posting>, status: RunStatus,
                  outcomes: Option<seq<SourceOutcome>>)
      returns (reply: SettleReply)
      requires status in {Completed, Partial, Failed} && (outcomes.None? ==> !status.Partial?)
      modifies this
      ensures (Tables(), reply) == AfterSettle(old(Tables()), command, fence, postings, status, outcomes)
    {
      if !command.kind.SearchCollect? { return SettleUnsupported; }
      if !OwnsCommand(Tables(), command, fence) { return SettleLost; }
      var savedExecutions := executions;
      executions := executions[command.id := executions[command.id].(status :=
        if outcomes.Some? then ExecCompleted else if status.Failed? then ExecFailed else ExecCompleted)];
      if !Eligible(Tables(), command, outcomes) {
        executions := savedExecutions;  // rollback
        return SettleConflict;
      }
      var run := command.aggregateId;
      runs := runs[run := runs[run].(status := status, outcomes := outcomes)];
      StorePostings(command, postings);
      events := events + [RunEvent(run, command.ownerId, EventFor(status))];
      return SettleCommitted;
    }

    /** The loop of the completion path: one job row and one sighting per posting. */
    method StorePostings(command: Command, postings: seq<Posting>)
      modifies this`jobs, this`sightings
      ensures jobs == StoreJobs(old(jobs), command.aggregateId, postings)
      ensures sightings == RecordAll(old(sightings), Observations(command, postings), SettledAt(now))
    {
      var run := command.aggregateId;
      for i := 0 to |postings|
        invariant jobs == StoreJobs(old(jobs), run, postings[..i])
        invariant sightings == RecordAll(old(sightings), Observations(command, postings[..i]), SettledAt(now))
      {
        var posting := postings[i];
        OneMoreJob(old(jobs), run, postings, i);
        if (run, posting.fingerprint) !in jobs {
          jobs := jobs[(run, posting.fingerprint) := posting];
        }
        var key := (command.ownerId, posting.fingerprint);
        var row := Row(command.ownerId, posting, run, 0);
        OneMoreObservation(old(sightings), command, postings, now, i);
        sightings := sightings[key := if key in sightings
                               then Sighting(Seen(sightings[key].evidence, row), sightings[key].firstSeen, now)
                                       else Sighting(First(row), now, now)];
      }
      assert postings[..|postings|] == postings;
    }

    method CompleteCollection(command: Command, fence: nat, postings: seq<Posting>, outcomes: seq<SourceOutcome>)
      returns (reply: SettleReply)
      modifies this
      ensures (Tables(), reply) == AfterCompleteCollection(old(Tables()), command, fence, postings, outcomes)
    {
      if !JobsMatchOutcomes(postings, outcomes) { return SettleMismatch; }
      reply := Settle(command, fence, postings, CollectionStatus(postings, outcomes), Some(outcomes));
    }

    method Complete(command: Command, fence: nat, postings: seq<Posting>) returns (reply: SettleReply)
      modifies this
      ensures (Tables(), reply) == AfterComplete(old(Tables()), command, fence, postings)
    {
      reply := Settle(command, fence, postings, Completed, None);
    }

    method Fail(command: Command, fence: nat) returns (reply: SettleReply)
      modifies this
      ensures (Tables(), reply) == AfterFail(old(Tables()), command, fence)
    {
      reply := Settle(command, fence, [], Failed, None);
    }
  }
}
