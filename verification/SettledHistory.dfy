/**
 * The sightings table of the live pipeline against its rebuild: over any run, the table is the fold of
 * the settled batches, the job ledger keeps their first postings, and the rebuild from the ledger
 * (scripts/jobs/backfill-job-sightings.ts) reproduces the live table exactly when batches are distinct.
 */
module SettledHistory {
  import opened Prelude
  import opened Leases
  import opened Sightings
  import opened SearchPipeline
  import opened PipelineSafety

  // ---------------------------------------------------------------------------------------------
  // Which batches a run settled.

  ghost predicate Commits(s: State, op: Op) {
    match op
    case CompleteOp(c, fence, ps) => AfterComplete(s, c, fence, ps).1.SettleCommitted?
    case CollectOp(c, fence, ps, outcomes) => AfterCompleteCollection(s, c, fence, ps, outcomes).1.SettleCommitted?
    case FailOp(c, fence) => AfterFail(s, c, fence).1.SettleCommitted?
    case _ => false
  }

  /** A run is created together with its command, so the command's time is the run's. */
  ghost function BatchOf(op: Op, now: int): Batch
    requires op.CompleteOp? || op.CollectOp? || op.FailOp?
  {
    Batch(op.c.ownerId, op.c.aggregateId, op.c.occurredAt, now, if op.FailOp? then [] else op.ps)
  }

  ghost function Batches(ops: seq<Op>): seq<Batch>
    decreases |ops|
  {
    if ops == [] then []
    else
      var front, last := ops[..|ops| - 1], ops[|ops| - 1];
      Batches(front) + (if Commits(At(front), last) then [BatchOf(last, At(front).now)] else [])
  }

  lemma SettleEffect(s: State, c: Command, fence: nat, ps: seq<Posting>, status: RunStatus,
                     outcomes: Option<seq<SourceOutcome>>)
    requires status in {Completed, Partial, Failed} && AfterSettle(s, c, fence, ps, status, outcomes).1.SettleCommitted?
    ensures var s' := AfterSettle(s, c, fence, ps, status, outcomes).0;
            && s'.sightings == RecordAll(s.sightings, Observed(Batch(c.ownerId, c.aggregateId, 0, 0, ps)),
                                         SettledAt(s.now))
            && s'.jobs == StoreJobs(s.jobs, c.aggregateId, ps)
            && !Finished(s, c.aggregateId) && Finished(s', c.aggregateId)
            && IsSearch(s.outbox, c.id) && s.outbox[c.id].command == c
  {
    hide RecordAll, StoreJobs;
  }

  /** What one operation does to sightings and ledger. */
  lemma CommitEffect(s: State, op: Op)
    ensures if Commits(s, op) then
              var b := BatchOf(op, s.now);
              && Apply(s, op).sightings == RecordAll(s.sightings, Observed(b.(createdAt := 0, settledAt := 0)),
                                                     SettledAt(s.now))
              && Apply(s, op).jobs == StoreJobs(s.jobs, b.run, b.postings)
              && !Finished(s, b.run) && Finished(Apply(s, op), b.run)
              && IsSearch(s.outbox, op.c.id) && s.outbox[op.c.id].command == op.c
            else Apply(s, op).sightings == s.sightings && Apply(s, op).jobs == s.jobs
  {
    if Commits(s, op) {
      match op
      case CompleteOp(c, fence, ps) => SettleEffect(s, c, fence, ps, Completed, None);
      case FailOp(c, fence) => SettleEffect(s, c, fence, [], Failed, None);
      case CollectOp(c, fence, ps, outcomes) =>
          SettleEffect(s, c, fence, ps, CollectionStatus(ps, outcomes), Some(outcomes));
    } else {
      NothingCommitted(s, op);
    }
    hide AfterSettle, RecordAll, StoreJobs, JobsMatchOutcomes, Claim, Renew, Release, CancelExecution, Finished;
  }

  lemma NothingCommitted(s: State, op: Op)
    requires !Commits(s, op)
    ensures Apply(s, op).sightings == s.sightings && Apply(s, op).jobs == s.jobs
  {
    hide RecordAll, StoreJobs, JobsMatchOutcomes, Claim, Renew, Release, CancelExecution, CollectionStatus;
  }

  // ---------------------------------------------------------------------------------------------
  // Sightings.

  /** Settling never looks at a run's creation time. */
  lemma {:induction false} RunTimeIrrelevant(m: map<Key, Sighting>, b: Batch, now: int)
    ensures RecordAll(m, Observed(b.(createdAt := 0, settledAt := 0)), SettledAt(now)) ==
            RecordAll(m, Observed(b), SettledAt(now))
    decreases |b.postings|
  {
    if b.postings != [] {
      var n := |b.postings| - 1;
      var front := b.(postings := b.postings[..n]);
      RunTimeIrrelevant(m, front, now);
      assert Observed(b)[..n] == Observed(front);
      assert Observed(b.(createdAt := 0, settledAt := 0))[..n] == Observed(front.(createdAt := 0, settledAt := 0));
    }
  }

  /** The live table is what the committed batches recorded, in the order they were settled. */
  lemma {:induction false} SightingsFoldBatches(ops: seq<Op>)
    ensures At(ops).sightings == RecordBatches(Batches(ops))
    ensures EvidenceOf(At(ops).sightings) == UpsertAll(map[], AllObserved(Batches(ops)))
    decreases |ops|
  {
    RecordedEvidence(Batches(ops));
    if ops != [] {
      var front, last := ops[..|ops| - 1], ops[|ops| - 1];
      SightingsFoldBatches(front);
      CommitEffect(At(front), last);
      hide Apply, Commits, RecordAll, UpsertAll;
      if Commits(At(front), last) {
        var b := BatchOf(last, At(front).now);
        assert Batches(ops) == Batches(front) + [b];
        assert (Batches(front) + [b])[..|Batches(front)|] == Batches(front);
        RunTimeIrrelevant(At(front).sightings, b, At(front).now);
      } else {
        assert Batches(ops) == Batches(front);
      }
    }
  }

  /** Every live row tells what the committed batches observed of its posting, in the order they were settled. */
  lemma LiveRowTells(ops: seq<Op>, k: Key)
    ensures var rows := KeyRows(AllObserved(Batches(ops)), k);
            && (k in At(ops).sightings <==> rows != [])
            && (k in At(ops).sightings ==> Tells(At(ops).sightings[k].evidence, rows))
  {
    SightingsFoldBatches(ops);
    FoldIsKeyLocal(AllObserved(Batches(ops)), k);
    var rows := KeyRows(AllObserved(Batches(ops)), k);
    if rows != [] { FoldTells(rows); }
    hide KeyRows, UpsertAll, Tells, RecordBatches, AllObserved;
    assert k in At(ops).sightings <==> Lookup(EvidenceOf(At(ops).sightings), k).Some?;
    assert FoldKey([]) == None;
  }

  // ---------------------------------------------------------------------------------------------
  // The ledger.

  /** `p` is the posting the ledger keeps for its fingerprint in this batch. */
  predicate Keeps(b: Batch, p: Posting) {
    p in StoredPostings(b.postings)
  }

  lemma {:induction false} StoredPostingsAre(ps: seq<Posting>)
    ensures forall i, j :: 0 <= i < j < |StoredPostings(ps)| ==>
            StoredPostings(ps)[i].fingerprint != StoredPostings(ps)[j].fingerprint
    decreases |ps|
  {
    if ps != [] {
      StoredPostingsAre(ps[..|ps| - 1]);
    }
  }

  /** Inserting a batch's postings for a run that has no rows yet stores exactly the kept ones. */
  lemma {:induction false} StoreJobsAre(jobs: map<(RunId, Fingerprint), Posting>, run: RunId, ps: seq<Posting>)
    requires forall k :: k in jobs ==> k.0 != run
    ensures var after := StoreJobs(jobs, run, ps);
            && (forall k: (RunId, Fingerprint) :: k.0 != run ==>
                  (k in after <==> k in jobs) && (k in jobs ==> after[k] == jobs[k]))
            && (forall p :: p in StoredPostings(ps) ==>
                  (run, p.fingerprint) in after && after[(run, p.fingerprint)] == p)
            && (forall k :: k in after && k.0 == run ==> after[k] in StoredPostings(ps) && after[k].fingerprint == k.1)
    decreases |ps|
  {
    if ps != [] {
      var front, last := ps[..|ps| - 1], ps[|ps| - 1];
      StoreJobsAre(jobs, run, front);
      assert (run, last.fingerprint) in StoreJobs(jobs, run, front) <==>
          Mentions(StoredPostings(front), last.fingerprint);
    }
  }

  /** The batches of a run: distinct runs, all finished, each matching its stored command. */
  ghost predicate BatchesOk(s: State, bs: seq<Batch>) {
    && (forall i, j :: 0 <= i < j < |bs| ==> bs[i].run != bs[j].run)
    && (forall i :: 0 <= i < |bs| ==> Finished(s, bs[i].run))
    && (forall i :: 0 <= i < |bs| ==> Commanded(s, bs[i]))
  }

  ghost predicate Commanded(s: State, b: Batch) {
    exists id :: IsSearch(s.outbox, id) && s.outbox[id].command.aggregateId == b.run
                 && s.outbox[id].command.ownerId == b.owner && s.outbox[id].command.occurredAt == b.createdAt
  }

  /** The ledger holds the kept postings of the batches, and nothing else. */
  ghost predicate LedgerOk(jobs: map<(RunId, Fingerprint), Posting>, bs: seq<Batch>) {
    && (forall k :: k in jobs ==>
            jobs[k].fingerprint == k.1 && exists i :: 0 <= i < |bs| && bs[i].run == k.0 && Keeps(bs[i], jobs[k]))
    && (forall i, p :: 0 <= i < |bs| && Keeps(bs[i], p) ==>
          (bs[i].run, p.fingerprint) in jobs && jobs[(bs[i].run, p.fingerprint)] == p)
  }

  lemma BatchesMove(s: State, s': State, bs: seq<Batch>)
    requires BatchesOk(s, bs) && Step(s, s')
    ensures BatchesOk(s', bs)
  {
    forall i | 0 <= i < |bs| ensures Finished(s', bs[i].run) && Commanded(s', bs[i]) {
      assert Finished(s, bs[i].run) && Commanded(s, bs[i]);
      CommandedStays(s, s', bs[i]);
    }
    hide Commanded, Finished;
  }

  lemma CommandedStays(s: State, s': State, b: Batch)
    requires Commanded(s, b) && CommandsStay(s.outbox, s'.outbox)
    ensures Commanded(s', b)
  {
    var id :| IsSearch(s.outbox, id) && s.outbox[id].command.aggregateId == b.run
              && s.outbox[id].command.ownerId == b.owner && s.outbox[id].command.occurredAt == b.createdAt;
    assert IsSearch(s'.outbox, id);
  }

  /** `after` is `jobs` with the kept postings of one more run. */
  ghost predicate AddsBatch(jobs: map<(RunId, Fingerprint), Posting>, after: map<(RunId, Fingerprint), Posting>,
                            b: Batch) {
    && (forall k: (RunId, Fingerprint) :: k.0 != b.run ==>
          (k in after <==> k in jobs) && (k in jobs ==> after[k] == jobs[k]))
    && (forall p :: Keeps(b, p) ==> (b.run, p.fingerprint) in after && after[(b.run, p.fingerprint)] == p)
    && (forall k :: k in after && k.0 == b.run ==> Keeps(b, after[k]) && after[k].fingerprint == k.1)
  }

  lemma NoRowsYet(jobs: map<(RunId, Fingerprint), Posting>, bs: seq<Batch>, b: Batch)
    requires LedgerOk(jobs, bs) && forall i :: 0 <= i < |bs| ==> bs[i].run != b.run
    ensures forall k :: k in jobs ==> k.0 != b.run
  {
    hide Keeps;
  }

  lemma StoreAddsBatch(jobs: map<(RunId, Fingerprint), Posting>, b: Batch)
    requires forall k :: k in jobs ==> k.0 != b.run
    ensures AddsBatch(jobs, StoreJobs(jobs, b.run, b.postings), b)
  {
    StoreJobsAre(jobs, b.run, b.postings);
    hide StoreJobs, StoredPostings;
  }

  lemma LedgerGrows(jobs: map<(RunId, Fingerprint), Posting>, bs: seq<Batch>, b: Batch)
    requires LedgerOk(jobs, bs) && forall i :: 0 <= i < |bs| ==> bs[i].run != b.run
    ensures LedgerOk(StoreJobs(jobs, b.run, b.postings), bs + [b])
  {
    hide StoreJobs, Keeps, AddsBatch, LedgerOk;
    var after := StoreJobs(jobs, b.run, b.postings);
    NoRowsYet(jobs, bs, b);
    StoreAddsBatch(jobs, b);
    LedgerRowsGrow(jobs, after, bs, b);
    LedgerKeepsGrow(jobs, after, bs, b);
    LedgerShown(after, bs + [b]);
  }

  ghost predicate Kept(bs: seq<Batch>, run: RunId, p: Posting) {
    exists i :: 0 <= i < |bs| && bs[i].run == run && Keeps(bs[i], p)
  }

  lemma LedgerShown(jobs: map<(RunId, Fingerprint), Posting>, bs: seq<Batch>)
    requires forall k :: k in jobs ==> jobs[k].fingerprint == k.1 && Kept(bs, k.0, jobs[k])
    requires forall i, p :: 0 <= i < |bs| && Keeps(bs[i], p) ==>
             (bs[i].run, p.fingerprint) in jobs && jobs[(bs[i].run, p.fingerprint)] == p
    ensures LedgerOk(jobs, bs)
  {
    hide Keeps;
  }

  lemma LedgerRowsGrow(jobs: map<(RunId, Fingerprint), Posting>, after: map<(RunId, Fingerprint), Posting>,
                       bs: seq<Batch>, b: Batch)
    requires LedgerOk(jobs, bs) && AddsBatch(jobs, after, b)
    ensures forall k :: k in after ==> after[k].fingerprint == k.1 && Kept(bs + [b], k.0, after[k])
  {
    hide Keeps;
    var all := bs + [b];
    forall k | k in after ensures after[k].fingerprint == k.1 && Kept(all, k.0, after[k]) {
      if k.0 == b.run {
        assert all[|bs|] == b && Keeps(all[|bs|], after[k]);
      } else {
        var i :| 0 <= i < |bs| && bs[i].run == k.0 && Keeps(bs[i], jobs[k]);
        assert all[i] == bs[i];
      }
    }
  }

  lemma LedgerKeepsGrow(jobs: map<(RunId, Fingerprint), Posting>, after: map<(RunId, Fingerprint), Posting>,
                        bs: seq<Batch>, b: Batch)
    requires LedgerOk(jobs, bs) && AddsBatch(jobs, after, b) && forall i :: 0 <= i < |bs| ==> bs[i].run != b.run
    ensures var all := bs + [b];
            forall i, p :: 0 <= i < |all| && Keeps(all[i], p) ==>
                (all[i].run, p.fingerprint) in after && after[(all[i].run, p.fingerprint)] == p
  {
    hide Keeps;
    var all := bs + [b];
    forall i, p | 0 <= i < |all| && Keeps(all[i], p)
      ensures (all[i].run, p.fingerprint) in after && after[(all[i].run, p.fingerprint)] == p {
      if i < |bs| { assert all[i] == bs[i] && Keeps(bs[i], p); }
    }
  }

  lemma BatchesGrow(s: State, bs: seq<Batch>, b: Batch)
    requires BatchesOk(s, bs) && Finished(s, b.run) && Commanded(s, b)
             && forall i :: 0 <= i < |bs| ==> bs[i].run != b.run
    ensures BatchesOk(s, bs + [b])
  {
    assert forall i :: 0 <= i < |bs| ==> (bs + [b])[i] == bs[i];
    hide Finished, Commanded;
  }

  lemma {:induction false} LedgerFollowsBatches(ops: seq<Op>)
    requires LegalOps(ops)
    ensures BatchesOk(At(ops), Batches(ops)) && LedgerOk(At(ops).jobs, Batches(ops))
    decreases |ops|
  {
    if ops != [] {
      var front, last := ops[..|ops| - 1], ops[|ops| - 1];
      LedgerFollowsBatches(front);
      ReachableInv(front);
      ApplyKeeps(At(front), last);
      CommitEffect(At(front), last);
      hide Apply, Commits, RecordAll, StoreJobs, Inv, BatchesOk, LedgerOk, Step, BatchOf;
      BatchesMove(At(front), At(ops), Batches(front));
      if Commits(At(front), last) {
        var b := BatchOf(last, At(front).now);
        NewBatch(At(front), last, Batches(front));
        NowCommanded(At(front), At(ops), last);
        LedgerGrows(At(front).jobs, Batches(front), b);
        BatchesGrow(At(ops), Batches(front), b);
      } else {
        assert Batches(ops) == Batches(front);
      }
    }
  }

  lemma NewBatch(s: State, op: Op, bs: seq<Batch>)
    requires (op.CompleteOp? || op.CollectOp? || op.FailOp?) && BatchesOk(s, bs) && !Finished(s, BatchOf(op, s.now).run)
    ensures forall i :: 0 <= i < |bs| ==> bs[i].run != BatchOf(op, s.now).run
  {
  }

  lemma NowCommanded(s: State, s': State, op: Op)
    requires (op.CompleteOp? || op.CollectOp? || op.FailOp?) && Step(s, s')
    requires op.c.id in s.outbox && s.outbox[op.c.id].command == op.c && IsSearch(s.outbox, op.c.id)
    ensures Commanded(s', BatchOf(op, s.now))
  {
    assert Commanded(s, BatchOf(op, s.now));
    CommandedStays(s, s', BatchOf(op, s.now));
  }

  // ---------------------------------------------------------------------------------------------
  // The rebuild.

  /** `rows` lists the ledger once each, joined with the owner and creation time of the run. */
  ghost predicate Lists(rows: seq<Row>, s: State) {
    && (forall i, j :: 0 <= i < j < |rows| ==> rows[i] != rows[j])
    && (forall r :: r in rows ==> LedgerRow(r, s))
    && (forall k :: k in s.jobs ==> exists r :: r in rows && (r.run, r.posting.fingerprint) == k)
  }

  ghost predicate LedgerRow(r: Row, s: State) {
    && (r.run, r.posting.fingerprint) in s.jobs && s.jobs[(r.run, r.posting.fingerprint)] == r.posting
    && forall id :: IsSearch(s.outbox, id) && s.outbox[id].command.aggregateId == r.run ==>
         r.owner == s.outbox[id].command.ownerId && r.runCreatedAt == s.outbox[id].command.occurredAt
  }

  ghost predicate NoRepeats(rows: seq<Row>) {
    forall i, j :: 0 <= i < j < |rows| ==> rows[i] != rows[j]
  }

  lemma {:induction false} OnceEach(rows: seq<Row>, r: Row)
    requires NoRepeats(rows)
    ensures multiset(rows)[r] == if r in rows then 1 else 0
    decreases |rows|
  {
    if rows != [] {
      var front, last := rows[..|rows| - 1], rows[|rows| - 1];
      OnceEach(front, r);
      assert rows == front + [last];
      forall i | 0 <= i < |front| ensures front[i] != last {
        assert rows[i] != rows[|rows| - 1];
      }
    }
  }

  lemma SameElements(a: seq<Row>, b: seq<Row>)
    requires NoRepeats(a) && NoRepeats(b) && forall r :: r in a <==> r in b
    ensures multiset(a) == multiset(b)
  {
    forall r ensures multiset(a)[r] == multiset(b)[r] {
      OnceEach(a, r);
      OnceEach(b, r);
    }
  }

  /** The row of a kept posting. */
  function KeptRow(b: Batch, p: Posting): Row {
    Row(b.owner, p, b.run, b.createdAt)
  }

  lemma StoredRows(b: Batch, r: Row)
    ensures r in Stored(b) <==> Keeps(b, r.posting) && r == KeptRow(b, r.posting)
    ensures NoRepeats(Stored(b))
  {
    StoredPostingsAre(b.postings);
    var ps := StoredPostings(b.postings);
    if Keeps(b, r.posting) && r == KeptRow(b, r.posting) {
      var i :| 0 <= i < |ps| && ps[i] == r.posting;
      assert Stored(b)[i] == r;
    }
  }

  lemma {:induction false} AllStoredRows(bs: seq<Batch>, r: Row)
    ensures r in AllStored(bs) <==> exists i ::
            0 <= i < |bs| && Keeps(bs[i], r.posting) && r == KeptRow(bs[i], r.posting)
    decreases |bs|
  {
    if bs != [] {
      var front, last := bs[..|bs| - 1], bs[|bs| - 1];
      AllStoredRows(front, r);
      StoredRows(last, r);
      hide Keeps, KeptRow, Stored;
      assert r in AllStored(bs) <==> r in AllStored(front) || r in Stored(last);
      if i :| 0 <= i < |front| && Keeps(front[i], r.posting) && r == KeptRow(front[i], r.posting) {
        assert Keeps(bs[i], r.posting) && r == KeptRow(bs[i], r.posting);
      }
    }
  }

  lemma {:induction false} AllStoredOnce(s: State, bs: seq<Batch>)
    requires BatchesOk(s, bs)
    ensures NoRepeats(AllStored(bs))
    decreases |bs|
  {
    if bs != [] {
      var front, last := bs[..|bs| - 1], bs[|bs| - 1];
      assert forall i :: 0 <= i < |front| ==> front[i] == bs[i];
      AllStoredOnce(s, front);
      var a, b := AllStored(front), Stored(last);
      StoredRows(last, KeptRow(last, Posting("", "", "", None, 0, [])));
      forall i, j | 0 <= i < |a| && 0 <= j < |b| ensures a[i] != b[j] {
        AllStoredRows(front, a[i]);
        StoredRows(last, b[j]);
        assert a[i] in a && b[j] in b;
        var k :| 0 <= k < |front| && Keeps(front[k], a[i].posting) && a[i] == KeptRow(front[k], a[i].posting);
        assert bs[k].run != bs[|bs| - 1].run;
      }
      hide AllStored, Stored, BatchesOk;
      assert NoRepeats(a + b);
    }
  }

  /** Listing the ledger lists what the batches stored. */
  lemma ListsBatches(s: State, bs: seq<Batch>, rows: seq<Row>)
    requires Inv(s) && BatchesOk(s, bs) && LedgerOk(s.jobs, bs) && Lists(rows, s)
    ensures multiset(rows) == multiset(AllStored(bs))
  {
    AllStoredOnce(s, bs);
    forall r ensures r in rows <==> r in AllStored(bs) {
      AllStoredRows(bs, r);
      hide AllStored, Inv;
      if r in rows {
        var i := BatchOfRow(s, bs, r);
        assert Keeps(bs[i], r.posting) && r == KeptRow(bs[i], r.posting);
      }
      if i :| 0 <= i < |bs| && Keeps(bs[i], r.posting) && r == KeptRow(bs[i], r.posting) {
        var q :| q in rows && (q.run, q.posting.fingerprint) == (r.run, r.posting.fingerprint);
        var j := BatchOfRow(s, bs, q);
        assert i == j;
      }
    }
    SameElements(rows, AllStored(bs));
  }

  lemma BatchOfRow(s: State, bs: seq<Batch>, r: Row) returns (i: nat)
    requires BatchesOk(s, bs) && LedgerOk(s.jobs, bs) && LedgerRow(r, s)
    ensures i < |bs| && bs[i].run == r.run && Keeps(bs[i], r.posting) && r == KeptRow(bs[i], r.posting)
  {
    i :| 0 <= i < |bs| && bs[i].run == r.run && Keeps(bs[i], r.posting);
    assert Commanded(s, bs[i]);
  }

  /**
   * Over any run of the pipeline, for each posting whose runs settled in creation order: rebuilding the table from the
   * ledger, in the script's order, gives the evidence of its live row if and only if no settled batch reported its
   * fingerprint twice.
   */
  lemma RebuildMatchesRow(ops: seq<Op>, rows: seq<Row>, k: Key)
    requires LegalOps(ops) && Lists(rows, At(ops)) && ReplayOrder(rows) && Increasing(Observers(Batches(ops), k))
    ensures Lookup(EvidenceOf(RecordAll(map[], rows, CreatedAt())), k) == Lookup(EvidenceOf(At(ops).sightings), k)
       <==> forall b :: b in Batches(ops) ==> !Repeats(b, k)
  {
    ReachableInv(ops);
    LedgerFollowsBatches(ops);
    SightingsFoldBatches(ops);
    EvidenceIsTimeless(map[], rows, CreatedAt());
    hide Inv, BatchesOk, LedgerOk, Lists, UpsertAll, RecordAll, ReplayOrder, Increasing, Observers, Repeats, Lookup;
    ListsBatches(At(ops), Batches(ops), rows);
    assert EvidenceOf(map[]) == map[];
    RowAgreesIff(Batches(ops), rows, k);
  }

  /**
   * And where that holds of every posting: the whole table, if and only if no settled batch reported any
   * fingerprint twice.
   */
  lemma RebuildMatchesLiveTable(ops: seq<Op>, rows: seq<Row>)
    requires LegalOps(ops) && Lists(rows, At(ops)) && ReplayOrder(rows) && InCreationOrder(Batches(ops))
    ensures EvidenceOf(RecordAll(map[], rows, CreatedAt())) == EvidenceOf(At(ops).sightings)
       <==> forall b :: b in Batches(ops) ==> Distinct(b)
  {
    var rebuilt, live := EvidenceOf(RecordAll(map[], rows, CreatedAt())), EvidenceOf(At(ops).sightings);
    forall k ensures RowsAgree(rebuilt, live, k) <==> NoneRepeats(Batches(ops), k) {
      assert Increasing(Observers(Batches(ops), k));
      RebuildMatchesRow(ops, rows, k);
    }
    hide *;
    TablesAgreeIff(Batches(ops), rebuilt, live);
  }

  /**
   * The order hypothesis cannot be dropped: the tables agree on a posting's last run if and only if the
   * newest of its runs settled last.
   */
  lemma LastRunsAgreeIff(ops: seq<Op>, rows: seq<Row>, k: Key)
    requires LegalOps(ops) && Lists(rows, At(ops)) && ReplayOrder(rows) && k in At(ops).sightings
             && ToldApart(Observers(Batches(ops), k))
    ensures var rebuilt, live := RecordAll(map[], rows, CreatedAt()), At(ops).sightings;
            k in rebuilt && (rebuilt[k].evidence.lastRun == live[k].evidence.lastRun <==>
                               NewestLast(Observers(Batches(ops), k)))
  {
    ReachableInv(ops);
    LedgerFollowsBatches(ops);
    SightingsFoldBatches(ops);
    LiveSeenTimes(Batches(ops), k);
    EvidenceIsTimeless(map[], rows, CreatedAt());
    hide Inv, BatchesOk, LedgerOk, Lists, UpsertAll, RecordAll, ReplayOrder, ToldApart, Observers, NewestLast;
    ListsBatches(At(ops), Batches(ops), rows);
    assert EvidenceOf(map[]) == map[];
    LastRunAgreesIff(Batches(ops), rows, k);
    assert k in EvidenceOf(RecordAll(map[], rows, CreatedAt()));
  }

  // ---------------------------------------------------------------------------------------------
  // When rows were seen.

  /** Stored commands were created in the past. */
  ghost predicate InThePast(s: State) {
    forall id :: id in s.outbox ==> s.outbox[id].command.occurredAt <= s.now
  }

  lemma PastStays(s: State, op: Op)
    requires InThePast(s)
    ensures InThePast(Apply(s, op))
  {
    hide RecordAll, StoreJobs, JobsMatchOutcomes, CollectionStatus, Claim, Renew, Release, CancelExecution;
  }

  lemma {:induction false} CreatedBeforeSettled(ops: seq<Op>)
    ensures InThePast(At(ops))
            && forall i :: 0 <= i < |Batches(ops)| ==> Batches(ops)[i].createdAt <= Batches(ops)[i].settledAt
    decreases |ops|
  {
    if ops != [] {
      var front, last := ops[..|ops| - 1], ops[|ops| - 1];
      CreatedBeforeSettled(front);
      PastStays(At(front), last);
      CommitEffect(At(front), last);
      hide Apply, Commits, RecordAll, StoreJobs;
      if !Commits(At(front), last) { assert Batches(ops) == Batches(front); }
    }
  }

  lemma ObserversInThePast(ops: seq<Op>, k: Key)
    ensures forall i :: 0 <= i < |Observers(Batches(ops), k)| ==>
            Observers(Batches(ops), k)[i].createdAt <= Observers(Batches(ops), k)[i].settledAt
  {
    CreatedBeforeSettled(ops);
    FilterMembers(Batches(ops), Observing(k));
    var bs, observers := Batches(ops), Observers(Batches(ops), k);
    hide Filter, Observes, Batches;
    forall i | 0 <= i < |observers| ensures observers[i].createdAt <= observers[i].settledAt {
      assert observers[i] in bs;
      var j :| 0 <= j < |bs| && bs[j] == observers[i];
    }
  }

  /**
   * The rebuild stamps a posting with the creation of its first and last runs, which is never later than the
   * live times.
   */
  lemma RebuildSeesEarlier(ops: seq<Op>, rows: seq<Row>, k: Key)
    requires LegalOps(ops) && Lists(rows, At(ops)) && ReplayOrder(rows) && k in At(ops).sightings
    requires Increasing(Observers(Batches(ops), k))
    ensures var rebuilt, live := RecordAll(map[], rows, CreatedAt()), At(ops).sightings;
            var observers := Observers(Batches(ops), k);
            && k in rebuilt && observers != []
            && rebuilt[k].firstSeen == observers[0].createdAt <= live[k].firstSeen == observers[0].settledAt
            && rebuilt[k].lastSeen == observers[|observers| - 1].createdAt
            && observers[|observers| - 1].createdAt <= live[k].lastSeen == observers[|observers| - 1].settledAt
  {
    ReachableInv(ops);
    LedgerFollowsBatches(ops);
    SightingsFoldBatches(ops);
    ObserversInThePast(ops, k);
    LiveSeenTimes(Batches(ops), k);
    hide Inv, BatchesOk, LedgerOk, Lists, UpsertAll, RecordAll, ReplayOrder, Observes, Increasing, Observers;
    ListsBatches(At(ops), Batches(ops), rows);
    RebuiltSeenTimes(Batches(ops), rows, k);
  }
}
