/**
 * Job sightings: the incremental upsert made while a run settles
 * (packages/core/src/database.ts) and the batch rebuild over stored jobs
 * (scripts/jobs/backfill-job-sightings.ts).
 */
module Sightings {
  import opened Prelude

  type OwnerId = nat
  type RunId = nat
  type Source = nat
  type Fingerprint = string
  type Key = (OwnerId, Fingerprint)

  datatype Posting = Posting(fingerprint: Fingerprint, title: string, company: string, postedAt: Option<int>,
                             source: Source, links: seq<Source>)

  /** What a row says apart from when it was written. */
  datatype Evidence = Evidence(title: string, company: string, sightings: nat, firstPosted: Option<int>,
                               lastPosted: Option<int>, reposts: nat, lastRun: RunId)

  /** A row of the table: `firstSeen` and `lastSeen` are when it was inserted and last updated. */
  datatype Sighting = Sighting(evidence: Evidence, firstSeen: int, lastSeen: int)

  /** One observation of a posting by a run. */
  datatype Row = Row(owner: OwnerId, posting: Posting, run: RunId, runCreatedAt: int) {
    function RowKey(): Key { (owner, posting.fingerprint) }
  }

  /** The conflict branch of the upsert. */
  function Seen(prev: Evidence, r: Row): Evidence {
    var newer := r.posting.postedAt.Some? && prev.lastPosted.Some? && r.posting.postedAt.value > prev.lastPosted.value;
    Evidence(r.posting.title, r.posting.company, prev.sightings + 1, prev.firstPosted,
             if r.posting.postedAt.Some? then r.posting.postedAt else prev.lastPosted,
             prev.reposts + (if newer then 1 else 0), r.run)
  }

  function First(r: Row): Evidence {
    Evidence(r.posting.title, r.posting.company, 1, r.posting.postedAt, r.posting.postedAt, 0, r.run)
  }

  function Upsert(m: map<Key, Evidence>, r: Row): map<Key, Evidence> {
    m[r.RowKey() := if r.RowKey() in m then Seen(m[r.RowKey()], r) else First(r)]
  }

  function UpsertAll(m: map<Key, Evidence>, rows: seq<Row>): map<Key, Evidence> {
    if rows == [] then m else Upsert(UpsertAll(m, rows[..|rows| - 1]), rows[|rows| - 1])
  }

  /** The upsert with its times; `clock` says when a row is written. */
  function Record(m: map<Key, Sighting>, r: Row, clock: Row -> int): map<Key, Sighting> {
    m[r.RowKey() := if r.RowKey() in m then Sighting(Seen(m[r.RowKey()].evidence, r), m[r.RowKey()].firstSeen, clock(r))
                    else Sighting(First(r), clock(r), clock(r))]
  }

  function RecordAll(m: map<Key, Sighting>, rows: seq<Row>, clock: Row -> int): map<Key, Sighting>
    decreases |rows|
  {
    if rows == [] then m else Record(RecordAll(m, rows[..|rows| - 1], clock), rows[|rows| - 1], clock)
  }

  /** Settling writes at the time of its transaction, the rebuild at the time the run was created. */
  function SettledAt(now: int): Row -> int {
    (r: Row) => now
  }

  function CreatedAt(): Row -> int {
    (r: Row) => r.runCreatedAt
  }

  function EvidenceOf(m: map<Key, Sighting>): map<Key, Evidence> {
    map k | k in m :: m[k].evidence
  }

  /** The evidence does not depend on any clock. */
  lemma {:induction false} EvidenceIsTimeless(m: map<Key, Sighting>, rows: seq<Row>, clock: Row -> int)
    ensures EvidenceOf(RecordAll(m, rows, clock)) == UpsertAll(EvidenceOf(m), rows)
    decreases |rows|
  {
    if rows != [] {
      EvidenceIsTimeless(m, rows[..|rows| - 1], clock);
      hide Seen, First;
    }
  }

  /** One settled run: `rows` in the order the settle loop visits its jobs. */
  datatype Batch = Batch(owner: OwnerId, run: RunId, createdAt: int, settledAt: int, postings: seq<Posting>)

  function Observed(b: Batch): seq<Row> {
    seq(|b.postings|, i requires 0 <= i < |b.postings| => Row(b.owner, b.postings[i], b.run, b.createdAt))
  }

  predicate Mentions(ps: seq<Posting>, fingerprint: Fingerprint) {
    exists p :: p in ps && p.fingerprint == fingerprint
  }

  /** `search_jobs` keeps the first posting per run and fingerprint; later ones hit `DO NOTHING`. */
  function StoredPostings(ps: seq<Posting>): seq<Posting> {
    if ps == [] then []
    else var init := StoredPostings(ps[..|ps| - 1]);
         if Mentions(init, ps[|ps| - 1].fingerprint) then init else init + [ps[|ps| - 1]]
  }

  function Stored(b: Batch): seq<Row> {
    Observed(b.(postings := StoredPostings(b.postings)))
  }

  // ---------------------------------------------------------------------------------------------
  // Histories: what the table holds after a sequence of settled runs, and what the job ledger keeps.

  ghost function AllObserved(bs: seq<Batch>): seq<Row> {
    if bs == [] then [] else AllObserved(bs[..|bs| - 1]) + Observed(bs[|bs| - 1])
  }

  ghost function AllStored(bs: seq<Batch>): seq<Row> {
    if bs == [] then [] else AllStored(bs[..|bs| - 1]) + Stored(bs[|bs| - 1])
  }

  ghost predicate Distinct(b: Batch) {
    forall i, j :: 0 <= i < j < |b.postings| ==> b.postings[i].fingerprint != b.postings[j].fingerprint
  }

  predicate Observes(b: Batch, k: Key) {
    b.owner == k.0 && Mentions(b.postings, k.1)
  }

  function Observing(k: Key): Batch -> bool {
    (b: Batch) => Observes(b, k)
  }

  /** The batches that saw a key, in settle order. */
  function Observers(bs: seq<Batch>, k: Key): seq<Batch> {
    Filter(bs, Observing(k))
  }

  ghost predicate Increasing(bs: seq<Batch>) {
    forall i, j :: 0 <= i < j < |bs| ==> bs[i].createdAt < bs[j].createdAt
  }

  /** For each key, settle order follows run creation order. */
  ghost predicate InCreationOrder(bs: seq<Batch>) {
    forall k :: Increasing(Observers(bs, k))
  }

  /** What `ORDER BY owner, fingerprint, run creation` guarantees for one key. */
  ghost predicate ReplayOrder(rows: seq<Row>) {
    forall i, j :: 0 <= i < j < |rows| && rows[i].RowKey() == rows[j].RowKey() ==>
        rows[i].runCreatedAt <= rows[j].runCreatedAt
  }

  /** Rebuilds the table by visiting the stored rows once. */
  method Replay(rows: seq<Row>) returns (rebuilt: map<Key, Sighting>)
    ensures rebuilt == RecordAll(map[], rows, CreatedAt())
  {
    rebuilt := map[];
    for i := 0 to |rows|
      invariant rebuilt == RecordAll(map[], rows[..i], CreatedAt())
    {
      var row := rows[i];
      var key := row.RowKey();
      assert rows[..i + 1][..i] == rows[..i];
      if key !in rebuilt {
        rebuilt := rebuilt[key := Sighting(Evidence(row.posting.title, row.posting.company, 1, row.posting.postedAt,
                                                    row.posting.postedAt, 0, row.run), row.runCreatedAt,
                                                    row.runCreatedAt)];
        continue;
      }
      var existing := rebuilt[key].evidence;
      existing := existing.(sightings := existing.sightings + 1, title := row.posting.title,
                            company := row.posting.company, lastRun := row.run);
      if row.posting.postedAt.Some? && existing.lastPosted.Some?
         && row.posting.postedAt.value > existing.lastPosted.value {
        existing := existing.(reposts := existing.reposts + 1);
      }
      if row.posting.postedAt.Some? {
        existing := existing.(lastPosted := row.posting.postedAt);
      }
      rebuilt := rebuilt[key := rebuilt[key].(evidence := existing, lastSeen := row.runCreatedAt)];
    }
    assert rows[..|rows|] == rows;
  }

  // ---------------------------------------------------------------------------------------------
  // The fold of one key depends only on that key's own rows.

  function Keyed(k: Key): Row -> bool {
    (r: Row) => r.RowKey() == k
  }

  function KeyRows(rows: seq<Row>, k: Key): seq<Row> {
    Filter(rows, Keyed(k))
  }

  function FoldKey(rows: seq<Row>): Option<Evidence> {
    if rows == [] then None
    else match FoldKey(rows[..|rows| - 1])
         case None => Some(First(rows[|rows| - 1]))
         case Some(s) => Some(Seen(s, rows[|rows| - 1]))
  }

  function Lookup(m: map<Key, Evidence>, k: Key): Option<Evidence> {
    if k in m then Some(m[k]) else None
  }

  lemma {:induction false} FoldIsKeyLocal(rows: seq<Row>, k: Key)
    ensures Lookup(UpsertAll(map[], rows), k) == FoldKey(KeyRows(rows, k))
  {
    if rows != [] {
      FoldIsKeyLocal(rows[..|rows| - 1], k);
      var init := KeyRows(rows[..|rows| - 1], k);
      var last := rows[|rows| - 1];
      assert KeyRows(rows, k) == init + (if last.RowKey() == k then [last] else []);
      if last.RowKey() == k {
        assert (init + [last])[..|init|] == init;
      } else {
        assert KeyRows(rows, k) == init;
      }
    }
  }

  lemma {:induction false} FoldCountsRows(rows: seq<Row>)
    ensures FoldKey(rows).Some? <==> rows != []
    ensures rows != [] ==> FoldKey(rows).value.sightings == |rows|
  {
    if rows != [] {
      FoldCountsRows(rows[..|rows| - 1]);
    }
  }

  /** The posting dates that these rows give, in order. */
  function Dates(rows: seq<Row>): seq<int> {
    if rows == [] then []
    else
      var last := rows[|rows| - 1].posting.postedAt;
      Dates(rows[..|rows| - 1]) + (if last.Some? then [last.value] else [])
  }

  /** Where a date is later than the one given before it. */
  predicate Rise(dates: seq<int>, i: nat) {
    0 < i < |dates| && dates[i - 1] < dates[i]
  }

  ghost function Rises(dates: seq<int>): set<nat> {
    set i | 0 <= i < |dates| && Rise(dates, i)
  }

  /**
   * What an entry says about the rows of its key: title, company and run of the last one, how many there were, the
   * date of the first row, the last date that any row gave, and how often a date was later than the one before it.
   */
  ghost predicate Tells(e: Evidence, rows: seq<Row>) {
    && rows != []
    && var last, dates := rows[|rows| - 1], Dates(rows);
    && e.title == last.posting.title && e.company == last.posting.company && e.lastRun == last.run
    && e.sightings == |rows| && e.firstPosted == rows[0].posting.postedAt
    && e.lastPosted == (if dates == [] then None else Some(dates[|dates| - 1]))
    && e.reposts == |Rises(dates)|
  }

  lemma {:induction false} FoldTells(rows: seq<Row>)
    requires rows != []
    ensures FoldKey(rows).Some? && Tells(FoldKey(rows).value, rows)
    decreases |rows|
  {
    var n := |rows| - 1;
    if n == 0 {
      OneRowTells(rows);
    } else {
      FoldTells(rows[..n]);
      SeenTells(FoldKey(rows[..n]).value, rows);
    }
  }

  lemma OneRowTells(rows: seq<Row>)
    requires |rows| == 1
    ensures FoldKey(rows) == Some(First(rows[0])) && Tells(First(rows[0]), rows)
  {
    assert rows[..0] == [];
    assert FoldKey(rows[..0]) == None && Dates(rows[..0]) == [];
    assert |Dates(rows)| <= 1;
    assert Rises(Dates(rows)) == {};
  }

  lemma SeenTells(e: Evidence, rows: seq<Row>)
    requires |rows| > 1 && Tells(e, rows[..|rows| - 1])
    ensures Tells(Seen(e, rows[|rows| - 1]), rows)
  {
    var n := |rows| - 1;
    var dates := Dates(rows[..n]);
    assert rows[..n][0] == rows[0];
    if rows[n].posting.postedAt.Some? {
      OneMoreDate(dates, rows[n].posting.postedAt.value);
      assert Dates(rows) == dates + [rows[n].posting.postedAt.value];
    } else {
      assert Dates(rows) == dates;
    }
    hide Rises, Dates;
  }

  lemma OneMoreDate(dates: seq<int>, d: int)
    ensures |Rises(dates + [d])| == |Rises(dates)| + (if dates != [] && dates[|dates| - 1] < d then 1 else 0)
  {
    var n := |dates|;
    assert forall i :: 0 <= i < n ==> (Rise(dates + [d], i) <==> Rise(dates, i));
    assert Rises(dates + [d]) == Rises(dates) + (if dates != [] && dates[n - 1] < d then {n} else {});
  }

  /** So does every entry of a table, live or rebuilt, about the rows of its key; a key without rows has none. */
  lemma TableTells(rows: seq<Row>, clock: Row -> int, k: Key)
    ensures var table := RecordAll(map[], rows, clock);
            && (k in table <==> KeyRows(rows, k) != [])
            && (k in table ==> Tells(table[k].evidence, KeyRows(rows, k)))
  {
    EvidenceIsTimeless(map[], rows, clock);
    FoldIsKeyLocal(rows, k);
    if KeyRows(rows, k) != [] { FoldTells(KeyRows(rows, k)); }
    hide KeyRows, UpsertAll, RecordAll, Tells;
    assert EvidenceOf(map[]) == map[];
    assert FoldKey([]) == None;
  }

  // ---------------------------------------------------------------------------------------------
  // One batch: the ledger keeps one row per fingerprint seen.

  /** A batch with one more posting observes one more row. */
  lemma ObservedGrows(b: Batch, p: Posting, k: Key)
    ensures var row := Row(b.owner, p, b.run, b.createdAt);
            KeyRows(Observed(b.(postings := b.postings + [p])), k) ==
                KeyRows(Observed(b), k) + (if row.RowKey() == k then [row] else [])
  {
    var row := Row(b.owner, p, b.run, b.createdAt);
    assert Observed(b.(postings := b.postings + [p])) == Observed(b) + [row];
    FilterAppend(Observed(b), [row], Keyed(k));
    assert Filter([row][..0], Keyed(k)) == [];
  }

  lemma {:induction false} StoredOncePerKey(b: Batch, k: Key)
    ensures |KeyRows(Stored(b), k)| == (if KeyRows(Observed(b), k) == [] then 0 else 1)
    ensures Mentions(StoredPostings(b.postings), k.1) && b.owner == k.0 <==> KeyRows(Observed(b), k) != []
    decreases |b.postings|
  {
    var ps := b.postings;
    if ps != [] {
      var b', last := b.(postings := ps[..|ps| - 1]), ps[|ps| - 1];
      hide Keyed, KeyRows, Observed;
      StoredOncePerKey(b', k);
      assert ps == b'.postings + [last];
      ObservedGrows(b', last, k);
      ObservedGrows(b'.(postings := StoredPostings(b'.postings)), last, k);
    }
  }

  /** The row stored for a key is the first one observed. */
  lemma {:induction false} StoredIsFirst(b: Batch, k: Key)
    ensures var observed := KeyRows(Observed(b), k);
            KeyRows(Stored(b), k) == if observed == [] then [] else [observed[0]]
    decreases |b.postings|
  {
    var ps := b.postings;
    if ps != [] {
      var b', last := b.(postings := ps[..|ps| - 1]), ps[|ps| - 1];
      hide Keyed, KeyRows, Observed;
      StoredIsFirst(b', k);
      StoredOncePerKey(b', k);
      assert ps == b'.postings + [last];
      ObservedGrows(b', last, k);
      ObservedGrows(b'.(postings := StoredPostings(b'.postings)), last, k);
    }
  }

  /** The batch reports this key's fingerprint more than once. */
  predicate Repeats(b: Batch, k: Key) {
    b.owner == k.0
    && exists i, j :: 0 <= i < j < |b.postings| && b.postings[i].fingerprint == k.1 && b.postings[j].fingerprint == k.1
  }

  lemma DistinctIff(b: Batch)
    ensures Distinct(b) <==> forall k :: !Repeats(b, k)
  {
    if !Distinct(b) {
      var i, j :| 0 <= i < j < |b.postings| && b.postings[i].fingerprint == b.postings[j].fingerprint;
      assert Repeats(b, (b.owner, b.postings[i].fingerprint));
    }
  }

  /** A repeated fingerprint is observed more often than it is stored. */
  lemma RepeatIsUndercounted(b: Batch, i: nat, j: nat)
    requires i < j < |b.postings| && b.postings[i].fingerprint == b.postings[j].fingerprint
    ensures var k := (b.owner, b.postings[i].fingerprint); |KeyRows(Stored(b), k)| < |KeyRows(Observed(b), k)|
  {
    var k := (b.owner, b.postings[i].fingerprint);
    var rows := Observed(b);
    StoredOncePerKey(b, k);
    FilterAppend(rows[..j], rows[j..], Keyed(k));
    FilterMembers(rows[..j], Keyed(k));
    FilterMembers(rows[j..], Keyed(k));
    assert rows == rows[..j] + rows[j..];
    assert rows[i] in rows[..j] && rows[j] in rows[j..];
  }

  /** A batch with several rows for a key repeats its fingerprint. */
  lemma {:induction false} SeveralRowsRepeat(b: Batch, k: Key)
    requires |KeyRows(Observed(b), k)| > 1
    ensures Repeats(b, k)
    decreases |b.postings|
  {
    var ps := b.postings;
    var b', last := b.(postings := ps[..|ps| - 1]), ps[|ps| - 1];
    assert ps == b'.postings + [last];
    ObservedGrows(b', last, k);
    var before := KeyRows(Observed(b'), k);
    if |before| > 1 {
      SeveralRowsRepeat(b', k);
      var i, j :| 0 <= i < j < |b'.postings| && b'.postings[i].fingerprint == k.1 && b'.postings[j].fingerprint == k.1;
      assert ps[i].fingerprint == k.1 && ps[j].fingerprint == k.1;
    } else {
      FilterMembers(Observed(b'), Keyed(k));
      assert before[0] in before;
      var i :| 0 <= i < |b'.postings| && Observed(b')[i] == before[0];
      assert ps[i].fingerprint == k.1 && ps[|ps| - 1].fingerprint == k.1;
    }
  }

  // ---------------------------------------------------------------------------------------------
  // Whole histories.

  lemma SplitLastBatch(bs: seq<Batch>, k: Key)
    requires bs != []
    ensures var n := |bs| - 1;
            && |KeyRows(AllStored(bs), k)| == |KeyRows(AllStored(bs[..n]), k)| + |KeyRows(Stored(bs[n]), k)|
            && |KeyRows(AllObserved(bs), k)| == |KeyRows(AllObserved(bs[..n]), k)| + |KeyRows(Observed(bs[n]), k)|
            && |KeyRows(Stored(bs[n]), k)| <= |KeyRows(Observed(bs[n]), k)|
  {
    KeyRowsSplit(bs, k);
    StoredOncePerKey(bs[|bs| - 1], k);
  }

  lemma {:induction false} StoredNeverExceedsObserved(bs: seq<Batch>, k: Key)
    ensures |KeyRows(AllStored(bs), k)| <= |KeyRows(AllObserved(bs), k)|
  {
    if bs != [] {
      SplitLastBatch(bs, k);
      StoredNeverExceedsObserved(bs[..|bs| - 1], k);
    }
  }

  lemma {:induction false} UndercountSurvives(bs: seq<Batch>, k: Key, at: nat)
    requires at < |bs| && |KeyRows(Stored(bs[at]), k)| < |KeyRows(Observed(bs[at]), k)|
    ensures |KeyRows(AllStored(bs), k)| < |KeyRows(AllObserved(bs), k)|
  {
    SplitLastBatch(bs, k);
    if at == |bs| - 1 {
      StoredNeverExceedsObserved(bs[..|bs| - 1], k);
    } else {
      UndercountSurvives(bs[..|bs| - 1], k, at);
    }
  }

  lemma BatchStoresAll(b: Batch, k: Key)
    requires !Repeats(b, k)
    ensures KeyRows(Stored(b), k) == KeyRows(Observed(b), k)
  {
    StoredIsFirst(b, k);
    if |KeyRows(Observed(b), k)| > 1 { SeveralRowsRepeat(b, k); }
    hide KeyRows, Stored, Observed, Repeats;
  }

  lemma KeyRowsSplit(bs: seq<Batch>, k: Key)
    requires bs != []
    ensures var n := |bs| - 1;
            && KeyRows(AllStored(bs), k) == KeyRows(AllStored(bs[..n]), k) + KeyRows(Stored(bs[n]), k)
            && KeyRows(AllObserved(bs), k) == KeyRows(AllObserved(bs[..n]), k) + KeyRows(Observed(bs[n]), k)
  {
    var n := |bs| - 1;
    FilterAppend(AllStored(bs[..n]), Stored(bs[n]), Keyed(k));
    FilterAppend(AllObserved(bs[..n]), Observed(bs[n]), Keyed(k));
  }

  lemma NoRows(k: Key)
    ensures KeyRows(AllStored([]), k) == KeyRows(AllObserved([]), k)
  {
  }

  /** Without repetitions of a key, the ledger keeps all its rows. */
  lemma {:induction false} WithoutRepeatsStoresAll(bs: seq<Batch>, k: Key)
    requires forall b :: b in bs ==> !Repeats(b, k)
    ensures KeyRows(AllStored(bs), k) == KeyRows(AllObserved(bs), k)
    decreases |bs|
  {
    hide KeyRows, AllStored, AllObserved, Stored, Observed, Repeats;
    if bs == [] {
      NoRows(k);
    } else {
      var n := |bs| - 1;
      assert bs[n] in bs && forall b :: b in bs[..n] ==> b in bs;
      WithoutRepeatsStoresAll(bs[..n], k);
      KeyRowsSplit(bs, k);
      BatchStoresAll(bs[n], k);
    }
  }

  ghost predicate StrictlyOrdered(rows: seq<Row>) {
    forall i, j :: 0 <= i < j < |rows| ==> rows[i].runCreatedAt < rows[j].runCreatedAt
  }

  ghost predicate WeaklyOrdered(rows: seq<Row>) {
    forall i, j :: 0 <= i < j < |rows| ==> rows[i].runCreatedAt <= rows[j].runCreatedAt
  }

  /** The row that a batch stores for a key. */
  predicate RowOf(b: Batch, r: Row, k: Key) {
    Observes(b, k) && r.runCreatedAt == b.createdAt && r.run == b.run && r.RowKey() == k
  }

  lemma ObservedRowOf(b: Batch, r: Row, k: Key)
    requires r in Observed(b) && r.RowKey() == k
    ensures RowOf(b, r, k)
  {
    var i :| 0 <= i < |b.postings| && Observed(b)[i] == r;
    assert b.postings[i] in b.postings;
  }

  lemma ObserverHasRow(b: Batch, k: Key)
    requires Observes(b, k)
    ensures exists r :: r in Observed(b) && r.RowKey() == k
  {
    var p :| p in b.postings && p.fingerprint == k.1;
    var i :| 0 <= i < |b.postings| && b.postings[i] == p;
    assert Observed(b)[i] in Observed(b) && Observed(b)[i].RowKey() == k;
  }

  lemma StoredIsObserved(b: Batch, r: Row)
    requires r in Stored(b)
    ensures r in Observed(b)
  {
    StoredPostingsObserved(b.postings);
    var stored := StoredPostings(b.postings);
    var i :| 0 <= i < |stored| && Stored(b)[i] == r;
    assert stored[i] in b.postings;
    var j :| 0 <= j < |b.postings| && b.postings[j] == stored[i];
    assert Observed(b)[j] == r;
  }

  lemma {:induction false} StoredPostingsObserved(ps: seq<Posting>)
    ensures forall p :: p in StoredPostings(ps) ==> p in ps
    decreases |ps|
  {
    if ps != [] {
      StoredPostingsObserved(ps[..|ps| - 1]);
      assert ps == ps[..|ps| - 1] + [ps[|ps| - 1]];
    }
  }

  /** A batch observes a key exactly when it has rows for it; it stores one then. */
  lemma BatchRows(b: Batch, k: Key)
    ensures var stored, observed := KeyRows(Stored(b), k), KeyRows(Observed(b), k);
            && |stored| == (if Observes(b, k) then 1 else 0) && (observed != [] <==> Observes(b, k))
            && (forall r :: r in stored ==> RowOf(b, r, k)) && (forall r :: r in observed ==> RowOf(b, r, k))
  {
    StoredOncePerKey(b, k);
    FilterMembers(Stored(b), Keyed(k));
    FilterMembers(Observed(b), Keyed(k));
    var stored, observed := KeyRows(Stored(b), k), KeyRows(Observed(b), k);
    hide Observes, Stored, Observed, RowOf, Filter;
    if Observes(b, k) { ObserverHasRow(b, k); }
    if observed != [] {
      assert observed[0] in observed;
      ObservedRowOf(b, observed[0], k);
      RowOfObserves(b, observed[0], k);
    }
    forall r | r in stored ensures RowOf(b, r, k) {
      StoredIsObserved(b, r);
      ObservedRowOf(b, r, k);
    }
    forall r | r in observed ensures RowOf(b, r, k) {
      ObservedRowOf(b, r, k);
    }
  }

  lemma RowOfObserves(b: Batch, r: Row, k: Key)
    requires RowOf(b, r, k)
    ensures Observes(b, k)
  {
  }

  /** The ledger keeps one row per observer of a key. */
  lemma {:induction false} StoredRowsOfObservers(bs: seq<Batch>, k: Key)
    ensures var rows, observers := KeyRows(AllStored(bs), k), Observers(bs, k);
            |rows| == |observers| && forall i :: 0 <= i < |rows| ==> RowOf(observers[i], rows[i], k)
    decreases |bs|
  {
    if bs != [] {
      var n := |bs| - 1;
      StoredRowsOfObservers(bs[..n], k);
      FilterAppend(AllStored(bs[..n]), Stored(bs[n]), Keyed(k));
      BatchRows(bs[n], k);
      var more := KeyRows(Stored(bs[n]), k);
      assert Observers(bs, k) == Observers(bs[..n], k) + (if Observes(bs[n], k) then [bs[n]] else []);
      if more != [] { assert more[0] in more; }
      hide Stored, Observes, KeyRows, RowOf, Observers;
    }
  }

  /** The live rows of a key end with one of its last observer. */
  lemma {:induction false} LiveRowsOfObservers(bs: seq<Batch>, k: Key)
    ensures var rows, observers := KeyRows(AllObserved(bs), k), Observers(bs, k);
            (rows == [] <==> observers == []) && (rows != [] ==> RowOf(observers[|observers| - 1], rows[|rows| - 1], k))
    decreases |bs|
  {
    if bs != [] {
      var n := |bs| - 1;
      LiveRowsOfObservers(bs[..n], k);
      FilterAppend(AllObserved(bs[..n]), Observed(bs[n]), Keyed(k));
      BatchRows(bs[n], k);
      var more := KeyRows(Observed(bs[n]), k);
      assert Observers(bs, k) == Observers(bs[..n], k) + (if Observes(bs[n], k) then [bs[n]] else []);
      if more != [] { assert more[|more| - 1] in more; }
      hide Observed, Observes, KeyRows, RowOf, Observers;
    }
  }

  /** In creation order, one key's stored rows have strictly increasing run times. */
  lemma StoredKeyRowsOrdered(bs: seq<Batch>, k: Key)
    requires Increasing(Observers(bs, k))
    ensures StrictlyOrdered(KeyRows(AllStored(bs), k))
  {
    StoredRowsOfObservers(bs, k);
    hide KeyRows, Observers, Observes;
  }

  lemma {:induction false} FilterKeepsOrder(rows: seq<Row>, k: Key)
    requires ReplayOrder(rows)
    ensures WeaklyOrdered(KeyRows(rows, k))
  {
    if rows != [] {
      var n := |rows| - 1;
      FilterKeepsOrder(rows[..n], k);
      FilterMembers(rows[..n], Keyed(k));
      forall r | r in KeyRows(rows[..n], k)
        ensures rows[n].RowKey() == k ==> r.runCreatedAt <= rows[n].runCreatedAt
      {
        var i :| 0 <= i < n && rows[i] == r;
      }
    }
  }

  lemma {:induction false} FilterMultiset(rows: seq<Row>, k: Key)
    ensures forall r :: multiset(KeyRows(rows, k))[r] == if r.RowKey() == k then multiset(rows)[r] else 0
  {
    if rows != [] {
      FilterMultiset(rows[..|rows| - 1], k);
      assert rows == rows[..|rows| - 1] + [rows[|rows| - 1]];
    }
  }

  /** Two orderings of the same elements end alike. */
  lemma SameLast(a: seq<Row>, b: seq<Row>)
    requires multiset(a) == multiset(b) && StrictlyOrdered(a) && WeaklyOrdered(b) && a != [] && |a| == |b|
    ensures a[|a| - 1] == b[|b| - 1]
  {
    var n := |a| - 1;
    assert a[n] in multiset(b) && b[n] in multiset(a);
    var i :| 0 <= i < |b| && b[i] == a[n];
    var j :| 0 <= j < |a| && a[j] == b[n];
    assert a[n].runCreatedAt <= b[n].runCreatedAt;
  }

  lemma DropLast(a: seq<Row>)
    requires a != []
    ensures multiset(a[..|a| - 1]) == multiset(a) - multiset{a[|a| - 1]}
  {
    assert a == a[..|a| - 1] + [a[|a| - 1]];
  }

  lemma Peel(a: seq<Row>, b: seq<Row>) returns (a': seq<Row>, b': seq<Row>, last: Row)
    requires multiset(a) == multiset(b) && StrictlyOrdered(a) && WeaklyOrdered(b) && |a| == |b| && a != []
    ensures a == a' + [last] && b == b' + [last] && |a'| == |b'| == |a| - 1
    ensures multiset(a') == multiset(b')
  {
    hide StrictlyOrdered, WeaklyOrdered;
    SameLast(a, b);
    DropLast(a);
    DropLast(b);
    last, a', b' := a[|a| - 1], a[..|a| - 1], b[..|b| - 1];
  }

  lemma PrefixOrdered(a: seq<Row>, b: seq<Row>, last: Row)
    requires StrictlyOrdered(a + [last]) && WeaklyOrdered(b + [last])
    ensures StrictlyOrdered(a) && WeaklyOrdered(b)
  {
    assert forall i :: 0 <= i < |a| ==> (a + [last])[i] == a[i];
    assert forall i :: 0 <= i < |b| ==> (b + [last])[i] == b[i];
  }

  /** A strictly ordered list is the only weak ordering of its elements. */
  lemma {:induction false} OrderIsUnique(a: seq<Row>, b: seq<Row>)
    requires multiset(a) == multiset(b) && StrictlyOrdered(a) && WeaklyOrdered(b) && |a| == |b|
    ensures a == b
    decreases |a|
  {
    if a != [] {
      var a', b', last := Peel(a, b);
      PrefixOrdered(a', b', last);
      OrderIsUnique(a', b');
    }
  }

  lemma ReplayReadsStoredOrder(bs: seq<Batch>, rows: seq<Row>, k: Key)
    requires Increasing(Observers(bs, k)) && multiset(rows) == multiset(AllStored(bs)) && ReplayOrder(rows)
    ensures KeyRows(rows, k) == KeyRows(AllStored(bs), k)
  {
    StoredKeyRowsOrdered(bs, k);
    FilterKeepsOrder(rows, k);
    FilterMultiset(rows, k);
    FilterMultiset(AllStored(bs), k);
    assert multiset(KeyRows(rows, k)) == multiset(KeyRows(AllStored(bs), k));
    assert |multiset(KeyRows(rows, k))| == |multiset(KeyRows(AllStored(bs), k))|;
    OrderIsUnique(KeyRows(AllStored(bs), k), KeyRows(rows, k));
  }

  lemma OneRepeatUndercounts(bs: seq<Batch>, k: Key, b: Batch)
    requires b in bs && Repeats(b, k)
    ensures |KeyRows(AllStored(bs), k)| < |KeyRows(AllObserved(bs), k)|
  {
    var at :| 0 <= at < |bs| && bs[at] == b;
    var i, j :| 0 <= i < j < |b.postings| && b.postings[i].fingerprint == k.1 && b.postings[j].fingerprint == k.1;
    RepeatIsUndercounted(b, i, j);
    UndercountSurvives(bs, k, at);
  }

  /**
   * For each key whose runs settled in creation order, the rebuilt row equals the live one exactly when no
   * run reported it twice.
   */
  lemma RowAgreesIff(bs: seq<Batch>, rows: seq<Row>, k: Key)
    requires Increasing(Observers(bs, k)) && multiset(rows) == multiset(AllStored(bs)) && ReplayOrder(rows)
    ensures Lookup(UpsertAll(map[], rows), k) == Lookup(UpsertAll(map[], AllObserved(bs)), k)
       <==> forall b :: b in bs ==> !Repeats(b, k)
  {
    ReplayReadsStoredOrder(bs, rows, k);
    FoldIsKeyLocal(rows, k);
    FoldIsKeyLocal(AllObserved(bs), k);
    FoldCountsRows(KeyRows(rows, k));
    FoldCountsRows(KeyRows(AllObserved(bs), k));
    hide Observers, KeyRows, UpsertAll, Lookup, ReplayOrder, FoldKey, AllStored, AllObserved, Repeats, Increasing;
    if forall b :: b in bs ==> !Repeats(b, k) {
      WithoutRepeatsStoresAll(bs, k);
    } else {
      var b :| b in bs && Repeats(b, k);
      OneRepeatUndercounts(bs, k, b);
    }
  }

  lemma SameLookups(a: map<Key, Evidence>, b: map<Key, Evidence>)
    ensures a == b <==> forall k :: Lookup(a, k) == Lookup(b, k)
  {
    if forall k :: Lookup(a, k) == Lookup(b, k) {
      assert forall k :: k in a <==> Lookup(a, k).Some?;
      assert forall k :: k in b <==> Lookup(b, k).Some?;
      assert forall k :: k in a ==> Some(a[k]) == Lookup(a, k) == Lookup(b, k);
    }
  }

  predicate RowsAgree(a: map<Key, Evidence>, b: map<Key, Evidence>, k: Key) {
    Lookup(a, k) == Lookup(b, k)
  }

  predicate NoneRepeats(bs: seq<Batch>, k: Key) {
    forall b :: b in bs ==> !Repeats(b, k)
  }

  /** From rows to tables. */
  lemma TablesAgreeIff(bs: seq<Batch>, a: map<Key, Evidence>, b: map<Key, Evidence>)
    requires forall k :: RowsAgree(a, b, k) <==> NoneRepeats(bs, k)
    ensures a == b <==> forall x :: x in bs ==> Distinct(x)
  {
    SameLookups(a, b);
    if forall k :: RowsAgree(a, b, k) {
      assert forall k :: RowsAgree(a, b, k) ==> Lookup(a, k) == Lookup(b, k);
    }
    forall x { DistinctIff(x); }
    hide Lookup, Repeats, Distinct;
    if x :| x in bs && !Distinct(x) {
      var k :| Repeats(x, k);
      assert !NoneRepeats(bs, k);
    }
  }

  /**
   * The rebuild equals the live table, for every key, exactly when no run reported a fingerprint
   * twice. The order hypothesis is the one the script's own header states.
   */
  lemma ReplayAgreesIffBatchesDistinct(bs: seq<Batch>, rows: seq<Row>)
    requires InCreationOrder(bs) && multiset(rows) == multiset(AllStored(bs)) && ReplayOrder(rows)
    ensures UpsertAll(map[], rows) == UpsertAll(map[], AllObserved(bs)) <==> forall b :: b in bs ==> Distinct(b)
  {
    forall k ensures RowsAgree(UpsertAll(map[], rows), UpsertAll(map[], AllObserved(bs)), k) <==> NoneRepeats(bs, k) {
      assert Increasing(Observers(bs, k));
      RowAgreesIff(bs, rows, k);
    }
    hide *;
    TablesAgreeIff(bs, UpsertAll(map[], rows), UpsertAll(map[], AllObserved(bs)));
  }

  lemma LastRunOfKey(rows: seq<Row>, k: Key)
    requires KeyRows(rows, k) != []
    ensures var mine := KeyRows(rows, k);
            Lookup(UpsertAll(map[], rows), k).Some?
                && Lookup(UpsertAll(map[], rows), k).value.lastRun == mine[|mine| - 1].run
    ensures var mine := KeyRows(rows, k); mine[|mine| - 1] in rows
  {
    FoldIsKeyLocal(rows, k);
    FilterMembers(rows, Keyed(k));
    var mine := KeyRows(rows, k);
    assert mine[|mine| - 1] in mine;
  }

  lemma ReplayEndsNewest(rows: seq<Row>, k: Key, newer: Row)
    requires ReplayOrder(rows) && newer in rows && newer.RowKey() == k
    ensures var mine := KeyRows(rows, k); mine != [] && newer.runCreatedAt <= mine[|mine| - 1].runCreatedAt
  {
    FilterKeepsOrder(rows, k);
    FilterMembers(rows, Keyed(k));
    var mine := KeyRows(rows, k);
    var i :| 0 <= i < |mine| && mine[i] == newer;
  }

  /** A run has one creation time. */
  ghost predicate RunTimesAgree(rows: seq<Row>, others: seq<Row>) {
    forall r, q :: r in rows && q in others && r.run == q.run ==> r.runCreatedAt == q.runCreatedAt
  }

  /** The order hypothesis is needed: when an older run settles last, the two tables name different last runs. */
  lemma LateSettleDiverges(live: seq<Row>, rows: seq<Row>, k: Key, newer: Row)
    requires ReplayOrder(rows) && RunTimesAgree(live, rows)
    requires newer in rows && newer.RowKey() == k && KeyRows(live, k) != []
    requires var settled := KeyRows(live, k); settled[|settled| - 1].runCreatedAt < newer.runCreatedAt
    ensures var rebuilt, stood := Lookup(UpsertAll(map[], rows), k), Lookup(UpsertAll(map[], live), k);
            rebuilt.Some? && stood.Some? && rebuilt.value.lastRun != stood.value.lastRun
  {
    ReplayEndsNewest(rows, k, newer);
    LastRunOfKey(rows, k);
    LastRunOfKey(live, k);
    var settled, mine := KeyRows(live, k), KeyRows(rows, k);
    hide ReplayOrder, KeyRows, UpsertAll, Lookup;
    assert settled[|settled| - 1] in live && mine[|mine| - 1] in rows;
  }

  // ---------------------------------------------------------------------------------------------
  // Exactly when the last runs agree.

  /** Runs are told apart by their identifiers and their creation times. */
  ghost predicate ToldApart(bs: seq<Batch>) {
    forall i, j :: 0 <= i < j < |bs| ==> bs[i].run != bs[j].run && bs[i].createdAt != bs[j].createdAt
  }

  /** The newest of these runs settled last. */
  ghost predicate NewestLast(bs: seq<Batch>) {
    forall i :: 0 <= i < |bs| ==> bs[i].createdAt <= bs[|bs| - 1].createdAt
  }

  /** The rows of a key are the same in any listing of the ledger. */
  lemma SameKeyRows(bs: seq<Batch>, rows: seq<Row>, k: Key)
    requires multiset(rows) == multiset(AllStored(bs))
    ensures forall r :: r in KeyRows(rows, k) <==> r in KeyRows(AllStored(bs), k)
  {
    FilterMembers(rows, Keyed(k));
    FilterMembers(AllStored(bs), Keyed(k));
    assert forall r :: r in rows <==> r in multiset(rows);
    assert forall r :: r in AllStored(bs) <==> r in multiset(AllStored(bs));
  }

  /** The rebuilt rows of a key end with one of its newest observer. */
  lemma RebuiltLastRow(bs: seq<Batch>, rows: seq<Row>, k: Key) returns (m: nat)
    requires multiset(rows) == multiset(AllStored(bs)) && ReplayOrder(rows) && Observers(bs, k) != []
    ensures var mine, observers := KeyRows(rows, k), Observers(bs, k);
            && mine != [] && m < |observers| && mine[|mine| - 1].run == observers[m].run
            && forall i :: 0 <= i < |observers| ==> observers[i].createdAt <= observers[m].createdAt
  {
    StoredRowsOfObservers(bs, k);
    FilterKeepsOrder(rows, k);
    SameKeyRows(bs, rows, k);
    var mine, stored, observers := KeyRows(rows, k), KeyRows(AllStored(bs), k), Observers(bs, k);
    hide Observes, KeyRows, ReplayOrder, Observers, AllStored;
    assert stored[0] in mine;
    assert mine[|mine| - 1] in stored;
    m :| 0 <= m < |stored| && stored[m] == mine[|mine| - 1];
    forall i | 0 <= i < |observers| ensures observers[i].createdAt <= observers[m].createdAt {
      assert stored[i] in mine && RowOf(observers[i], stored[i], k) && RowOf(observers[m], stored[m], k);
      var x :| 0 <= x < |mine| && mine[x] == stored[i];
    }
  }

  /** For each key, the two tables name the same last run if and only if the newest of its runs settled last. */
  lemma LastRunAgreesIff(bs: seq<Batch>, rows: seq<Row>, k: Key)
    requires multiset(rows) == multiset(AllStored(bs)) && ReplayOrder(rows) && Observers(bs, k) != []
             && ToldApart(Observers(bs, k))
    ensures var rebuilt, live := Lookup(UpsertAll(map[], rows), k), Lookup(UpsertAll(map[], AllObserved(bs)), k);
            rebuilt.Some? && live.Some?
                && (rebuilt.value.lastRun == live.value.lastRun <==> NewestLast(Observers(bs, k)))
  {
    hide *;
    LiveRowsOfObservers(bs, k);
    var m := RebuiltLastRow(bs, rows, k);
    LastRunOfKey(rows, k);
    LastRunOfKey(AllObserved(bs), k);
    RowOfRun(Observers(bs, k)[|Observers(bs, k)| - 1], KeyRows(AllObserved(bs), k)[|KeyRows(AllObserved(bs), k)| - 1],
             k);
    NewestIsLastIff(Observers(bs, k), m);
  }

  lemma RowOfRun(b: Batch, r: Row, k: Key)
    requires RowOf(b, r, k)
    ensures r.run == b.run
  {
  }

  lemma NewestIsLastIff(bs: seq<Batch>, m: nat)
    requires ToldApart(bs) && m < |bs| && forall i :: 0 <= i < |bs| ==> bs[i].createdAt <= bs[m].createdAt
    ensures bs[m].run == bs[|bs| - 1].run <==> NewestLast(bs)
  {
    if m != |bs| - 1 { assert bs[m].run != bs[|bs| - 1].run; }
  }

  // ---------------------------------------------------------------------------------------------
  // When rows were seen.

  /** The live table after these settlements. */
  ghost function RecordBatches(bs: seq<Batch>): map<Key, Sighting>
    decreases |bs|
  {
    if bs == [] then map[]
    else RecordAll(RecordBatches(bs[..|bs| - 1]), Observed(bs[|bs| - 1]), SettledAt(bs[|bs| - 1].settledAt))
  }

  lemma {:induction false} RecordConcat(m: map<Key, Evidence>, a: seq<Row>, b: seq<Row>)
    ensures UpsertAll(m, a + b) == UpsertAll(UpsertAll(m, a), b)
    decreases |b|
  {
    if b == [] {
      assert a + b == a;
    } else {
      RecordConcat(m, a, b[..|b| - 1]);
      assert (a + b)[..|a + b| - 1] == a + b[..|b| - 1];
    }
  }

  lemma {:induction false} RecordedEvidence(bs: seq<Batch>)
    ensures EvidenceOf(RecordBatches(bs)) == UpsertAll(map[], AllObserved(bs))
    decreases |bs|
  {
    if bs != [] {
      var front, last := bs[..|bs| - 1], bs[|bs| - 1];
      RecordedEvidence(front);
      EvidenceIsTimeless(RecordBatches(front), Observed(last), SettledAt(last.settledAt));
      RecordConcat(map[], AllObserved(front), Observed(last));
    }
  }

  /** Recording keeps the first time of a known key, and stamps the last time of a key that occurs. */
  lemma {:induction false} RecordStamps(m: map<Key, Sighting>, rows: seq<Row>, clock: Row -> int, k: Key)
    ensures var m', mine := RecordAll(m, rows, clock), KeyRows(rows, k);
            && (k in m' <==> k in m || mine != [])
            && (k in m ==> m'[k].firstSeen == m[k].firstSeen)
               && (k !in m && mine != [] ==> m'[k].firstSeen == clock(mine[0]))
            && (mine == [] && k in m ==> m'[k] == m[k]) && (mine != [] ==> m'[k].lastSeen == clock(mine[|mine| - 1]))
    decreases |rows|
  {
    if rows != [] {
      var front, last := rows[..|rows| - 1], rows[|rows| - 1];
      RecordStamps(m, front, clock, k);
      assert KeyRows(rows, k) == KeyRows(front, k) + (if last.RowKey() == k then [last] else []);
      hide KeyRows, Seen, First;
    }
  }

  /** The live row of a key was first seen when its first batch settled, and last seen when its last batch did. */
  lemma {:induction false} LiveSeenTimes(bs: seq<Batch>, k: Key)
    ensures var m, observers := RecordBatches(bs), Observers(bs, k);
            && (k in m <==> observers != [])
            && (k in m ==>
                  m[k].firstSeen == observers[0].settledAt && m[k].lastSeen == observers[|observers| - 1].settledAt)
    decreases |bs|
  {
    if bs != [] {
      var n := |bs| - 1;
      LiveSeenTimes(bs[..n], k);
      RecordStamps(RecordBatches(bs[..n]), Observed(bs[n]), SettledAt(bs[n].settledAt), k);
      BatchRows(bs[n], k);
      assert Observers(bs, k) == Observers(bs[..n], k) + (if Observes(bs[n], k) then [bs[n]] else []);
      hide Observes, KeyRows, RecordAll, Observed, Observers;
    }
  }

  /**
   * In creation order, the rebuilt row of a key was seen from the creation of its first run to the creation
   * of its last one.
   */
  lemma RebuiltSeenTimes(bs: seq<Batch>, rows: seq<Row>, k: Key)
    requires Increasing(Observers(bs, k)) && multiset(rows) == multiset(AllStored(bs)) && ReplayOrder(rows)
    ensures var m, observers := RecordAll(map[], rows, CreatedAt()), Observers(bs, k);
            && (k in m <==> observers != [])
            && (k in m ==>
                  m[k].firstSeen == observers[0].createdAt && m[k].lastSeen == observers[|observers| - 1].createdAt)
  {
    ReplayReadsStoredOrder(bs, rows, k);
    RecordStamps(map[], rows, CreatedAt(), k);
    StoredRowsOfObservers(bs, k);
    hide KeyRows, RecordAll, AllStored, ReplayOrder, Observers, Observes, Increasing;
  }
}
