/**
 * Saved leads (packages/core/src/leads.ts): saving, revision-guarded updates with history, and the
 * keyset pages of the list and of the history.
 */
module Leads {
  import opened Prelude
  import P = SearchPipeline

  type OwnerId = nat
  type LeadId = nat
  type JobId = nat
  type RunId = nat

  /** A collected job; `text` is everything besides its fingerprint. */
  datatype JobData = JobData(fingerprint: string, text: string)

  datatype JobRow = JobRow(owner: OwnerId, run: RunId, data: JobData)

  datatype RunRow = RunRow(owner: OwnerId, status: P.RunStatus)

  datatype Status = Saved | Applied | Interviewing | Offer | Rejected | Withdrawn | Archived {
    predicate Progressed() { !Saved? && !Archived? }
  }

  datatype Evidence = Evidence(method_: string, appliedAt: string, confirmation: string, source: string,
                               confidence: string)

  datatype Lead = Lead(owner: OwnerId, data: JobData, notes: string, status: Status, evidence: Option<Evidence>,
                       tags: seq<string>, revision: int, createdAt: int)

  datatype Entry = Entry(revision: int, previousStatus: Option<Status>, status: Status, notesChanged: bool,
                         evidenceChanged: bool, evidence: Option<Evidence>, tagsChanged: bool, tags: seq<string>)

  /** `KeepEvidence` is an absent field, `SetEvidence(None)` an explicit null. */
  datatype EvidenceChange = KeepEvidence | SetEvidence(value: Option<Evidence>)

  datatype Changes = Changes(revision: int, notes: string, status: Status, evidence: EvidenceChange,
                             tags: Option<seq<string>>)

  /** `byFingerprint` is the unique index on owner and fingerprint; jobs and runs belong to the search pipeline. */
  datatype Tables = Tables(leads: map<LeadId, Lead>, byFingerprint: map<(OwnerId, string), LeadId>,
                           history: map<LeadId, seq<Entry>>, jobs: map<JobId, JobRow>, runs: map<RunId, RunRow>,
                           now: int)

  datatype UpdateReply = NotFound | StaleRevision | TagsLocked | EvidenceRemoved | EvidenceNeedsStatus
                       | StatusNeedsEvidence | InvalidInput | Unchanged | Updated

  const MAX_REVISION: int := 2147483646

  const FirstEntry := Entry(1, None, Saved, false, false, None, false, [])

  /** The job, if it is the owner's and was collected by a completed or partial run of the owner. */
  function FindJob(t: Tables, owner: OwnerId, job: JobId): Option<JobData> {
    if job in t.jobs && t.jobs[job].owner == owner && t.jobs[job].run in t.runs
        && t.runs[t.jobs[job].run].owner == owner
       && (t.runs[t.jobs[job].run].status.Completed? || t.runs[t.jobs[job].run].status.Partial?)
    then Some(t.jobs[job].data) else None
  }

  function AfterSave(t: Tables, owner: OwnerId, job: JobId, id: LeadId): (Tables, Option<LeadId>) {
    var found := FindJob(t, owner, job);
    if found.None? then (t, None)
    else if (owner, found.value.fingerprint) in t.byFingerprint
      then (t, Some(t.byFingerprint[(owner, found.value.fingerprint)]))
    else
      (t.(leads := t.leads[id := Lead(owner, found.value, "", Saved, None, [], 1, t.now)],
          byFingerprint := t.byFingerprint[(owner, found.value.fingerprint) := id],
          history := t.history[id := [FirstEntry]]), Some(id))
  }

  predicate Organizing(s: Status) {
    s.Saved? || s.Archived?
  }

  function NewEvidence(current: Lead, c: Changes): Option<Evidence> {
    if c.evidence.KeepEvidence? then current.evidence else c.evidence.value
  }

  function Check(current: Lead, c: Changes): UpdateReply {
    var evidence := NewEvidence(current, c);
    if current.revision != c.revision then StaleRevision
    else if c.tags.Some? && (!Organizing(current.status) || !Organizing(c.status)) then TagsLocked
    else if current.evidence.Some? && c.evidence == SetEvidence(None) then EvidenceRemoved
    else if current.evidence.None? && evidence.Some? && !c.status.Progressed() then EvidenceNeedsStatus
    else if c.status.Progressed() && current.evidence.None? && evidence.None? && current.status != c.status
      then StatusNeedsEvidence
    else if current.notes == c.notes && current.status == c.status && current.evidence == evidence
        && current.tags == c.tags.GetOr(current.tags)
    then Unchanged
    else Updated
  }

  function Changed(current: Lead, c: Changes): Lead {
    current.(notes := c.notes, status := c.status, evidence := NewEvidence(current, c),
             tags := c.tags.GetOr(current.tags),
             revision := current.revision + 1)
  }

  function EntryFor(current: Lead, c: Changes): Entry {
    var lead := Changed(current, c);
    Entry(lead.revision, Some(current.status), c.status, current.notes != c.notes, current.evidence != lead.evidence,
          lead.evidence,
          current.tags != lead.tags, lead.tags)
  }

  function HistoryOf(t: Tables, id: LeadId): seq<Entry> {
    if id in t.history then t.history[id] else []
  }

  function AfterUpdate(t: Tables, owner: OwnerId, id: LeadId, c: Changes): (Tables, UpdateReply) {
    if !(1 <= c.revision <= MAX_REVISION) then (t, InvalidInput)
    else if id !in t.leads || t.leads[id].owner != owner then (t, NotFound)
    else
      var current := t.leads[id];
      var reply := Check(current, c);
      if reply.Updated?
      then (t.(leads := t.leads[id := Changed(current, c)],
               history := t.history[id := HistoryOf(t, id) + [EntryFor(current, c)]]), Updated)
      else (t, reply)
  }

  class LeadRepository {
    var leads: map<LeadId, Lead>
    var byFingerprint: map<(OwnerId, string), LeadId>
    var history: map<LeadId, seq<Entry>>

    var jobs: map<JobId, JobRow>
    var runs: map<RunId, RunRow>
    var now: int

    function Stored(): Tables
      reads this
    {
      Tables(leads, byFingerprint, history, jobs, runs, now)
    }

    constructor (jobs: map<JobId, JobRow>, runs: map<RunId, RunRow>, now: int)
      ensures Stored() == Tables(map[], map[], map[], jobs, runs, now)
    {
      leads, byFingerprint, history := map[], map[], map[];
      this.jobs, this.runs, this.now := jobs, runs, now;
    }

    method Save(owner: OwnerId, job: JobId, id: LeadId) returns (saved: Option<LeadId>)
      requires id !in leads
      modifies this`leads, this`byFingerprint, this`history
      ensures (Stored(), saved) == AfterSave(old(Stored()), owner, job, id)
    {
      if job !in jobs || jobs[job].owner != owner { return None; }
      var source := jobs[job];
      if source.run !in runs || runs[source.run].owner != owner { return None; }
      if !(runs[source.run].status.Completed? || runs[source.run].status.Partial?) { return None; }
      var key := (owner, source.data.fingerprint);
      if key !in byFingerprint {
        leads := leads[id := Lead(owner, source.data, "", Saved, None, [], 1, now)];
        byFingerprint := byFingerprint[key := id];
        history := history[id := [FirstEntry]];
        return Some(id);
      }
      return Some(byFingerprint[key]);
    }

    method Update(owner: OwnerId, id: LeadId, changes: Changes) returns (reply: UpdateReply)
      modifies this`leads, this`history
      ensures (Stored(), reply) == AfterUpdate(old(Stored()), owner, id, changes)
    {
      if changes.revision < 1 || changes.revision > MAX_REVISION { return InvalidInput; }
      if id !in leads || leads[id].owner != owner { return NotFound; }
      var current := leads[id];
      if current.revision != changes.revision { return StaleRevision; }
      if changes.tags.Some? && (current.status.Progressed() || changes.status.Progressed()) { return TagsLocked; }
      var evidence := if changes.evidence.KeepEvidence? then current.evidence else changes.evidence.value;
      var tags := changes.tags.GetOr(current.tags);
      if current.evidence.Some? && changes.evidence.SetEvidence? && changes.evidence.value.None? {
        return EvidenceRemoved;
      }
      if current.evidence.None? && evidence.Some? && !changes.status.Progressed() { return EvidenceNeedsStatus; }
      if changes.status.Progressed() && current.evidence.None? && evidence.None? && current.status != changes.status {
        return StatusNeedsEvidence;
      }
      if current.notes == changes.notes && current.status == changes.status && current.evidence == evidence
          && current.tags == tags {
        return Unchanged;
      }
      var updated := current.(notes := changes.notes, status := changes.status, evidence := evidence, tags := tags,
                              revision := current.revision + 1);
      leads := leads[id := updated];
      var entry := Entry(updated.revision, Some(current.status), changes.status, current.notes != changes.notes,
                         current.evidence != evidence, evidence, current.tags != tags, tags);
      history := history[id := (if id in history then history[id] else []) + [entry]];
      return Updated;
    }

    /** `ORDER BY created_at DESC, id DESC LIMIT limit + 1` behind the row that `before` names, whatever its status. */
    method List(owner: OwnerId, status: Status, before: Option<LeadId>, limit: nat)
      returns (items: seq<LeadId>, next: Option<LeadId>)
      requires limit > 0
      ensures (items, next) == ListPage(Stored(), owner, status, before, limit)
    {
      var found := Take(ListedBehind(Stored(), owner, status, before), limit + 1);
      ghost var all := Sorted(leads, ListedBehind(Stored(), owner, status, before));
      hide Sorted, ListedBehind;
      if |found| > limit {
        assert all[..limit + 1][..limit] == all[..limit];
        return found[..limit], Some(found[limit - 1]);
      }
      return found, None;
    }

    method Take(ids: set<LeadId>, limit: nat) returns (found: seq<LeadId>)
      ensures found == if |Sorted(leads, ids)| > limit then Sorted(leads, ids)[..limit] else Sorted(leads, ids)
    {
      found := [];
      var left := ids;
      SortedNone(leads);
      hide Sorted, Newest, KeyOf, Below;
      while left != {} && |found| < limit
        invariant |found| <= limit && Sorted(leads, ids) == found + Sorted(leads, left)
        decreases left
      {
        NewestExists(leads, left);
        var id :| id in left && IsNewest(leads, left, id);
        NewestIs(leads, left, id);
        found, left := found + [id], left - {id};
      }
      SortedCount(leads, left);
    }
  }

  // ---------------------------------------------------------------------------------------------
  // Keyset pages.

  /** The sort key: creation time and id of a lead, or a history entry's revision. */
  type SortKey = (int, int)

  predicate Below(a: SortKey, b: SortKey) {
    a.0 < b.0 || (a.0 == b.0 && a.1 < b.1)
  }

  /** A fixed snapshot in `ORDER BY ... DESC` order; keys are unique. */
  predicate Descending<T>(rows: seq<T>, key: T -> SortKey) {
    forall i, j :: 0 <= i < j < |rows| ==> Below(key(rows[j]), key(rows[i]))
  }

  /** The rows behind the cursor. */
  function Behind<T>(rows: seq<T>, key: T -> SortKey, cursor: Option<SortKey>): (r: seq<T>)
    ensures |r| <= |rows|
    decreases |rows|
  {
    if rows == [] then []
    else if cursor.None? || Below(key(rows[0]), cursor.value) then [rows[0]] + Behind(rows[1..], key, cursor)
    else Behind(rows[1..], key, cursor)
  }

  /** `LIMIT limit + 1`, of which the last one only tells whether there is another page. */
  function Page<T>(rows: seq<T>, key: T -> SortKey, cursor: Option<SortKey>,
                   limit: nat): (page: (seq<T>, Option<SortKey>))
    requires limit > 0
    ensures |page.0| <= limit && (page.1.Some? ==> |page.0| == limit && page.1.value == key(page.0[limit - 1]))
  {
    var found := Behind(rows, key, cursor);
    if |found| > limit then (found[..limit], Some(key(found[limit - 1]))) else (found, None)
  }

  lemma {:induction false} BehindNone<T>(rows: seq<T>, key: T -> SortKey)
    ensures Behind(rows, key, None) == rows
    decreases |rows|
  {
    if rows != [] { BehindNone(rows[1..], key); }
  }

  lemma {:induction false} BehindAll<T>(rows: seq<T>, key: T -> SortKey, cursor: SortKey)
    requires forall i :: 0 <= i < |rows| ==> Below(key(rows[i]), cursor)
    ensures Behind(rows, key, Some(cursor)) == rows
    decreases |rows|
  {
    if rows != [] { BehindAll(rows[1..], key, cursor); }
  }

  /** The cursor of row `n` stands right before row `n + 1`. */
  lemma {:induction false} BehindRow<T>(rows: seq<T>, key: T -> SortKey, n: nat)
    requires Descending(rows, key) && n < |rows|
    ensures Behind(rows, key, Some(key(rows[n]))) == rows[n + 1..]
    decreases |rows|
  {
    assert !Below(key(rows[0]), key(rows[n]));
    if n == 0 {
      assert forall i :: 0 <= i < |rows[1..]| ==> rows[1..][i] == rows[i + 1];
      BehindAll(rows[1..], key, key(rows[0]));
    } else {
      assert rows[1..][n - 1] == rows[n] && rows[1..][n..] == rows[n + 1..];
      BehindRow(rows[1..], key, n - 1);
    }
  }

  /** Everything a client gets that follows `nextCursor` to the end, from row `n` on. */
  ghost function Followed<T(!new)>(rows: seq<T>, key: T -> SortKey, cursor: Option<SortKey>, limit: nat): seq<T>
    requires limit > 0 && Descending(rows, key)
             && (cursor.Some? ==> exists n :: 0 <= n < |rows| && cursor.value == key(rows[n]))
    decreases |Behind(rows, key, cursor)|
  {
    var (items, next) := Page(rows, key, cursor, limit);
    if next.None? then items
    else
      PageAdvances(rows, key, cursor, limit);
      items + Followed(rows, key, next, limit)
  }

  ghost function StartOf<T(!new)>(rows: seq<T>, key: T -> SortKey, cursor: Option<SortKey>): (start: nat)
    requires Descending(rows, key) && (cursor.Some? ==> exists n :: 0 <= n < |rows| && cursor.value == key(rows[n]))
    ensures start <= |rows| && Behind(rows, key, cursor) == rows[start..]
  {
    if cursor.None? then
      BehindNone(rows, key);
      0
    else
      var n :| 0 <= n < |rows| && cursor.value == key(rows[n]);
      BehindRow(rows, key, n);
      n + 1
  }

  lemma PageIs<T>(rows: seq<T>, key: T -> SortKey, cursor: Option<SortKey>, limit: nat)
    requires limit > 0
    ensures var found := Behind(rows, key, cursor);
            Page(rows, key, cursor, limit) == if |found| > limit then (found[..limit], Some(key(found[limit - 1])))
                else (found, None)
  {
  }

  lemma PageFrom<T>(rows: seq<T>, key: T -> SortKey, cursor: Option<SortKey>, limit: nat, start: nat)
    requires limit > 0 && Descending(rows, key) && start <= |rows| && Behind(rows, key, cursor) == rows[start..]
    ensures var page := Page(rows, key, cursor, limit);
            if |rows| - start > limit
            then page == (rows[start..start + limit], Some(key(rows[start + limit - 1])))
                && Behind(rows, key, page.1) == rows[start + limit..]
            else page == (rows[start..], None)
  {
    PageIs(rows, key, cursor, limit);
    if |rows| - start > limit {
      Front(rows, start, limit);
      BehindRow(rows, key, start + limit - 1);
    }
    hide *;
  }

  lemma PageAdvances<T(!new)>(rows: seq<T>, key: T -> SortKey, cursor: Option<SortKey>, limit: nat)
    requires limit > 0 && Descending(rows, key)
             && (cursor.Some? ==> exists n :: 0 <= n < |rows| && cursor.value == key(rows[n]))
    ensures var next := Page(rows, key, cursor, limit).1;
            next.Some? ==> |Behind(rows, key, next)| < |Behind(rows, key, cursor)|
                           && exists n :: 0 <= n < |rows| && next.value == key(rows[n])
  {
    var start := StartOf(rows, key, cursor);
    PageFrom(rows, key, cursor, limit, start);
    hide Behind, Descending, Page, StartOf;
    var next := Page(rows, key, cursor, limit).1;
    if next.Some? {
      assert 0 <= start + limit - 1 < |rows| && next.value == key(rows[start + limit - 1]);
    }
  }

  lemma Front<T>(rows: seq<T>, start: nat, n: nat)
    requires start + n <= |rows|
    ensures rows[start..][..n] == rows[start..start + n]
    ensures n > 0 ==> rows[start..][n - 1] == rows[start + n - 1]
  {
  }

  lemma {:induction false} FollowedIsRest<T(!new)>(rows: seq<T>, key: T -> SortKey, cursor: Option<SortKey>,
                                                   limit: nat, start: nat)
    requires limit > 0 && Descending(rows, key)
             && (cursor.Some? ==> exists n :: 0 <= n < |rows| && cursor.value == key(rows[n]))
    requires start <= |rows| && Behind(rows, key, cursor) == rows[start..]
    ensures Followed(rows, key, cursor, limit) == rows[start..]
    decreases |rows| - start
  {
    PageFrom(rows, key, cursor, limit, start);
    PageAdvances(rows, key, cursor, limit);
    hide Behind, Descending, Page;
    if |rows| - start > limit {
      FollowedIsRest(rows, key, Page(rows, key, cursor, limit).1, limit, start + limit);
      Halves(rows, start, start + limit);
    }
  }

  lemma Halves<T>(rows: seq<T>, a: nat, b: nat)
    requires a <= b <= |rows|
    ensures rows[a..b] + rows[b..] == rows[a..]
  {
  }

  /** Following the cursor over a fixed snapshot returns every row once, in order, whatever the page size. */
  lemma PagesAreComplete<T(!new)>(rows: seq<T>, key: T -> SortKey, limit: nat)
    requires limit > 0 && Descending(rows, key)
    ensures Followed(rows, key, None, limit) == rows
  {
    BehindNone(rows, key);
    FollowedIsRest(rows, key, None, limit, 0);
  }

  // ---------------------------------------------------------------------------------------------
  // The list: its order, and its cursor, which is the id of a lead.

  function KeyOf(leads: map<LeadId, Lead>, id: LeadId): SortKey {
    (if id in leads then leads[id].createdAt else 0, id)
  }

  function Keyed(leads: map<LeadId, Lead>): LeadId -> SortKey {
    (id: LeadId) => KeyOf(leads, id)
  }

  predicate IsNewest(leads: map<LeadId, Lead>, ids: set<LeadId>, id: LeadId) {
    id in ids && forall x :: x in ids && x != id ==> Below(KeyOf(leads, x), KeyOf(leads, id))
  }

  lemma {:induction false} NewestExists(leads: map<LeadId, Lead>, ids: set<LeadId>)
    requires ids != {}
    ensures exists id :: IsNewest(leads, ids, id)
    decreases ids
  {
    var id :| id in ids;
    if ids == {id} {
      assert IsNewest(leads, ids, id);
    } else {
      NewestExists(leads, ids - {id});
      var other :| IsNewest(leads, ids - {id}, other);
      assert IsNewest(leads, ids, if Below(KeyOf(leads, id), KeyOf(leads, other)) then other else id);
    }
  }

  ghost function Newest(leads: map<LeadId, Lead>, ids: set<LeadId>): (id: LeadId)
    requires ids != {}
    ensures IsNewest(leads, ids, id)
  {
    NewestExists(leads, ids);
    var id :| IsNewest(leads, ids, id);
    id
  }

  lemma NewestIs(leads: map<LeadId, Lead>, ids: set<LeadId>, id: LeadId)
    requires IsNewest(leads, ids, id)
    ensures Newest(leads, ids) == id && Sorted(leads, ids) == [id] + Sorted(leads, ids - {id})
  {
  }

  lemma SortedNone(leads: map<LeadId, Lead>)
    ensures Sorted(leads, {}) == []
  {
  }

  /** Newest first. */
  ghost function Sorted(leads: map<LeadId, Lead>, ids: set<LeadId>): seq<LeadId>
    decreases ids
  {
    if ids == {} then [] else [Newest(leads, ids)] + Sorted(leads, ids - {Newest(leads, ids)})
  }

  lemma {:induction false} SortedCount(leads: map<LeadId, Lead>, ids: set<LeadId>)
    ensures |Sorted(leads, ids)| == |ids|
    decreases ids
  {
    if ids != {} { SortedCount(leads, ids - {Newest(leads, ids)}); }
  }

  /** Every id once, newest first. */
  lemma {:induction false} SortedDescends(leads: map<LeadId, Lead>, ids: set<LeadId>)
    ensures Descending(Sorted(leads, ids), Keyed(leads)) && forall x :: x in Sorted(leads, ids) <==> x in ids
    decreases ids
  {
    if ids != {} {
      var id, rest := Newest(leads, ids), ids - {Newest(leads, ids)};
      SortedDescends(leads, rest);
      var tail := Sorted(leads, rest);
      forall i | 0 <= i < |tail| ensures Below(KeyOf(leads, tail[i]), KeyOf(leads, id)) {
        assert tail[i] in tail;
      }
    }
  }

  function Listed(t: Tables, owner: OwnerId, status: Status): set<LeadId> {
    set id | id in t.leads && t.leads[id].owner == owner && t.leads[id].status == status
  }

  /** An unknown cursor compares with nothing. */
  predicate IsBehind(t: Tables, owner: OwnerId, before: Option<LeadId>, id: LeadId) {
    before.None?
    || (before.value in t.leads && t.leads[before.value].owner == owner
        && Below(KeyOf(t.leads, id), KeyOf(t.leads, before.value)))
  }

  function ListedBehind(t: Tables, owner: OwnerId, status: Status, before: Option<LeadId>): set<LeadId> {
    set id | id in Listed(t, owner, status) && IsBehind(t, owner, before, id)
  }

  ghost function ListPage(t: Tables, owner: OwnerId, status: Status, before: Option<LeadId>,
                          limit: nat): (seq<LeadId>, Option<LeadId>)
    requires limit > 0
  {
    var found := Sorted(t.leads, ListedBehind(t, owner, status, before));
    if |found| > limit then (found[..limit], Some(found[limit - 1])) else (found, None)
  }

  /** Sorting what lies behind a key is taking what lies behind it of the sorted list. */
  lemma {:induction false} SortedBehind(leads: map<LeadId, Lead>, ids: set<LeadId>, cursor: SortKey)
    ensures Sorted(leads, set id | id in ids && Below(KeyOf(leads, id), cursor)) ==
            Behind(Sorted(leads, ids), Keyed(leads), Some(cursor))
    decreases ids
  {
    var below := set id | id in ids && Below(KeyOf(leads, id), cursor);
    if ids != {} {
      var first, rest := Newest(leads, ids), ids - {Newest(leads, ids)};
      SortedBehind(leads, rest, cursor);
      var sorted, tail := Sorted(leads, ids), Sorted(leads, rest);
      assert sorted[0] == first && sorted[1..] == tail;
      if first in below {
        NewestIs(leads, below, first);
        assert below - {first} == set id | id in rest && Below(KeyOf(leads, id), cursor);
      } else {
        assert below == set id | id in rest && Below(KeyOf(leads, id), cursor);
      }
    } else {
      assert below == {};
    }
  }

  function KeyBefore(t: Tables, before: Option<LeadId>): Option<SortKey> {
    if before.Some? then Some(KeyOf(t.leads, before.value)) else None
  }

  predicate KnownCursor(t: Tables, owner: OwnerId, before: Option<LeadId>) {
    before.Some? ==> before.value in t.leads && t.leads[before.value].owner == owner
  }

  lemma FoundIs(t: Tables, owner: OwnerId, status: Status, before: Option<LeadId>)
    requires KnownCursor(t, owner, before)
    ensures Sorted(t.leads, ListedBehind(t, owner, status, before)) ==
            Behind(Sorted(t.leads, Listed(t, owner, status)), Keyed(t.leads), KeyBefore(t, before))
  {
    var all := Listed(t, owner, status);
    if before.Some? {
      assert ListedBehind(t, owner, status, before) == set id | id in all
          && Below(KeyOf(t.leads, id), KeyOf(t.leads, before.value));
      SortedBehind(t.leads, all, KeyOf(t.leads, before.value));
    } else {
      assert ListedBehind(t, owner, status, before) == all;
      BehindNone(Sorted(t.leads, all), Keyed(t.leads));
    }
    hide Sorted, Behind;
  }

  lemma FoundKnown(t: Tables, owner: OwnerId, status: Status, before: Option<LeadId>, id: LeadId)
    requires id in Sorted(t.leads, ListedBehind(t, owner, status, before))
    ensures KnownCursor(t, owner, Some(id))
  {
    SortedDescends(t.leads, ListedBehind(t, owner, status, before));
    hide Sorted, Descending;
  }

  /** A page by id is the page by the key that the id stands for. */
  lemma ListPageIs(t: Tables, owner: OwnerId, status: Status, before: Option<LeadId>, limit: nat)
    requires limit > 0 && KnownCursor(t, owner, before)
    ensures var page := Page(Sorted(t.leads, Listed(t, owner, status)), Keyed(t.leads), KeyBefore(t, before), limit);
            var (items, next) := ListPage(t, owner, status, before, limit);
            items == page.0 && KeyBefore(t, next) == page.1 && KnownCursor(t, owner, next)
  {
    FoundIs(t, owner, status, before);
    PageIs(Sorted(t.leads, Listed(t, owner, status)), Keyed(t.leads), KeyBefore(t, before), limit);
    var found := Sorted(t.leads, ListedBehind(t, owner, status, before));
    hide Sorted, Behind, Page, Listed, ListedBehind, KnownCursor, KeyOf;
    if |found| > limit {
      assert found[limit - 1] in found;
      FoundKnown(t, owner, status, before, found[limit - 1]);
    } else {
      NoCursor(t, owner);
    }
  }

  lemma NoCursor(t: Tables, owner: OwnerId)
    ensures KnownCursor(t, owner, None)
  {
  }

  /** Everything a client lists that follows `nextCursor`, for at most `pages` pages. */
  ghost function ListedBy(t: Tables, owner: OwnerId, status: Status, before: Option<LeadId>, limit: nat,
                          pages: nat): seq<LeadId>
    requires limit > 0
    decreases pages
  {
    if pages == 0 then []
    else
      var (items, next) := ListPage(t, owner, status, before, limit);
      if next.None? then items else items + ListedBy(t, owner, status, next, limit, pages - 1)
  }

  predicate Enough(pages: nat, limit: nat, rows: int) {
    pages * limit >= rows
  }

  lemma ListedByIs(t: Tables, owner: OwnerId, status: Status, before: Option<LeadId>, limit: nat, pages: nat)
    requires limit > 0 && pages > 0
    ensures var (items, next) := ListPage(t, owner, status, before, limit);
            ListedBy(t, owner, status, before, limit, pages) ==
              if next.None? then items else items + ListedBy(t, owner, status, next, limit, pages - 1)
  {
    hide ListPage;
  }

  /** `before` stands right before row `start`. */
  /**
   * What a page shows: leads of the owner with this status, newest first, all older than the cursor lead if
   * there is one.
   */
  lemma PageShows(t: Tables, owner: OwnerId, status: Status, before: Option<LeadId>, limit: nat)
    requires limit > 0
    ensures var (items, next) := ListPage(t, owner, status, before, limit);
            && |items| <= limit
            && (forall id :: id in items ==>
                  id in t.leads && t.leads[id].owner == owner && t.leads[id].status == status)
            && (forall id :: id in items && before.Some? ==>
                  before.value in t.leads && t.leads[before.value].owner == owner && Newer(t, before.value, id))
            && (forall i, j :: 0 <= i < j < |items| ==> Newer(t, items[i], items[j]))
            && (next.Some? ==> |items| == limit && next.value == items[limit - 1])
  {
    var found := Sorted(t.leads, ListedBehind(t, owner, status, before));
    SortedDescends(t.leads, ListedBehind(t, owner, status, before));
    hide Sorted;
    assert forall id :: id in ListPage(t, owner, status, before, limit).0 ==> id in found;
  }

  /** Created later, or at the same time under a larger id. */
  predicate Newer(t: Tables, a: LeadId, b: LeadId) {
    && a in t.leads && b in t.leads
    && (t.leads[b].createdAt < t.leads[a].createdAt || (t.leads[b].createdAt == t.leads[a].createdAt && b < a))
  }

  ghost predicate StandsAt(t: Tables, owner: OwnerId, before: Option<LeadId>, rows: seq<LeadId>, start: nat) {
    KnownCursor(t, owner, before) && start <= |rows|
        && Behind(rows, Keyed(t.leads), KeyBefore(t, before)) == rows[start..]
  }

  lemma OnePage(t: Tables, owner: OwnerId, status: Status, before: Option<LeadId>, limit: nat, start: nat,
                rows: seq<LeadId>)
    requires limit > 0 && rows == Sorted(t.leads, Listed(t, owner, status)) && StandsAt(t, owner, before, rows, start)
    ensures var (items, next) := ListPage(t, owner, status, before, limit);
            if |rows| - start > limit then next.Some? && items == rows[start..start + limit]
                && StandsAt(t, owner, next, rows, start + limit)
            else next.None? && items == rows[start..]
  {
    SortedDescends(t.leads, Listed(t, owner, status));
    ListPageIs(t, owner, status, before, limit);
    PageFrom(rows, Keyed(t.leads), KeyBefore(t, before), limit, start);
    hide Sorted, Listed, ListPage, Page, Descending, Behind, KnownCursor, Keyed;
  }

  lemma {:induction false} ListedFrom(t: Tables, owner: OwnerId, status: Status, before: Option<LeadId>,
                                      limit: nat, pages: nat, start: nat, rows: seq<LeadId>)
    requires limit > 0 && pages > 0 && start <= |rows| && Enough(pages, limit, |rows| - start)
    requires rows == Sorted(t.leads, Listed(t, owner, status)) && StandsAt(t, owner, before, rows, start)
    ensures ListedBy(t, owner, status, before, limit, pages) == rows[start..]
    decreases pages
  {
    hide *;
    OnePage(t, owner, status, before, limit, start, rows);
    ListedByIs(t, owner, status, before, limit, pages);
    if |rows| - start > limit {
      OnePageLess(pages, limit, |rows| - start);
      ListedFrom(t, owner, status, ListPage(t, owner, status, before, limit).1, limit, pages - 1, start + limit, rows);
      Halves(rows, start, start + limit);
    }
  }

  lemma OnePageLess(pages: nat, limit: nat, rows: int)
    requires Enough(pages, limit, rows) && rows > limit
    ensures pages > 1 && Enough(pages - 1, limit, rows - limit)
  {
    assert pages * limit == (pages - 1) * limit + limit;
  }

  /**
   * Over a fixed table, following the ids lists every lead of that status once, newest first, whatever the
   * page size.
   */
  lemma ListIsComplete(t: Tables, owner: OwnerId, status: Status, limit: nat, pages: nat)
    requires limit > 0 && pages > 0 && Enough(pages, limit, |Listed(t, owner, status)|)
    ensures var rows := ListedBy(t, owner, status, None, limit, pages);
            && rows == Sorted(t.leads, Listed(t, owner, status))
            && Descending(rows, Keyed(t.leads)) && forall id :: id in rows <==> id in Listed(t, owner, status)
  {
    var ids := Listed(t, owner, status);
    SortedCount(t.leads, ids);
    SortedDescends(t.leads, ids);
    BehindNone(Sorted(t.leads, ids), Keyed(t.leads));
    hide Sorted, Behind, Descending, ListedBy, Enough;
    assert Sorted(t.leads, ids)[0..] == Sorted(t.leads, ids);
    ListedFrom(t, owner, status, None, limit, pages, 0, Sorted(t.leads, ids));
  }

  function RevisionKey(): Entry -> SortKey {
    (e: Entry) => (0, e.revision)
  }

  function NewestFirst(history: seq<Entry>): seq<Entry> {
    seq(|history|, i requires 0 <= i < |history| => history[|history| - 1 - i])
  }
}
