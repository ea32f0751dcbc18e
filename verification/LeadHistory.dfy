/**
 * The history of every lead over whole runs of saves and updates, with any arguments.
 */
module LeadHistory {
  import opened Prelude
  import opened Leads
  import opened Runs
  import P = SearchPipeline

  /** `notes` is a history: the notes of each revision, which the table does not keep. */
  datatype State = State(t: Tables, notes: map<LeadId, seq<string>>)

  const Fresh := State(Tables(map[], map[], map[], map[], map[], 0), map[])

  /** `BoardOp`: searches, retention and time change jobs and runs in any way. */
  datatype Op =
    | SaveOp(owner: OwnerId, job: JobId, id: LeadId)
    | UpdateOp(owner: OwnerId, lead: LeadId, changes: Changes)
    | BoardOp(jobs: map<JobId, JobRow>, runs: map<RunId, RunRow>, now: int)

  function Apply(s: State, op: Op): State {
    match op
    case SaveOp(owner, job, id) =>
      var t := AfterSave(s.t, owner, job, id).0;
      State(t, if t.leads == s.t.leads then s.notes else s.notes[id := [""]])
    case UpdateOp(owner, lead, changes) =>
      var (t, reply) := AfterUpdate(s.t, owner, lead, changes);
      State(t, if reply.Updated? then s.notes[lead := NotesOf(s, lead) + [changes.notes]] else s.notes)
    case BoardOp(jobs, runs, now) => s.(t := s.t.(jobs := jobs, runs := runs, now := now))
  }

  function NotesOf(s: State, lead: LeadId): seq<string> {
    if lead in s.notes then s.notes[lead] else []
  }

  /** Random identifiers are fresh. */
  predicate Legal(s: State, op: Op) {
    op.SaveOp? ==> op.id !in s.t.leads
  }

  /**
   * Revisions 1..n, each entry continuing where its predecessor left off and saying what changed; tags change
   * only while organizing.
   */
  predicate Chained(h: seq<Entry>) {
    && h != [] && h[0] == FirstEntry
    && (forall i :: 0 <= i < |h| ==> h[i].revision == i + 1)
    && (forall i :: 0 < i < |h| ==> Follows(h[i - 1], h[i]))
  }

  predicate Follows(before: Entry, e: Entry) {
    && e.previousStatus == Some(before.status)
    && (e.evidenceChanged <==> e.evidence != before.evidence)
    && (e.tagsChanged <==> e.tags != before.tags)
    && (e.tagsChanged ==> Organizing(e.status) && Organizing(before.status))
    && (e.notesChanged || e.evidenceChanged || e.tagsChanged || e.status != before.status)
  }

  /** Evidence once reported stays, comes in with an application status, and every application status has some. */
  predicate EvidenceKept(h: seq<Entry>) {
    && (forall i, j :: 0 <= i <= j < |h| && h[i].evidence.Some? ==> h[j].evidence.Some?)
    && (forall i :: 0 <= i < |h| && h[i].status.Progressed() ==> h[i].evidence.Some?)
    && (forall i :: 0 < i < |h| && h[i].evidence.Some? && h[i - 1].evidence.None? ==> h[i].status.Progressed())
  }

  /** An update that the rules allow: whoever organises may tag, and an application is reported with its evidence. */
  predicate Allowed(lead: Lead, c: Changes) {
    && c.revision == lead.revision
    && (c.tags.Some? ==> lead.status in {Saved, Archived} && c.status in {Saved, Archived})
    && (lead.evidence.Some? ==> c.evidence != SetEvidence(None))
    && (lead.evidence.None? && Reports(c) ==> c.status !in {Saved, Archived})
    && (lead.evidence.None? && !Reports(c) ==> c.status in {Saved, Archived} || c.status == lead.status)
  }

  predicate Reports(c: Changes) {
    c.evidence.SetEvidence? && c.evidence.value.Some?
  }

  /** The request asks for nothing that is not already so. */
  predicate AsksNothing(lead: Lead, c: Changes) {
    && c.notes == lead.notes && c.status == lead.status && (c.tags.Some? ==> c.tags.value == lead.tags)
    && (c.evidence.SetEvidence? ==> c.evidence.value == lead.evidence)
  }

  /**
   * What an update answers and does: refused for a revision out of range, a lead of somebody else or a broken rule,
   * each with its own reply; otherwise the lead is as asked, under the next revision, and nothing else changes.
   */
  lemma UpdateAnswers(t: Tables, owner: OwnerId, id: LeadId, c: Changes)
    ensures var (t', reply) := AfterUpdate(t, owner, id, c);
            var owned := id in t.leads && t.leads[id].owner == owner;
            && (reply == InvalidInput <==> c.revision < 1 || c.revision > 2147483646)
            && (reply == NotFound <==> 1 <= c.revision <= 2147483646 && !owned)
            && (reply in {Updated, Unchanged} <==> 1 <= c.revision <= 2147483646 && owned && Allowed(t.leads[id], c))
            && (reply == Unchanged ==> AsksNothing(t.leads[id], c))
            && (reply == Updated ==> !AsksNothing(t.leads[id], c))
            && (reply != Updated ==> t' == t)
    ensures var (t', reply) := AfterUpdate(t, owner, id, c);
            reply == Updated ==>
              && t' == t.(leads := t'.leads, history := t'.history) && t'.leads.Keys == t.leads.Keys
              && (forall x :: x in t.leads && x != id ==>
                    t'.leads[x] == t.leads[x] && HistoryOf(t', x) == HistoryOf(t, x))
              && AsksNothing(t'.leads[id], c) && t'.leads[id].revision == t.leads[id].revision + 1
              && (c.tags.None? ==> t'.leads[id].tags == t.leads[id].tags)
              && (c.evidence.KeepEvidence? ==> t'.leads[id].evidence == t.leads[id].evidence)
              && t'.leads[id].data == t.leads[id].data && t'.leads[id].createdAt == t.leads[id].createdAt
    ensures var reply := AfterUpdate(t, owner, id, c).1;
            && (reply == StaleRevision ==> c.revision != t.leads[id].revision)
            && (reply == TagsLocked ==>
                  c.tags.Some? && !(t.leads[id].status in {Saved, Archived} && c.status in {Saved, Archived}))
            && (reply == EvidenceRemoved ==> t.leads[id].evidence.Some? && c.evidence == SetEvidence(None))
            && (reply == EvidenceNeedsStatus ==> Reports(c) && c.status in {Saved, Archived})
            && (reply == StatusNeedsEvidence ==>
                  t.leads[id].evidence.None? && !Reports(c) && c.status != t.leads[id].status)
  {
  }

  /** What saving does: nothing, or one new lead of the owner with the job's data, unmarked and first in its history. */
  lemma SaveAnswers(t: Tables, owner: OwnerId, job: JobId, id: LeadId)
    requires id !in t.leads
    ensures var (t', reply) := AfterSave(t, owner, job, id);
            && (reply.Some? <==>
                  && job in t.jobs && t.jobs[job].owner == owner && t.jobs[job].run in t.runs
                  && t.runs[t.jobs[job].run].owner == owner
                  && t.runs[t.jobs[job].run].status in {P.RunStatus.Completed, P.RunStatus.Partial})
            && (t' != t ==>
                  && reply == Some(id) && t'.leads.Keys == t.leads.Keys + {id}
                     && t'.history.Keys == t.history.Keys + {id}
                  && t'.leads[id] == Lead(owner, t.jobs[job].data, "", Saved, None, [], 1, t.now)
                  && (forall x :: x in t.leads ==> t'.leads[x] == t.leads[x])
                  && (forall x :: x in t.history && x != id ==> t'.history[x] == t.history[x]))
  {
  }

  /** The last entry is the lead as it is. */
  predicate Current(lead: Lead, h: seq<Entry>) {
    && h != [] && lead.revision == |h|
    && h[|h| - 1].status == lead.status && h[|h| - 1].evidence == lead.evidence && h[|h| - 1].tags == lead.tags
  }

  /** One text per revision; an entry says that the notes changed exactly when they did. */
  predicate NotesTold(lead: Lead, h: seq<Entry>, notes: seq<string>) {
    && |notes| == |h| > 0 && notes[0] == "" && notes[|h| - 1] == lead.notes
    && (forall i :: 0 < i < |h| ==> (h[i].notesChanged <==> notes[i] != notes[i - 1]))
  }

  predicate LeadOk(lead: Lead, h: seq<Entry>, notes: seq<string>) {
    Chained(h) && EvidenceKept(h) && Current(lead, h) && NotesTold(lead, h, notes)
  }

  ghost predicate HistoriesOk(leads: map<LeadId, Lead>, history: map<LeadId, seq<Entry>>,
                              notes: map<LeadId, seq<string>>) {
    && leads.Keys == history.Keys == notes.Keys
    && forall id :: id in leads ==> LeadOk(leads[id], history[id], notes[id])
  }

  ghost predicate IndexOk(leads: map<LeadId, Lead>, byFingerprint: map<(OwnerId, string), LeadId>) {
    && (forall k :: k in byFingerprint ==>
          byFingerprint[k] in leads && (leads[byFingerprint[k]].owner, leads[byFingerprint[k]].data.fingerprint) == k)
    && (forall id :: id in leads ==> (leads[id].owner, leads[id].data.fingerprint) in byFingerprint
                                     && byFingerprint[(leads[id].owner, leads[id].data.fingerprint)] == id)
  }

  ghost predicate Inv(s: State) {
    HistoriesOk(s.t.leads, s.t.history, s.notes) && IndexOk(s.t.leads, s.t.byFingerprint)
  }

  /** Histories only grow, and a lead keeps its owner, its job data and its place in the list. */
  ghost predicate Grows(s: State, s': State) {
    forall id :: id in s.t.leads ==>
      && id in s'.t.leads && s'.t.leads[id].owner == s.t.leads[id].owner && s'.t.leads[id].data == s.t.leads[id].data
      && s'.t.leads[id].createdAt == s.t.leads[id].createdAt
      && HistoryOf(s.t, id) <= HistoryOf(s'.t, id) && NotesOf(s, id) <= NotesOf(s', id)
  }

  lemma FirstOk(lead: Lead)
    requires lead.revision == 1 && lead.status.Saved? && lead.evidence.None? && lead.tags == [] && lead.notes == ""
    ensures LeadOk(lead, [FirstEntry], [""])
  {
  }

  /** One accepted change continues the history. */
  lemma ChangeOk(lead: Lead, h: seq<Entry>, notes: seq<string>, c: Changes)
    requires LeadOk(lead, h, notes) && Check(lead, c).Updated?
    ensures LeadOk(Changed(lead, c), h + [EntryFor(lead, c)], notes + [c.notes])
  {
    hide EvidenceKept, Chained, NotesTold;
    ChainGrows(lead, h, c);
    EvidenceGrows(lead, h, c);
    NotesGrow(lead, h, notes, c);
    assert (h + [EntryFor(lead, c)])[|h|] == EntryFor(lead, c);
    assert lead.revision == |h| && Changed(lead, c).revision == |h + [EntryFor(lead, c)]|;
  }

  lemma NotesGrow(lead: Lead, h: seq<Entry>, notes: seq<string>, c: Changes)
    requires NotesTold(lead, h, notes)
    ensures NotesTold(Changed(lead, c), h + [EntryFor(lead, c)], notes + [c.notes])
  {
    var h', notes' := h + [EntryFor(lead, c)], notes + [c.notes];
    assert h'[|h|].notesChanged <==> lead.notes != c.notes;
    assert forall i :: 0 <= i < |h| ==> h'[i] == h[i] && notes'[i] == notes[i];
  }

  lemma ChainGrows(lead: Lead, h: seq<Entry>, c: Changes)
    requires Chained(h) && Current(lead, h) && Check(lead, c).Updated?
    ensures Chained(h + [EntryFor(lead, c)])
  {
    var e, next := EntryFor(lead, c), h + [EntryFor(lead, c)];
    assert e.revision == |h| + 1 && Follows(h[|h| - 1], e);
    hide Check, EntryFor, Follows;
    forall i | 0 < i < |next| ensures Follows(next[i - 1], next[i]) {
      assert i < |h| ==> next[i - 1] == h[i - 1] && next[i] == h[i];
    }
  }

  lemma EvidenceGrows(lead: Lead, h: seq<Entry>, c: Changes)
    requires Chained(h) && EvidenceKept(h) && Current(lead, h) && Check(lead, c).Updated?
    ensures EvidenceKept(h + [EntryFor(lead, c)])
  {
    EvidenceStays(lead, c, h);
    var e, next := EntryFor(lead, c), h + [EntryFor(lead, c)];
    assert e.evidence == Changed(lead, c).evidence && e.status == c.status;
    assert e.evidence.Some? && h[|h| - 1].evidence.None? ==> e.status.Progressed();
    hide Check, EntryFor, Chained;
    assert forall i :: 0 <= i < |h| ==> next[i] == h[i];
  }

  lemma EvidenceStays(lead: Lead, c: Changes, h: seq<Entry>)
    requires Chained(h) && EvidenceKept(h) && Current(lead, h) && Check(lead, c).Updated?
    ensures lead.evidence.Some? ==> Changed(lead, c).evidence.Some?
    ensures c.status.Progressed() ==> Changed(lead, c).evidence.Some?
    ensures forall i :: 0 <= i < |h| && h[i].evidence.Some? ==> lead.evidence.Some?
  {
  }

  lemma IndexInsert(leads: map<LeadId, Lead>, byFingerprint: map<(OwnerId, string), LeadId>, id: LeadId, lead: Lead)
    requires IndexOk(leads, byFingerprint) && id !in leads && (lead.owner, lead.data.fingerprint) !in byFingerprint
    ensures IndexOk(leads[id := lead], byFingerprint[(lead.owner, lead.data.fingerprint) := id])
  {
  }

  lemma IndexUpdate(leads: map<LeadId, Lead>, byFingerprint: map<(OwnerId, string), LeadId>, id: LeadId, lead: Lead)
    requires IndexOk(leads, byFingerprint) && id in leads && lead.owner == leads[id].owner
             && lead.data == leads[id].data
    ensures IndexOk(leads[id := lead], byFingerprint)
  {
  }

  lemma HistoriesPut(s: State, id: LeadId, lead: Lead, h: seq<Entry>, notes: seq<string>)
    requires HistoriesOk(s.t.leads, s.t.history, s.notes) && LeadOk(lead, h, notes)
    ensures HistoriesOk(s.t.leads[id := lead], s.t.history[id := h], s.notes[id := notes])
  {
    hide LeadOk;
  }

  lemma SaveKeeps(s: State, op: Op)
    requires Inv(s) && op.SaveOp? && Legal(s, op)
    ensures Inv(Apply(s, op)) && Grows(s, Apply(s, op))
  {
    hide HistoriesOk, IndexOk, LeadOk;
    var found := FindJob(s.t, op.owner, op.job);
    if found.Some? && (op.owner, found.value.fingerprint) !in s.t.byFingerprint {
      var lead := Lead(op.owner, found.value, "", Saved, None, [], 1, s.t.now);
      FirstOk(lead);
      HistoriesPut(s, op.id, lead, [FirstEntry], [""]);
      IndexInsert(s.t.leads, s.t.byFingerprint, op.id, lead);
      assert op.id in Apply(s, op).t.leads;
    }
  }

  lemma UpdateKeeps(s: State, op: Op)
    requires Inv(s) && op.UpdateOp?
    ensures Inv(Apply(s, op)) && Grows(s, Apply(s, op))
  {
    hide HistoriesOk, IndexOk, LeadOk, Check, EntryFor, Grows;
    UpdateGrows(s, op);
    if AfterUpdate(s.t, op.owner, op.lead, op.changes).1.Updated? {
      KnownOk(s, op.lead);
      var lead, h, notes := s.t.leads[op.lead], s.t.history[op.lead], s.notes[op.lead];
      ChangeOk(lead, h, notes, op.changes);
      HistoriesPut(s, op.lead, Changed(lead, op.changes), h + [EntryFor(lead, op.changes)], notes + [op.changes.notes]);
      IndexUpdate(s.t.leads, s.t.byFingerprint, op.lead, Changed(lead, op.changes));
    }
  }

  lemma UpdateGrows(s: State, op: Op)
    requires op.UpdateOp?
    ensures Grows(s, Apply(s, op))
  {
    hide Check, EntryFor;
  }

  lemma BoardKeeps(s: State, op: Op)
    requires Inv(s) && op.BoardOp?
    ensures Inv(Apply(s, op)) && Grows(s, Apply(s, op))
  {
    hide HistoriesOk, IndexOk;
  }

  lemma KnownOk(s: State, id: LeadId)
    requires HistoriesOk(s.t.leads, s.t.history, s.notes) && id in s.t.leads
    ensures id in s.t.history && id in s.notes && LeadOk(s.t.leads[id], s.t.history[id], s.notes[id])
  {
  }

  lemma GrowsIsPreorder()
    ensures Preorder(Grows)
  {
  }

  ghost function At(ops: seq<Op>): State {
    After(Fresh, Apply, ops)
  }

  ghost predicate LegalOps(ops: seq<Op>) {
    LegalRun(Fresh, Apply, Legal, ops)
  }

  lemma EveryStepKeeps()
    ensures Kept(Apply, Legal, Inv) && Related(Apply, Legal, Inv, Grows) && Preorder(Grows) && Inv(Fresh)
  {
    GrowsIsPreorder();
    assert Inv(Fresh);
    hide Inv, Grows, Apply, Legal;
    forall s, op | Inv(s) && Legal(s, op) ensures Inv(Apply(s, op)) && Grows(s, Apply(s, op)) {
      match op
      case SaveOp(_, _, _) => SaveKeeps(s, op);
      case UpdateOp(_, _, _) => UpdateKeeps(s, op);
      case BoardOp(_, _, _) => BoardKeeps(s, op);
    }
  }

  lemma ReachableInv(ops: seq<Op>)
    requires LegalOps(ops)
    ensures Inv(At(ops))
  {
    hide Inv, Grows, Apply, Legal;
    EveryStepKeeps();
    InvariantHolds(Fresh, Apply, Legal, Inv, ops);
  }

  /**
   * From its save on, a lead's history has one entry per revision, numbered 1..n and chained, each saying exactly
   * what changed, the last one being the lead as it is; evidence never disappears and every application status
   * has some.
   */
  lemma HistoryTellsTheLead(ops: seq<Op>, id: LeadId)
    requires LegalOps(ops) && id in At(ops).t.leads
    ensures var s := At(ops); id in s.t.history && id in s.notes && LeadOk(s.t.leads[id], s.t.history[id], s.notes[id])
    ensures At(ops).t.leads[id].status.Progressed() ==> At(ops).t.leads[id].evidence.Some?
  {
    ReachableInv(ops);
  }

  /** Nothing rewrites history: whatever it said once it says for good, and the lead keeps the job it was saved from. */
  lemma HistoryOnlyGrows(ops: seq<Op>, n: nat, id: LeadId)
    requires LegalOps(ops) && n <= |ops| && id in At(ops[..n]).t.leads
    ensures HistoryOf(At(ops[..n]).t, id) <= HistoryOf(At(ops).t, id)
            && NotesOf(At(ops[..n]), id) <= NotesOf(At(ops), id)
    ensures id in At(ops).t.leads && At(ops).t.leads[id].data == At(ops[..n]).t.leads[id].data
  {
    hide Inv, Apply, Legal;
    EveryStepKeeps();
    StatesRelated(Fresh, Apply, Legal, Inv, Grows, ops, n);
    assert Grows(At(ops[..n]), At(ops));
  }

  /**
   * A job is saved exactly when the owner can see it, and saving it, or any copy of it, again gives the same
   * lead and changes nothing.
   */
  lemma SaveIsIdempotent(s: State, owner: OwnerId, job: JobId, copy: JobId, id: LeadId, again: LeadId)
    requires Inv(s) && id !in s.t.leads
    ensures var (t', saved) := AfterSave(s.t, owner, job, id);
            && (saved.Some? <==> FindJob(s.t, owner, job).Some?)
            && (saved.Some? ==>
                  && saved.value in t'.leads && t'.leads[saved.value].owner == owner
                  && t'.leads[saved.value].data.fingerprint == FindJob(s.t, owner, job).value.fingerprint
                  && (FindJob(s.t, owner, copy).Some? && FindJob(s.t, owner, copy).value.fingerprint ==
                        FindJob(s.t, owner, job).value.fingerprint ==>
                        AfterSave(t', owner, copy, again) == (t', saved)))
  {
    hide LeadOk;
  }

  /**
   * Of two updates made from the same revision, the second one conflicts and changes nothing if the first one
   * changed anything.
   */
  lemma NoLostUpdate(t: Tables, owner: OwnerId, id: LeadId, first: Changes, second: Changes)
    requires first.revision == second.revision && AfterUpdate(t, owner, id, first).1.Updated?
    ensures var t' := AfterUpdate(t, owner, id, first).0; AfterUpdate(t', owner, id, second) == (t', StaleRevision)
  {
  }

  /** The pages of a lead's history, 25 at a time, give the whole history, newest first. */
  lemma HistoryPagesAreComplete(ops: seq<Op>, id: LeadId)
    requires LegalOps(ops) && id in At(ops).t.leads
    ensures var rows := NewestFirst(HistoryOf(At(ops).t, id));
            Descending(rows, RevisionKey()) && Followed(rows, RevisionKey(), None, 25) == rows
  {
    HistoryTellsTheLead(ops, id);
    PagesAreComplete(NewestFirst(HistoryOf(At(ops).t, id)), RevisionKey(), 25);
  }
}
