/**
 * Safety of resume uploads across both stores: any interleaving of the database transactions with
 * the single filesystem calls of any number of uploads, retries, cancellations, deletions, parse
 * workers and marker sweeps. A caller that crashes simply takes no further step, so what a caller
 * has learned (a version it read back, a cancellation it claimed) is kept as a growing set.
 */
module ResumeSafety {
  import opened Prelude
  import opened Leases
  import opened ResumeStorage
  import opened ResumeUploads
  import opened Runs
  import P = SearchPipeline

  /**
   * `issued` remembers the identity of every row there ever was. Callers: `admitted` saw the row
   * uploading, `held` read an object back at a version, `claimed` moved the row to cancelling, `seen`
   * read an object they are about to replace, `marked` know the marker is in place, `removing` read
   * the object they are about to delete.
   */
  datatype State = State(t: Tables, files: Files, issued: map<UploadId, Identity>,
                         admitted: set<UploadId>, held: set<(UploadId, Version)>, claimed: set<UploadId>,
                         seen: set<UploadId>, marked: set<UploadId>, removing: set<UploadId>)

  const Fresh := State(NoTables, map[], map[], {}, {}, {}, {}, {}, {})

  datatype Op =
    | ReserveOp(owner: OwnerId, key: string, bucket: string, meta: Metadata, id: UploadId)
    | PutOp(id: UploadId, version: Version)
    | ReadBackOp(id: UploadId)
    | QueueOp(owner: OwnerId, id: UploadId, version: Version, commandId: CommandId)
    | CancelClaimOp(owner: OwnerId, id: UploadId, bucket: string)
    | CancelLinkOp(id: UploadId)
    | CancelSeeOp(id: UploadId)
    | CancelRenameOp(id: UploadId)
    | CancelConfirmOp(id: UploadId)
    | CancelFinishOp(owner: OwnerId, id: UploadId)
    | ReclaimOp(p: Path)
    | DeleteReadOp(owner: OwnerId, id: UploadId)
    | DeleteUnlinkOp(id: UploadId)
    | DeleteCommitOp(owner: OwnerId, id: UploadId)
    | ClaimOp(c: CommandId, lease: nat)
    | RenewOp(c: CommandId, fence: nat, lease: nat)
    | ReleaseOp(c: CommandId, fence: nat)
    | SettleOp(command: P.Command, fence: nat, outcome: Outcome)
    | TickOp(elapsed: nat)

  ghost function Apply(s: State, op: Op): State {
    match op
    case ReserveOp(owner, key, bucket, meta, id) => AfterReserveOp(s, owner, key, bucket, meta, id)
    case PutOp(id, version) =>
      if id in s.admitted && id in s.issued
        then s.(files := Linked(s.files, PathOf(s.issued[id]), Object(s.issued[id], version))) else s
    case ReadBackOp(id) =>
      if id in s.issued && Read(s.files, s.issued[id]).Found?
        then s.(held := s.held + {(id, Read(s.files, s.issued[id]).version)}) else s
    case QueueOp(owner, id, version, c) => if (id, version) in s.held
        then s.(t := AfterQueue(s.t, owner, id, version, c).0) else s
    case CancelClaimOp(owner, id, bucket) =>
      var (t, reply) := AfterCancelClaim(s.t, owner, id, bucket);
      if reply.Claimed? then s.(t := t, claimed := s.claimed + {id}) else s
    case CancelLinkOp(id) =>
      if id in s.claimed && id in s.issued && PathOf(s.issued[id]) !in s.files then Mark(s, id) else s
    case CancelSeeOp(id) =>
      if id in s.claimed && id in s.issued && Read(s.files, s.issued[id]).Found? then s.(seen := s.seen + {id}) else s
    case CancelRenameOp(id) => if id in s.seen && id in s.issued then Mark(s, id) else s
    case CancelConfirmOp(id) =>
      if id in s.claimed && id in s.issued && Read(s.files, s.issued[id]).UploadCancelled?
        then s.(marked := s.marked + {id}) else s
    case CancelFinishOp(owner, id) => if id in s.marked then s.(t := AfterCancelFinish(s.t, owner, id)) else s
    case ReclaimOp(p) => if p in s.files && s.files[p].Marker? then s.(files := s.files - {p}) else s
    case DeleteReadOp(owner, id) =>
      if && id in s.t.uploads && s.t.uploads[id].owner == owner && !s.t.uploads[id].status.Cancelled?
          && id in s.t.results
         && s.t.uploads[id].version.Some? && Read(s.files, IdentityOf(id, s.t.uploads[id])) ==
            Found(s.t.uploads[id].version.value)
      then s.(removing := s.removing + {id}) else s
    case DeleteUnlinkOp(id) => if id in s.removing && id in s.issued then s.(files := s.files - {PathOf(s.issued[id])})
        else s
    case DeleteCommitOp(owner, id) => s.(t := AfterDelete(s.t, owner, id).0)
    case ClaimOp(c, lease) => s.(t := s.t.(executions := Claim(s.t.executions, c, c in s.t.outbox, s.t.now, lease).0))
    case RenewOp(c, fence, lease) => s.(t := s.t.(executions := Renew(s.t.executions, c, fence, s.t.now, lease)))
    case ReleaseOp(c, fence) => s.(t := s.t.(executions := Release(s.t.executions, c, fence, s.t.now)))
    case SettleOp(command, fence, outcome) => s.(t := AfterSettleParse(s.t, command, fence, outcome).0)
    case TickOp(elapsed) => s.(t := s.t.(now := s.t.now + elapsed))
  }

  function Mark(s: State, id: UploadId): State
    requires id in s.issued
  {
    s.(files := s.files[PathOf(s.issued[id]) := Marker(s.issued[id], s.t.now)], marked := s.marked + {id})
  }

  ghost function AfterReserveOp(s: State, owner: OwnerId, key: string, bucket: string, meta: Metadata,
                                id: UploadId): State {
    var (t, reply) := AfterReserve(s.t, owner, key, bucket, meta, id);
    if !reply.Reserved? || reply.id !in t.uploads then s
    else
      s.(t := t,
         issued := if reply.id in s.t.uploads then s.issued
             else s.issued[reply.id := IdentityOf(reply.id, t.uploads[reply.id])],
         admitted := if t.uploads[reply.id].status.Uploading? then s.admitted + {reply.id} else s.admitted)
  }

  /** Random identifiers are fresh. */
  predicate Legal(s: State, op: Op) {
    match op
    case ReserveOp(_, _, _, _, id) => id !in s.issued
    case QueueOp(_, _, _, c) => c !in s.t.outbox
    case _ => true
  }

  // ---------------------------------------------------------------------------------------------
  // The invariant, one predicate per concern.

  /** Rows agree with the unique key index and with what was issued. */
  ghost predicate RowsIssued(uploads: map<UploadId, Upload>, keys: map<(OwnerId, string), UploadId>,
                             issued: map<UploadId, Identity>) {
    && (forall id :: id in uploads ==> id in issued && issued[id] == IdentityOf(id, uploads[id]))
    && (forall id :: id in uploads ==>
            (uploads[id].owner, uploads[id].key) in keys && keys[(uploads[id].owner, uploads[id].key)] == id)
    && (forall k :: k in keys ==> keys[k] in uploads && k == (uploads[keys[k]].owner, uploads[keys[k]].key))
    && (forall id :: id in issued ==> issued[id].resume == id)
  }

  ghost predicate WithinQuotas(uploads: map<UploadId, Upload>) {
    && |uploads| <= MAX_UPLOADS && Total(Sizes(uploads)) <= MAX_BYTES
    && forall o :: |SizesOf(uploads, o)| <= OWNER_UPLOADS && Total(SizesOf(uploads, o)) <= OWNER_BYTES
  }

  /**
   * Every file is at the path of an issued upload and of that upload, and a marker stands only where a
   * cancellation was claimed.
   */
  ghost predicate FilesPlaced(files: Files, issued: map<UploadId, Identity>, claimed: set<UploadId>) {
    forall p :: p in files ==>
      && p.resume in issued && files[p].identity == issued[p.resume] && PathOf(issued[p.resume]) == p
      && (files[p].Marker? ==> p.resume in claimed)
  }

  predicate HasCommand(outbox: map<CommandId, P.OutboxRow>, id: UploadId) {
    exists c :: c in outbox && outbox[c].command.aggregateId == id
  }

  /**
   * A claimed cancellation never has a parse command, and its row, if it is still there, is cancelling or
   * cancelled.
   */
  ghost predicate ClaimsStand(uploads: map<UploadId, Upload>, outbox: map<CommandId, P.OutboxRow>,
                              issued: map<UploadId, Identity>, claimed: set<UploadId>, seen: set<UploadId>,
                              marked: set<UploadId>) {
    && claimed <= issued.Keys && seen <= claimed && marked <= claimed
    && (forall id :: id in claimed ==> !HasCommand(outbox, id))
    && (forall id :: id in uploads ==>
          (id in claimed <==> uploads[id].status.Cancelling? || uploads[id].status.Cancelled?))
    && (forall id :: id in uploads && uploads[id].status.Cancelled? ==> id in marked)
  }

  predicate Unsettled(uploads: map<UploadId, Upload>, results: map<UploadId, Outcome>, id: UploadId) {
    id in uploads && (uploads[id].status.Uploading? || (uploads[id].status.Queued? && id !in results))
  }

  /** Every version read back for an unsettled upload is the version of the object that is still at its path. */
  ghost predicate ObjectsHeld(uploads: map<UploadId, Upload>, results: map<UploadId, Outcome>, files: Files,
                              issued: map<UploadId, Identity>, held: set<(UploadId, Version)>) {
    && (forall h :: h in held ==> h.0 in issued)
    && (forall h :: h in held && Unsettled(uploads, results, h.0) && h.0 in issued ==>
          Read(files, issued[h.0]) == Found(h.1))
    && (forall id :: id in uploads && uploads[id].status.Queued? ==>
          uploads[id].version.Some? && (id, uploads[id].version.value) in held)
  }

  /** A queued row has exactly one parse command; any other row has none. */
  ghost predicate CommandsMatch(uploads: map<UploadId, Upload>, outbox: map<CommandId, P.OutboxRow>,
                                issued: map<UploadId, Identity>) {
    && (forall c :: c in outbox ==>
            outbox[c].command.id == c && outbox[c].command.kind.ResumeParse? && outbox[c].command.aggregateId in issued)
    && (forall id :: id in uploads ==> (uploads[id].status.Queued? <==> uploads[id].command.Some?))
    && (forall id :: id in uploads && uploads[id].command.Some? ==>
          && uploads[id].command.value in outbox
          && outbox[uploads[id].command.value].command.aggregateId == id
          && outbox[uploads[id].command.value].command.ownerId == uploads[id].owner)
    && (forall c :: c in outbox && outbox[c].command.aggregateId in uploads ==>
          uploads[outbox[c].command.aggregateId].command == Some(c))
  }

  /** A parse command is finished exactly when its upload has a result or is gone. */
  ghost predicate ResultsMatch(uploads: map<UploadId, Upload>, results: map<UploadId, Outcome>,
                               outbox: map<CommandId, P.OutboxRow>, e: Executions) {
    && e.Keys <= outbox.Keys && results.Keys <= uploads.Keys
    && (forall id :: id in results ==> uploads[id].status.Queued?)
    && (forall c :: c in outbox ==>
          (Terminal(e, c) <==> outbox[c].command.aggregateId in results || outbox[c].command.aggregateId !in uploads))
    && (forall c :: c in outbox && outbox[c].command.aggregateId in results ==>
          (Terminal(e, c) && e[c].status.ExecFailed? <==> results[outbox[c].command.aggregateId].ProcessingFailed?))
  }

  /** Only settled or already deleted uploads are being removed. */
  ghost predicate RemovalsSettled(uploads: map<UploadId, Upload>, results: map<UploadId, Outcome>,
                                  outbox: map<CommandId, P.OutboxRow>, issued: map<UploadId, Identity>,
                                  removing: set<UploadId>) {
    forall id :: id in removing ==> id in issued && HasCommand(outbox, id) && (id in uploads ==> id in results)
  }

  ghost predicate Inv(s: State) {
    && RowsIssued(s.t.uploads, s.t.keys, s.issued)
    && WithinQuotas(s.t.uploads)
    && FilesPlaced(s.files, s.issued, s.claimed)
    && ClaimsStand(s.t.uploads, s.t.outbox, s.issued, s.claimed, s.seen, s.marked)
    && ObjectsHeld(s.t.uploads, s.t.results, s.files, s.issued, s.held)
    && CommandsMatch(s.t.uploads, s.t.outbox, s.issued)
    && ResultsMatch(s.t.uploads, s.t.results, s.t.outbox, s.t.executions)
    && RemovalsSettled(s.t.uploads, s.t.results, s.t.outbox, s.issued, s.removing)
    && FencesCountAttempts(s.t.executions)
  }

  // ---------------------------------------------------------------------------------------------
  // Every step keeps it.

  lemma SizesInsert(uploads: map<UploadId, Upload>, id: UploadId, u: Upload)
    requires id !in uploads
    ensures |uploads[id := u]| == |uploads| + 1
    ensures Total(Sizes(uploads[id := u])) == Total(Sizes(uploads)) + u.meta.bytes && |Sizes(uploads)| == |uploads|
  {
    assert Sizes(uploads).Keys == uploads.Keys;
    assert Sizes(uploads[id := u]) == Sizes(uploads)[id := u.meta.bytes];
    TotalInsert(Sizes(uploads), id, u.meta.bytes);
  }

  lemma SizesOfInsert(uploads: map<UploadId, Upload>, id: UploadId, u: Upload, o: OwnerId)
    requires id !in uploads
    ensures SizesOf(uploads[id := u], o) == if o == u.owner then SizesOf(uploads, o)[id := u.meta.bytes]
            else SizesOf(uploads, o)
    ensures id !in SizesOf(uploads, o)
  {
  }

  lemma QuotasInsert(uploads: map<UploadId, Upload>, id: UploadId, u: Upload)
    requires WithinQuotas(uploads) && id !in uploads
    requires Fits(Sizes(uploads), u.meta.bytes, MAX_UPLOADS, MAX_BYTES)
             && Fits(SizesOf(uploads, u.owner), u.meta.bytes, OWNER_UPLOADS, OWNER_BYTES)
    ensures WithinQuotas(uploads[id := u])
  {
    hide Sizes, SizesOf;
    var more := uploads[id := u];
    SizesInsert(uploads, id, u);
    forall o ensures |SizesOf(more, o)| <= OWNER_UPLOADS && Total(SizesOf(more, o)) <= OWNER_BYTES {
      SizesOfInsert(uploads, id, u, o);
      TotalInsert(SizesOf(uploads, o), id, u.meta.bytes);
    }
  }

  lemma QuotasRemove(uploads: map<UploadId, Upload>, id: UploadId)
    requires WithinQuotas(uploads) && id in uploads
    ensures WithinQuotas(uploads - {id})
  {
    hide Sizes, SizesOf;
    var rest, u := uploads - {id}, uploads[id];
    assert uploads == rest[id := u];
    SizesInsert(rest, id, u);
    forall o ensures |SizesOf(rest, o)| <= OWNER_UPLOADS && Total(SizesOf(rest, o)) <= OWNER_BYTES {
      SizesOfInsert(rest, id, u, o);
      TotalInsert(SizesOf(rest, o), id, u.meta.bytes);
      assert |SizesOf(uploads, o)| <= OWNER_UPLOADS;
    }
  }

  /** A status change moves no bytes. */
  lemma QuotasUpdate(uploads: map<UploadId, Upload>, id: UploadId, u: Upload)
    requires WithinQuotas(uploads) && id in uploads && u.owner == uploads[id].owner && u.meta == uploads[id].meta
    ensures WithinQuotas(uploads[id := u])
  {
    hide Sizes, SizesOf;
    var rest, changed := uploads - {id}, uploads[id := u];
    assert uploads == rest[id := uploads[id]] && changed == rest[id := u];
    SizesInsert(rest, id, u);
    SizesInsert(rest, id, uploads[id]);
    forall o ensures |SizesOf(changed, o)| <= OWNER_UPLOADS && Total(SizesOf(changed, o)) <= OWNER_BYTES {
      SizesOfInsert(rest, id, u, o);
      SizesOfInsert(rest, id, uploads[id], o);
      assert |SizesOf(uploads, o)| <= OWNER_UPLOADS;
    }
  }

  // A new row.

  lemma NewRow(s: State, id: UploadId, u: Upload, claimed: set<UploadId>)
    requires id !in s.issued && u.status.Uploading? && u.version.None? && u.command.None?
    requires RowsIssued(s.t.uploads, s.t.keys, s.issued) && (u.owner, u.key) !in s.t.keys
    ensures id !in s.t.uploads
            && RowsIssued(s.t.uploads[id := u], s.t.keys[(u.owner, u.key) := id], s.issued[id := IdentityOf(id, u)])
    ensures FilesPlaced(s.files, s.issued, claimed) ==> FilesPlaced(s.files, s.issued[id := IdentityOf(id, u)], claimed)
  {
  }

  lemma NewRowClaims(uploads: map<UploadId, Upload>, outbox: map<CommandId, P.OutboxRow>,
                     issued: map<UploadId, Identity>, claimed: set<UploadId>, seen: set<UploadId>,
                     marked: set<UploadId>, id: UploadId, u: Upload)
    requires id !in issued && u.status.Uploading? && ClaimsStand(uploads, outbox, issued, claimed, seen, marked)
    ensures ClaimsStand(uploads[id := u], outbox, issued[id := IdentityOf(id, u)], claimed, seen, marked)
  {
    hide HasCommand;
  }

  lemma NewRowHeld(uploads: map<UploadId, Upload>, results: map<UploadId, Outcome>, files: Files,
                   issued: map<UploadId, Identity>, held: set<(UploadId, Version)>, id: UploadId, u: Upload)
    requires id !in issued && u.status.Uploading? && ObjectsHeld(uploads, results, files, issued, held)
    ensures ObjectsHeld(uploads[id := u], results, files, issued[id := IdentityOf(id, u)], held)
  {
    hide Read;
  }

  lemma NewRowCommands(t: Tables, issued: map<UploadId, Identity>, id: UploadId, u: Upload)
    requires id !in issued && u.status.Uploading? && u.command.None?
    requires CommandsMatch(t.uploads, t.outbox, issued)
    ensures CommandsMatch(t.uploads[id := u], t.outbox, issued[id := IdentityOf(id, u)])
    ensures ResultsMatch(t.uploads, t.results, t.outbox, t.executions) && id !in t.uploads ==>
              ResultsMatch(t.uploads[id := u], t.results, t.outbox, t.executions)
  {
  }

  lemma NewRowRemovals(t: Tables, issued: map<UploadId, Identity>, removing: set<UploadId>, id: UploadId, u: Upload)
    requires id !in issued && RemovalsSettled(t.uploads, t.results, t.outbox, issued, removing)
    ensures RemovalsSettled(t.uploads[id := u], t.results, t.outbox, issued[id := IdentityOf(id, u)], removing)
  {
    hide HasCommand;
  }

  lemma ReserveKeeps(s: State, op: Op)
    requires Inv(s) && op.ReserveOp? && Legal(s, op)
    ensures Inv(Apply(s, op))
  {
    hide RowsIssued, WithinQuotas, FilesPlaced, ClaimsStand, ObjectsHeld, CommandsMatch, ResultsMatch, RemovalsSettled,
        FencesCountAttempts, Fits;
    var s' := Apply(s, op);
    if s'.t != s.t {
      var u := Upload(op.owner, op.key, op.bucket, op.meta, Uploading, None, None);
      NewRow(s, op.id, u, s.claimed);
      QuotasInsert(s.t.uploads, op.id, u);
      NewRowClaims(s.t.uploads, s.t.outbox, s.issued, s.claimed, s.seen, s.marked, op.id, u);
      NewRowHeld(s.t.uploads, s.t.results, s.files, s.issued, s.held, op.id, u);
      NewRowCommands(s.t, s.issued, op.id, u);
      NewRowRemovals(s.t, s.issued, s.removing, op.id, u);
    } else {
      ReservedAgain(s, op);
    }
  }

  /** Reusing a key issues nothing new. */
  lemma ReservedAgain(s: State, op: Op)
    requires RowsIssued(s.t.uploads, s.t.keys, s.issued) && op.ReserveOp? && Legal(s, op) && Apply(s, op).t == s.t
    ensures Apply(s, op) == s.(admitted := Apply(s, op).admitted)
  {
    hide Fits;
  }

  // Files.

  lemma FileAdded(uploads: map<UploadId, Upload>, results: map<UploadId, Outcome>, files: Files,
                  issued: map<UploadId, Identity>, held: set<(UploadId, Version)>, claimed: set<UploadId>,
                  id: UploadId, f: File)
    requires id in issued && issued[id].resume == id && f.identity == issued[id] && (f.Marker? ==> id in claimed)
    requires forall x :: x in issued ==> issued[x].resume == x
    requires FilesPlaced(files, issued, claimed) && ObjectsHeld(uploads, results, files, issued, held)
    requires PathOf(issued[id]) !in files || !Unsettled(uploads, results, id)
    ensures FilesPlaced(files[PathOf(issued[id]) := f], issued, claimed)
    ensures ObjectsHeld(uploads, results, files[PathOf(issued[id]) := f], issued, held)
  {
    hide Unsettled;
  }

  lemma FileRemoved(uploads: map<UploadId, Upload>, results: map<UploadId, Outcome>, files: Files,
                    issued: map<UploadId, Identity>, held: set<(UploadId, Version)>, claimed: set<UploadId>,
                    p: Path)
    requires FilesPlaced(files, issued, claimed) && ObjectsHeld(uploads, results, files, issued, held)
    requires p in files ==> files[p].Marker? || !Unsettled(uploads, results, p.resume)
    requires forall x :: x in issued ==> issued[x].resume == x
    ensures FilesPlaced(files - {p}, issued, claimed) && ObjectsHeld(uploads, results, files - {p}, issued, held)
  {
    hide Unsettled;
  }

  /** What the invariant says of an upload whose cancellation was claimed, and of one that is being removed. */
  lemma ClaimedIsNotUnsettled(s: State, id: UploadId)
    requires Inv(s)
    ensures id in s.claimed ==> !Unsettled(s.t.uploads, s.t.results, id) && id in s.issued
    ensures id in s.removing ==> !Unsettled(s.t.uploads, s.t.results, id) && id in s.issued && id !in s.claimed
    ensures id in s.issued ==> s.issued[id].resume == id
    ensures s.seen <= s.claimed
  {
    hide WithinQuotas, FilesPlaced, ObjectsHeld, HasCommand, FencesCountAttempts, CommandsMatch;
  }

  lemma FilesOpKeeps(s: State, op: Op)
    requires Inv(s) && (op.PutOp? || op.CancelLinkOp? || op.CancelRenameOp? || op.ReclaimOp? || op.DeleteUnlinkOp?)
    ensures Inv(Apply(s, op))
  {
    var id := if op.ReclaimOp? then op.p.resume else op.id;
    ClaimedIsNotUnsettled(s, id);
    assert forall x :: x in s.issued ==> s.issued[x].resume == x;
    hide RowsIssued, WithinQuotas, FilesPlaced, ClaimsStand, ObjectsHeld, CommandsMatch, ResultsMatch, RemovalsSettled,
        FencesCountAttempts, Unsettled;
    if Apply(s, op) != s {
      if op.ReclaimOp? {
        FileRemoved(s.t.uploads, s.t.results, s.files, s.issued, s.held, s.claimed, op.p);
      } else if op.DeleteUnlinkOp? {
        FileRemoved(s.t.uploads, s.t.results, s.files, s.issued, s.held, s.claimed, PathOf(s.issued[id]));
      } else if op.PutOp? {
        FileAdded(s.t.uploads, s.t.results, s.files, s.issued, s.held, s.claimed, id, Object(s.issued[id], op.version));
      } else {
        FileAdded(s.t.uploads, s.t.results, s.files, s.issued, s.held, s.claimed, id, Marker(s.issued[id], s.t.now));
        MoreMarked(s, id);
      }
    }
  }

  lemma MoreMarked(s: State, id: UploadId)
    requires ClaimsStand(s.t.uploads, s.t.outbox, s.issued, s.claimed, s.seen, s.marked) && id in s.claimed
    ensures ClaimsStand(s.t.uploads, s.t.outbox, s.issued, s.claimed, s.seen, s.marked + {id})
    ensures ClaimsStand(s.t.uploads, s.t.outbox, s.issued, s.claimed, s.seen + {id}, s.marked)
  {
    hide HasCommand;
  }

  lemma ReadBackKeeps(s: State, op: Op)
    requires Inv(s) && op.ReadBackOp?
    ensures Inv(Apply(s, op))
  {
    hide RowsIssued, WithinQuotas, FilesPlaced, ClaimsStand, CommandsMatch, ResultsMatch, RemovalsSettled,
        FencesCountAttempts;
  }

  // Queuing.

  lemma QueueRow(t: Tables, issued: map<UploadId, Identity>, id: UploadId, u: Upload, c: CommandId, row: P.OutboxRow)
    requires id in t.uploads && t.uploads[id].status.Uploading?
             && u == t.uploads[id].(status := Queued, version := u.version, command := Some(c))
    requires c !in t.outbox && row.command.id == c && row.command.kind.ResumeParse? && row.command.aggregateId == id
             && row.command.ownerId == u.owner
    requires id in issued && CommandsMatch(t.uploads, t.outbox, issued)
    ensures CommandsMatch(t.uploads[id := u], t.outbox[c := row], issued)
  {
  }

  /** A change that keeps owner, key and metadata keeps the row's place. */
  lemma UpdatedRow(t: Tables, issued: map<UploadId, Identity>, id: UploadId, u: Upload)
    requires id in t.uploads && u.owner == t.uploads[id].owner && u.key == t.uploads[id].key
             && u.meta == t.uploads[id].meta
    requires RowsIssued(t.uploads, t.keys, issued)
    ensures RowsIssued(t.uploads[id := u], t.keys, issued) && id in issued
  {
  }

  lemma QueueResults(t: Tables, id: UploadId, u: Upload, c: CommandId, row: P.OutboxRow)
    requires id in t.uploads && t.uploads[id].status.Uploading? && u.status.Queued? && c !in t.outbox
             && row.command.aggregateId == id
    requires ResultsMatch(t.uploads, t.results, t.outbox, t.executions)
    ensures ResultsMatch(t.uploads[id := u], t.results, t.outbox[c := row], t.executions)
  {
  }

  lemma QueueClaims(s: State, id: UploadId, u: Upload, c: CommandId, row: P.OutboxRow)
    requires id in s.t.uploads && s.t.uploads[id].status.Uploading? && u.status.Queued? && c !in s.t.outbox
             && row.command.aggregateId == id
    requires ClaimsStand(s.t.uploads, s.t.outbox, s.issued, s.claimed, s.seen, s.marked)
    ensures ClaimsStand(s.t.uploads[id := u], s.t.outbox[c := row], s.issued, s.claimed, s.seen, s.marked)
    ensures RemovalsSettled(s.t.uploads, s.t.results, s.t.outbox, s.issued, s.removing) ==>
              RemovalsSettled(s.t.uploads[id := u], s.t.results, s.t.outbox[c := row], s.issued, s.removing)
  {
    forall x ensures HasCommand(s.t.outbox[c := row], x) <==> HasCommand(s.t.outbox, x) || x == id {
      assert s.t.outbox[c := row][c].command.aggregateId == id;
      if HasCommand(s.t.outbox, x) {
        var d :| d in s.t.outbox && s.t.outbox[d].command.aggregateId == x;
        assert d in s.t.outbox[c := row] && s.t.outbox[c := row][d].command.aggregateId == x;
      }
    }
    hide HasCommand;
  }

  lemma QueueHeld(s: State, id: UploadId, u: Upload)
    requires id in s.t.uploads && s.t.uploads[id].status.Uploading? && u.status.Queued? && u.version.Some?
             && (id, u.version.value) in s.held
    requires ObjectsHeld(s.t.uploads, s.t.results, s.files, s.issued, s.held)
    ensures ObjectsHeld(s.t.uploads[id := u], s.t.results, s.files, s.issued, s.held)
  {
    hide Read;
  }

  lemma QueueKeeps(s: State, op: Op)
    requires Inv(s) && op.QueueOp? && Legal(s, op)
    ensures Inv(Apply(s, op))
  {
    hide RowsIssued, WithinQuotas, FilesPlaced, ClaimsStand, ObjectsHeld, CommandsMatch, ResultsMatch, RemovalsSettled,
        FencesCountAttempts;
    var s' := Apply(s, op);
    if s'.t != s.t {
      var id, c := op.id, op.commandId;
      var u, row := s'.t.uploads[id], s'.t.outbox[c];
      QuotasUpdate(s.t.uploads, id, u);
      UpdatedRow(s.t, s.issued, id, u);
      QueueRow(s.t, s.issued, id, u, c, row);
      QueueResults(s.t, id, u, c, row);
      QueueClaims(s, id, u, c, row);
      QueueHeld(s, id, u);
    }
  }

  // Cancelling.

  lemma StatusCommands(t: Tables, issued: map<UploadId, Identity>, id: UploadId, status: UploadStatus)
    requires id in t.uploads && !t.uploads[id].status.Queued? && !status.Queued?
    requires CommandsMatch(t.uploads, t.outbox, issued)
    ensures CommandsMatch(t.uploads[id := t.uploads[id].(status := status)], t.outbox, issued)
    ensures !HasCommand(t.outbox, id)
  {
  }

  lemma StatusResults(t: Tables, issued: map<UploadId, Identity>, removing: set<UploadId>, id: UploadId,
                      status: UploadStatus)
    requires id in t.uploads && !t.uploads[id].status.Queued? && !status.Queued?
    requires ResultsMatch(t.uploads, t.results, t.outbox, t.executions)
             && RemovalsSettled(t.uploads, t.results, t.outbox, issued, removing)
    ensures var uploads' := t.uploads[id := t.uploads[id].(status := status)];
            ResultsMatch(uploads', t.results, t.outbox, t.executions)
                && RemovalsSettled(uploads', t.results, t.outbox, issued, removing)
  {
    hide HasCommand;
  }

  lemma StatusHeld(s: State, id: UploadId, status: UploadStatus)
    requires id in s.t.uploads && !s.t.uploads[id].status.Queued? && (status.Cancelling? || status.Cancelled?)
    requires ObjectsHeld(s.t.uploads, s.t.results, s.files, s.issued, s.held)
    ensures ObjectsHeld(s.t.uploads[id := s.t.uploads[id].(status := status)], s.t.results, s.files, s.issued, s.held)
  {
    hide Read;
  }

  lemma StatusClaims(s: State, id: UploadId, status: UploadStatus, claimed: set<UploadId>)
    requires id in s.t.uploads && id in s.issued && !HasCommand(s.t.outbox, id) && claimed == s.claimed + {id}
    requires status.Cancelling? || (status.Cancelled? && id in s.marked)
    requires ClaimsStand(s.t.uploads, s.t.outbox, s.issued, s.claimed, s.seen, s.marked)
             && FilesPlaced(s.files, s.issued, s.claimed)
    ensures ClaimsStand(s.t.uploads[id := s.t.uploads[id].(status := status)], s.t.outbox, s.issued, claimed, s.seen,
                        s.marked)
    ensures FilesPlaced(s.files, s.issued, claimed)
  {
    hide HasCommand;
  }

  lemma CancelKnown(s: State, id: UploadId)
    requires RowsIssued(s.t.uploads, s.t.keys, s.issued)
             && ClaimsStand(s.t.uploads, s.t.outbox, s.issued, s.claimed, s.seen, s.marked)
    ensures id in s.marked ==> s.claimed == s.claimed + {id}
    ensures id in s.t.uploads ==> id in s.issued
  {
    hide HasCommand;
  }

  /** A row that was not queued becomes cancelling, or cancelled once the marker is known to be in place. */
  lemma CancelStatusKeeps(s: State, id: UploadId, status: UploadStatus, claimed: set<UploadId>)
    requires Inv(s) && id in s.t.uploads && !s.t.uploads[id].status.Queued? && claimed == s.claimed + {id}
    requires status.Cancelling? || (status.Cancelled? && id in s.marked)
    ensures Inv(s.(t := s.t.(uploads := s.t.uploads[id := s.t.uploads[id].(status := status)]), claimed := claimed))
  {
    hide RowsIssued, WithinQuotas, FilesPlaced, ClaimsStand, ObjectsHeld, CommandsMatch, ResultsMatch, RemovalsSettled,
        FencesCountAttempts;
    CancelKnown(s, id);
    QuotasUpdate(s.t.uploads, id, s.t.uploads[id].(status := status));
    UpdatedRow(s.t, s.issued, id, s.t.uploads[id].(status := status));
    StatusCommands(s.t, s.issued, id, status);
    StatusResults(s.t, s.issued, s.removing, id, status);
    StatusHeld(s, id, status);
    StatusClaims(s, id, status, claimed);
  }

  lemma CancelKeeps(s: State, op: Op)
    requires Inv(s) && (op.CancelClaimOp? || op.CancelFinishOp?)
    ensures Inv(Apply(s, op))
  {
    hide RowsIssued, WithinQuotas, FilesPlaced, ClaimsStand, ObjectsHeld, CommandsMatch, ResultsMatch, RemovalsSettled,
        FencesCountAttempts;
    CancelKnown(s, op.id);
    var s' := Apply(s, op);
    hide Inv;
    if s' != s {
      CancelStatusKeeps(s, op.id, s'.t.uploads[op.id].status, s'.claimed);
    }
  }

  lemma MarkKeeps(s: State, op: Op)
    requires Inv(s) && (op.CancelSeeOp? || op.CancelConfirmOp?)
    ensures Inv(Apply(s, op))
  {
    hide RowsIssued, WithinQuotas, FilesPlaced, ClaimsStand, ObjectsHeld, CommandsMatch, ResultsMatch, RemovalsSettled,
        FencesCountAttempts;
    if op.id in s.claimed { MoreMarked(s, op.id); }
  }

  // Deleting.

  lemma DeletedRow(t: Tables, issued: map<UploadId, Identity>, id: UploadId)
    requires id in t.uploads && RowsIssued(t.uploads, t.keys, issued)
    ensures RowsIssued(t.uploads - {id}, t.keys - {(t.uploads[id].owner, t.uploads[id].key)}, issued)
  {
  }

  lemma DeletedCommands(t: Tables, issued: map<UploadId, Identity>, id: UploadId)
    requires id in t.uploads && CommandsMatch(t.uploads, t.outbox, issued)
    ensures CommandsMatch(t.uploads - {id}, t.outbox, issued)
    ensures t.uploads[id].status.Cancelled? ==> forall c :: c in t.outbox ==> t.outbox[c].command.aggregateId != id
  {
  }

  lemma DeletedResults(t: Tables, id: UploadId)
    requires id in t.uploads && ResultsMatch(t.uploads, t.results, t.outbox, t.executions)
    requires id in t.results || forall c :: c in t.outbox ==> t.outbox[c].command.aggregateId != id
    ensures ResultsMatch(t.uploads - {id}, t.results - {id}, t.outbox, t.executions)
    ensures !t.uploads[id].status.Queued? ==> t.results - {id} == t.results
  {
  }

  lemma DeletedHeld(s: State, id: UploadId)
    requires ObjectsHeld(s.t.uploads, s.t.results, s.files, s.issued, s.held)
    requires RemovalsSettled(s.t.uploads, s.t.results, s.t.outbox, s.issued, s.removing)
    requires ClaimsStand(s.t.uploads, s.t.outbox, s.issued, s.claimed, s.seen, s.marked)
    ensures ObjectsHeld(s.t.uploads - {id}, s.t.results - {id}, s.files, s.issued, s.held)
    ensures RemovalsSettled(s.t.uploads - {id}, s.t.results - {id}, s.t.outbox, s.issued, s.removing)
    ensures ClaimsStand(s.t.uploads - {id}, s.t.outbox, s.issued, s.claimed, s.seen, s.marked)
  {
    hide Read, HasCommand;
  }

  lemma RemovalStarts(s: State, id: UploadId)
    requires Inv(s) && id in s.t.results
    ensures RemovalsSettled(s.t.uploads, s.t.results, s.t.outbox, s.issued, s.removing + {id})
  {
    hide WithinQuotas, FilesPlaced, ObjectsHeld, FencesCountAttempts, ClaimsStand;
    assert HasCommand(s.t.outbox, id) by { assert s.t.uploads[id].command.value in s.t.outbox; }
    hide HasCommand, CommandsMatch;
  }

  lemma DeleteKeeps(s: State, op: Op)
    requires Inv(s) && (op.DeleteReadOp? || op.DeleteCommitOp?)
    ensures Inv(Apply(s, op))
  {
    if op.DeleteReadOp? && op.id in s.t.results { RemovalStarts(s, op.id); }
    hide RowsIssued, WithinQuotas, FilesPlaced, ClaimsStand, ObjectsHeld, CommandsMatch, ResultsMatch, RemovalsSettled,
        FencesCountAttempts;
    var s' := Apply(s, op);
    if op.DeleteCommitOp? && s'.t != s.t {
      QuotasRemove(s.t.uploads, op.id);
      DeletedRow(s.t, s.issued, op.id);
      DeletedCommands(s.t, s.issued, op.id);
      DeletedResults(s.t, op.id);
      DeletedHeld(s, op.id);
    }
  }

  // Leases and settlements.

  lemma LeaseResults(t: Tables, e: Executions)
    requires ResultsMatch(t.uploads, t.results, t.outbox, t.executions) && LeaseChange(t.executions, e, t.outbox.Keys)
    ensures ResultsMatch(t.uploads, t.results, t.outbox, e)
  {
  }

  lemma LeaseOpKeeps(s: State, op: Op)
    requires Inv(s) && (op.ClaimOp? || op.RenewOp? || op.ReleaseOp? || op.TickOp?)
    ensures Inv(Apply(s, op))
  {
    hide WithinQuotas, RowsIssued, FilesPlaced, ClaimsStand, ObjectsHeld, CommandsMatch, RemovalsSettled, ResultsMatch,
        Advances, SameFinished, FencesCountAttempts;
    if op.ClaimOp? { ClaimIsLeaseChange(s.t.executions, op.c, s.t.outbox.Keys, s.t.now, op.lease); }
    if op.RenewOp? { RenewIsLeaseChange(s.t.executions, op.c, op.fence, s.t.outbox.Keys, s.t.now, op.lease); }
    if op.ReleaseOp? { ReleaseIsLeaseChange(s.t.executions, op.c, op.fence, s.t.outbox.Keys, s.t.now); }
    if !op.TickOp? { LeaseResults(s.t, Apply(s, op).t.executions); }
  }

  lemma SettledResults(t: Tables, issued: map<UploadId, Identity>, c: CommandId, x: Execution, outcome: Outcome)
    requires CommandsMatch(t.uploads, t.outbox, issued) && ResultsMatch(t.uploads, t.results, t.outbox, t.executions)
    requires c in t.outbox && c in t.executions && !x.status.ExecRunning?
             && (x.status.ExecFailed? <==> outcome.ProcessingFailed?)
    requires t.outbox[c].command.aggregateId in t.uploads && t.uploads[t.outbox[c].command.aggregateId].status.Queued?
    ensures ResultsMatch(t.uploads, t.results[t.outbox[c].command.aggregateId := outcome], t.outbox,
                         t.executions[c := x])
  {
  }

  lemma SettledHeld(s: State, id: UploadId, outcome: Outcome)
    requires ObjectsHeld(s.t.uploads, s.t.results, s.files, s.issued, s.held)
    requires RemovalsSettled(s.t.uploads, s.t.results, s.t.outbox, s.issued, s.removing)
    ensures ObjectsHeld(s.t.uploads, s.t.results[id := outcome], s.files, s.issued, s.held)
    ensures RemovalsSettled(s.t.uploads, s.t.results[id := outcome], s.t.outbox, s.issued, s.removing)
  {
    hide Read, HasCommand;
  }

  lemma SettleKeeps(s: State, op: Op)
    requires Inv(s) && op.SettleOp?
    ensures Inv(Apply(s, op))
  {
    var s' := Apply(s, op);
    var c := op.command;
    if s'.t != s.t {
      assert s.t.executions[c.id].fence >= 1;
      hide WithinQuotas, RowsIssued, FilesPlaced, ClaimsStand, ObjectsHeld, CommandsMatch, ResultsMatch,
          RemovalsSettled, FencesCountAttempts;
      FinishAdvances(s.t.executions, c.id, s'.t.executions[c.id]);
      SettledResults(s.t, s.issued, c.id, s'.t.executions[c.id], op.outcome);
      SettledHeld(s, c.aggregateId, op.outcome);
    }
  }

  lemma ApplyKeeps(s: State, op: Op)
    requires Inv(s) && Legal(s, op)
    ensures Inv(Apply(s, op))
  {
    hide Inv, Apply, Legal;
    match op
    case ReserveOp(_, _, _, _, _) => ReserveKeeps(s, op);
    case ReadBackOp(_) => ReadBackKeeps(s, op);
    case QueueOp(_, _, _, _) => QueueKeeps(s, op);
    case CancelClaimOp(_, _, _) => CancelKeeps(s, op);
    case CancelSeeOp(_) => MarkKeeps(s, op);
    case CancelConfirmOp(_) => MarkKeeps(s, op);
    case CancelFinishOp(_, _) => CancelKeeps(s, op);
    case DeleteReadOp(_, _) => DeleteKeeps(s, op);
    case DeleteCommitOp(_, _) => DeleteKeeps(s, op);
    case ClaimOp(_, _) => LeaseOpKeeps(s, op);
    case RenewOp(_, _, _) => LeaseOpKeeps(s, op);
    case ReleaseOp(_, _) => LeaseOpKeeps(s, op);
    case TickOp(_) => LeaseOpKeeps(s, op);
    case SettleOp(_, _, _) => SettleKeeps(s, op);
    case _ => FilesOpKeeps(s, op);
  }

  // ---------------------------------------------------------------------------------------------
  // What each transaction answers and does.

  /** No row, key, result, command or execution but these has changed. */
  ghost predicate OnlyUpload(t: Tables, t': Tables, id: UploadId, c: Option<CommandId>) {
    && (forall x :: x != id ==>
          && (x in t.uploads <==> x in t'.uploads) && (x in t.uploads ==> t'.uploads[x] == t.uploads[x])
          && (x in t.results <==> x in t'.results) && (x in t.results ==> t'.results[x] == t.results[x]))
    && (forall x :: Some(x) != c ==>
          && (x in t.outbox <==> x in t'.outbox) && (x in t.outbox ==> t'.outbox[x] == t.outbox[x])
          && (x in t.executions <==> x in t'.executions) && (x in t.executions ==> t'.executions[x] == t.executions[x]))
    && t'.now == t.now
  }

  /** A known key names its row, for the very same document, and changes nothing. */
  lemma ReserveKnown(t: Tables, issued: map<UploadId, Identity>, owner: OwnerId, key: string, bucket: string,
                     meta: Metadata, id: UploadId)
    requires RowsIssued(t.uploads, t.keys, issued) && (owner, key) in t.keys
    ensures var (t', reply) := AfterReserve(t, owner, key, bucket, meta, id);
            var existing := t.keys[(owner, key)];
            && t' == t && existing in t.uploads
            && t.uploads[existing].owner == owner && t.uploads[existing].key == key
            && reply == if t.uploads[existing].bucket == bucket && t.uploads[existing].meta == meta
                        then Reserved(existing) else ReserveReply.KeyReused
  {
    hide Sizes, SizesOf, Fits;
  }

  /** A new key gets an uploading row, as long as all rows together and the owner's rows leave room for it. */
  lemma ReserveNew(t: Tables, owner: OwnerId, key: string, bucket: string, meta: Metadata, id: UploadId)
    requires (owner, key) !in t.keys && id !in t.uploads
    ensures var (t', reply) := AfterReserve(t, owner, key, bucket, meta, id);
            var all, own := Sizes(t.uploads), SizesOf(t.uploads, owner);
            if |t.uploads| < 1000 && Total(all) + meta.bytes <= 1073741824
               && |own| < 50 && Total(own) + meta.bytes <= 104857600
            then
              && reply == Reserved(id) && OnlyUpload(t, t', id, None) && t'.keys == t.keys[(owner, key) := id]
              && t'.results == t.results
              && id in t'.uploads && t'.uploads[id] == Upload(owner, key, bucket, meta, Uploading, None, None)
            else reply == LimitReached && t' == t
  {
    SizesCount(t.uploads);
    hide Sizes, SizesOf;
  }

  lemma SizesCount(uploads: map<UploadId, Upload>)
    ensures |Sizes(uploads)| == |uploads|
  {
    assert Sizes(uploads).Keys == uploads.Keys;
    assert |Sizes(uploads)| == |Sizes(uploads).Keys| == |uploads.Keys|;
  }

  /** An uploading row is queued with its version and one new parse command; a queued one only compares versions. */
  lemma QueueAnswers(t: Tables, owner: OwnerId, id: UploadId, version: Version, c: CommandId)
    requires c !in t.outbox && c !in t.executions
    ensures var (t', reply) := AfterQueue(t, owner, id, version, c);
            var owned := id in t.uploads && t.uploads[id].owner == owner;
            && (reply == QueueMissing <==> !owned)
            && (reply == QueueRefused <==> owned && t.uploads[id].status in {Cancelling, UploadStatus.Cancelled})
            && (reply == VersionConflict <==>
                  owned && t.uploads[id].status == Queued && t.uploads[id].version != Some(version))
            && (reply == QueueDone <==>
                  owned && (t.uploads[id].status == Uploading
                            || (t.uploads[id].status == Queued && t.uploads[id].version == Some(version))))
            && (!(owned && t.uploads[id].status == Uploading) ==> t' == t)
            && (owned && t.uploads[id].status == Uploading ==>
                  && OnlyUpload(t, t', id, Some(c)) && t'.keys == t.keys && t'.results == t.results
                  && t'.executions == t.executions && c in t'.outbox && t'.outbox[c].publishedAt == None
                  && t'.outbox[c].command == P.Command(c, P.ResumeParse, id, owner, t.now)
                  && t'.uploads[id] == t.uploads[id].(status := Queued, version := Some(version), command := Some(c)))
  {
  }

  /** Only an upload that is not queued yet can be cancelled, in two steps that change nothing but its status. */
  lemma CancelAnswers(t: Tables, owner: OwnerId, id: UploadId, bucket: string)
    ensures var (t', reply) := AfterCancelClaim(t, owner, id, bucket);
            var owned := id in t.uploads && t.uploads[id].owner == owner;
            && (reply == CancelMissing <==> !owned)
            && (reply == Claimed <==>
                  owned && t.uploads[id].bucket == bucket && t.uploads[id].status in {Uploading, Cancelling})
            && (reply == AlreadyCancelled <==>
                  owned && t.uploads[id].bucket == bucket && t.uploads[id].status == UploadStatus.Cancelled)
            && (reply != Claimed ==> t' == t)
            && (reply == Claimed ==> t' == t.(uploads := t.uploads[id := t.uploads[id].(status := Cancelling)]))
    ensures var t' := AfterCancelFinish(t, owner, id);
            if id in t.uploads && t.uploads[id].owner == owner && t.uploads[id].status == Cancelling
            then t' == t.(uploads := t.uploads[id := t.uploads[id].(status := UploadStatus.Cancelled)]) else t' == t
  {
  }

  /** A settled or cancelled upload is forgotten with its key and result; nothing else is. */
  lemma DeleteAnswers(t: Tables, issued: map<UploadId, Identity>, owner: OwnerId, id: UploadId)
    requires RowsIssued(t.uploads, t.keys, issued)
    ensures var (t', reply) := AfterDelete(t, owner, id);
            var owned := id in t.uploads && t.uploads[id].owner == owner;
            && (reply == DeleteMissing <==> !owned)
            && (reply == NotSettled <==> owned && t.uploads[id].status != UploadStatus.Cancelled && id !in t.results)
            && (reply != Deleted ==> t' == t)
            && (reply == Deleted ==>
                  && OnlyUpload(t, t', id, None) && id !in t'.uploads
                  && (t.uploads[id].status != UploadStatus.Cancelled ==> id !in t'.results)
                  && (forall k :: k in t'.keys <==> k in t.keys && t.keys[k] != id)
                  && (forall k :: k in t'.keys ==> t'.keys[k] == t.keys[k])
                  && t'.outbox == t.outbox && t'.executions == t.executions)
  {
  }

  /** A settlement by the live holder stores exactly that outcome, and the execution failed only if processing did. */
  lemma SettleAnswers(t: Tables, c: P.Command, fence: nat, outcome: Outcome)
    ensures var (t', reply) := AfterSettleParse(t, c, fence, outcome);
            var u := c.aggregateId;
            && (reply == ParseUnsupported <==> c.kind != P.ResumeParse)
            && (reply == ParseLost <==> c.kind == P.ResumeParse && !(c.id in t.outbox && t.outbox[c.id].command == c
                                                                    && Owns(t.executions, c.id, fence, t.now)))
            && (reply == ParseCommitted ==>
                  && u in t.uploads && t.uploads[u].owner == c.ownerId && t.uploads[u].command == Some(c.id)
                  && t.uploads[u].status == Queued && u !in t.results)
            && (reply != ParseCommitted ==> t' == t)
            && (reply == ParseCommitted ==>
                  && OnlyUpload(t, t', u, Some(c.id)) && t'.uploads == t.uploads && t'.keys == t.keys
                  && t'.outbox == t.outbox && u in t'.results && t'.results[u] == outcome
                  && (IsFailed(t'.executions, c.id) <==> outcome == ProcessingFailed)
                  && (IsCompleted(t'.executions, c.id) <==> outcome != ProcessingFailed))
  {
  }

  // ---------------------------------------------------------------------------------------------
  // Whole runs.

  ghost function At(ops: seq<Op>): State {
    After(Fresh, Apply, ops)
  }

  ghost predicate LegalOps(ops: seq<Op>) {
    LegalRun(Fresh, Apply, Legal, ops)
  }

  /** What callers have learned, who was cancelled, and the stored commands are never forgotten. */
  ghost predicate Grows(s: State, s': State) {
    && s.claimed <= s'.claimed && s.held <= s'.held && s.issued.Keys <= s'.issued.Keys
    && s.t.outbox.Keys <= s'.t.outbox.Keys
    && Advances(s.t.executions, s'.t.executions)
  }

  predicate MovesExecutions(op: Op) {
    op.ClaimOp? || op.RenewOp? || op.ReleaseOp? || op.SettleOp?
  }

  lemma OtherTablesStay(s: State, op: Op)
    requires Legal(s, op)
    ensures !MovesExecutions(op) ==> Apply(s, op).t.executions == s.t.executions
    ensures if op.QueueOp? then Apply(s, op).t.outbox in {s.t.outbox, s.t.outbox[op.commandId := QueuedRow(s, op)]}
            else Apply(s, op).t.outbox == s.t.outbox
  {
    hide Fits, Read;
  }

  function QueuedRow(s: State, op: Op): P.OutboxRow
    requires op.QueueOp?
  {
    P.OutboxRow(P.Command(op.commandId, P.ResumeParse, op.id, op.owner, s.t.now), s.t.now, None)
  }

  lemma KnowledgeGrows(s: State, op: Op)
    ensures s.claimed <= Apply(s, op).claimed && s.held <= Apply(s, op).held
            && s.issued.Keys <= Apply(s, op).issued.Keys
  {
    hide Fits, Read, AfterSettleParse, AfterQueue, AfterDelete, AfterCancelFinish, AfterCancelClaim, AfterReserve,
        Claim, Renew, Release;
  }

  lemma ExecutionsGrow(s: State, op: Op)
    requires FencesCountAttempts(s.t.executions) && MovesExecutions(op)
    ensures Advances(s.t.executions, Apply(s, op).t.executions)
  {
    if op.ClaimOp? { ClaimIsLeaseChange(s.t.executions, op.c, s.t.outbox.Keys, s.t.now, op.lease); }
    if op.RenewOp? { RenewIsLeaseChange(s.t.executions, op.c, op.fence, s.t.outbox.Keys, s.t.now, op.lease); }
    if op.ReleaseOp? { ReleaseIsLeaseChange(s.t.executions, op.c, op.fence, s.t.outbox.Keys, s.t.now); }
  }

  lemma ApplyGrows(s: State, op: Op)
    requires Inv(s) && Legal(s, op)
    ensures Grows(s, Apply(s, op))
  {
    OtherTablesStay(s, op);
    KnowledgeGrows(s, op);
    if MovesExecutions(op) { ExecutionsGrow(s, op); }
    hide Inv, Apply, Legal;
  }

  lemma EveryStepKeeps()
    ensures Kept(Apply, Legal, Inv) && Related(Apply, Legal, Inv, Grows) && Preorder(Grows) && Inv(Fresh)
  {
    FreshInv();
    GrowsIsPreorder();
    hide Inv, Grows, Apply, Legal;
    forall s, op | Inv(s) && Legal(s, op) ensures Inv(Apply(s, op)) && Grows(s, Apply(s, op)) {
      ApplyKeeps(s, op);
      ApplyGrows(s, op);
    }
  }

  lemma GrowsIsPreorder()
    ensures Preorder(Grows)
  {
    forall a, b, c | Grows(a, b) && Grows(b, c) ensures Grows(a, c) {
      assert forall id :: Terminal(a.t.executions, id) ==> Terminal(b.t.executions, id);
    }
  }

  lemma FreshInv()
    ensures Inv(Fresh)
  {
    EmptyQuotas();
    hide WithinQuotas;
  }

  lemma EmptyQuotas()
    ensures WithinQuotas(map[])
  {
    assert Sizes(map[]) == map[] && forall o :: SizesOf(map[], o) == map[];
  }

  lemma ReachableInv(ops: seq<Op>)
    requires LegalOps(ops)
    ensures Inv(At(ops))
  {
    hide Inv, Grows, Apply, Legal;
    EveryStepKeeps();
    InvariantHolds(Fresh, Apply, Legal, Inv, ops);
  }

  /** An upload that reached cancelling is never queued afterwards, and never has a parse command. */
  lemma CancellingNeverQueued(ops: seq<Op>, n: nat, id: UploadId)
    requires LegalOps(ops) && n <= |ops|
    requires id in At(ops[..n]).t.uploads && At(ops[..n]).t.uploads[id].status.Cancelling?
    ensures id in At(ops).t.uploads ==>
            At(ops).t.uploads[id].status.Cancelling? || At(ops).t.uploads[id].status.Cancelled?
    ensures !HasCommand(At(ops).t.outbox, id)
  {
    PrefixLegal(Fresh, Apply, Legal, ops, n);
    ReachableInv(ops[..n]);
    ReachableInv(ops);
    hide Apply, Legal;
    assert id in At(ops[..n]).claimed;
    EveryStepKeeps();
    StatesRelated(Fresh, Apply, Legal, Inv, Grows, ops, n);
    assert Grows(At(ops[..n]), At(ops));
    hide RowsIssued, WithinQuotas, FilesPlaced, ObjectsHeld, CommandsMatch, ResultsMatch, RemovalsSettled, HasCommand;
  }

  /**
   * A queued upload without a result has exactly one parse command, unfinished, and its path holds the
   * recorded version.
   */
  lemma QueuedIsWhole(ops: seq<Op>, id: UploadId)
    requires LegalOps(ops)
    requires id in At(ops).t.uploads && At(ops).t.uploads[id].status.Queued? && id !in At(ops).t.results
    ensures var s := At(ops); var u := s.t.uploads[id];
            && u.command.Some? && u.version.Some?
            && (forall c :: c in s.t.outbox && s.t.outbox[c].command.aggregateId == id <==> c == u.command.value)
            && !Terminal(s.t.executions, u.command.value)
            && Read(s.files, IdentityOf(id, u)) == Found(u.version.value)
  {
    ReachableInv(ops);
    WholeUpload(At(ops), id);
  }

  lemma WholeUpload(s: State, id: UploadId)
    requires Inv(s) && id in s.t.uploads && s.t.uploads[id].status.Queued? && id !in s.t.results
    ensures var u := s.t.uploads[id];
            && u.command.Some? && u.version.Some?
            && (forall c :: c in s.t.outbox && s.t.outbox[c].command.aggregateId == id <==> c == u.command.value)
            && !Terminal(s.t.executions, u.command.value)
            && Read(s.files, IdentityOf(id, u)) == Found(u.version.value)
  {
    hide WithinQuotas, FilesPlaced, ClaimsStand, RemovalsSettled, FencesCountAttempts, Read;
    var u := s.t.uploads[id];
    assert (id, u.version.value) in s.held && Unsettled(s.t.uploads, s.t.results, id);
  }

  /** Reading the object back never gives two versions while an upload is unsettled, however many callers put it. */
  lemma OneVersion(s: State, id: UploadId, v: Version, w: Version)
    requires Inv(s) && (id, v) in s.held && (id, w) in s.held && Unsettled(s.t.uploads, s.t.results, id)
    ensures v == w
  {
    hide WithinQuotas, FilesPlaced, ClaimsStand, RemovalsSettled, FencesCountAttempts, CommandsMatch, ResultsMatch,
        Read, Unsettled;
    assert Read(s.files, s.issued[id]) == Found(v);
    assert Read(s.files, s.issued[id]) == Found(w);
  }

  /**
   * The holder of a live lease on a parse command finds the upload queued and whole, and whatever it settles
   * is committed.
   */
  lemma LiveParseSettles(s: State, c: CommandId, fence: nat, outcome: Outcome)
    requires Inv(s) && Owns(s.t.executions, c, fence, s.t.now)
    ensures c in s.t.outbox && s.t.outbox[c].command.aggregateId in s.t.uploads
    ensures var command := s.t.outbox[c].command; var u := s.t.uploads[command.aggregateId];
            && u.status.Queued? && u.command == Some(c) && u.version.Some? && u.owner == command.ownerId
            && Read(s.files, IdentityOf(command.aggregateId, u)) == Found(u.version.value)
            && AfterSettleParse(s.t, command, fence, outcome).1.ParseCommitted?
            && AfterSettleParse(s.t, command, fence, outcome).0.results[command.aggregateId] == outcome
  {
    hide WithinQuotas, FilesPlaced, ClaimsStand, RemovalsSettled, FencesCountAttempts, Read, ObjectsHeld, RowsIssued;
    var id := s.t.outbox[c].command.aggregateId;
    assert !Terminal(s.t.executions, c);
    assert id in s.t.uploads && id !in s.t.results && s.t.uploads[id].command == Some(c);
    WholeUpload(s, id);
  }

  /** Every reachable upload table is within the limits, in total and per owner. */
  lemma QuotasHold(ops: seq<Op>, owner: OwnerId)
    requires LegalOps(ops)
    ensures |At(ops).t.uploads| <= 1000 && Total(Sizes(At(ops).t.uploads)) <= 1024 * 1024 * 1024
    ensures |SizesOf(At(ops).t.uploads, owner)| <= 50 && Total(SizesOf(At(ops).t.uploads, owner)) <= 100 * 1024 * 1024
  {
    ReachableInv(ops);
    hide Sizes, SizesOf, RowsIssued, FilesPlaced, ClaimsStand, ObjectsHeld, CommandsMatch, ResultsMatch,
        RemovalsSettled, FencesCountAttempts;
    assert |SizesOf(At(ops).t.uploads, owner)| <= OWNER_UPLOADS;
  }

  /** No put replaces an object or a marker; an object leaves its path only through its own cancellation or deletion. */
  lemma FilesOnlyLeave(s: State, op: Op, p: Path)
    requires Inv(s) && Legal(s, op) && p in s.files && (p !in Apply(s, op).files || Apply(s, op).files[p] != s.files[p])
    ensures !op.PutOp?
    ensures s.files[p].Object? ==>
            (op.CancelRenameOp? && p.resume in s.claimed) || (op.DeleteUnlinkOp? && p.resume in s.removing)
    ensures s.files[p].Marker? ==>
            (op == ReclaimOp(p)) || (op.CancelRenameOp? && p in Apply(s, op).files && Apply(s, op).files[p].Marker?)
  {
    hide Inv, Apply, Legal, Unsettled;
    if s.files[p].Marker? { MarkerIsClaimed(s, p); }
    FilesMove(s, op);
    if op.CancelRenameOp? || op.DeleteUnlinkOp? {
      ClaimedIsNotUnsettled(s, op.id);
    }
  }

  lemma MarkerIsClaimed(s: State, p: Path)
    requires Inv(s) && p in s.files && s.files[p].Marker?
    ensures p.resume in s.claimed
  {
    hide RowsIssued, WithinQuotas, ClaimsStand, ObjectsHeld, CommandsMatch, ResultsMatch, RemovalsSettled,
        FencesCountAttempts;
  }

  /** What each call does to the directory. */
  lemma FilesMove(s: State, op: Op)
    ensures var files' := Apply(s, op).files;
            match op
            case PutOp(id, version) => files' == s.files
                || (id in s.issued && files' == Linked(s.files, PathOf(s.issued[id]), Object(s.issued[id], version)))
            case CancelLinkOp(id) => files' == s.files
                || (id in s.issued && PathOf(s.issued[id]) !in s.files
                    && files' == s.files[PathOf(s.issued[id]) := Marker(s.issued[id], s.t.now)])
            case CancelRenameOp(id) => files' == s.files
                || (id in s.seen && id in s.issued && files' ==
                      s.files[PathOf(s.issued[id]) := Marker(s.issued[id], s.t.now)])
            case ReclaimOp(p) => files' == s.files || (p in s.files && s.files[p].Marker? && files' == s.files - {p})
            case DeleteUnlinkOp(id) => files' == s.files
                || (id in s.removing && id in s.issued && files' == s.files - {PathOf(s.issued[id])})
            case _ => files' == s.files
  {
    hide Fits, Read, Linked, AfterSettleParse, AfterQueue, AfterDelete, AfterCancelFinish, AfterCancelClaim,
        AfterReserve, Claim, Renew, Release;
  }

  /** Until a sweep reclaims it, a cancellation marker keeps its path against every late upload and every other call. */
  lemma {:induction false} MarkerStands(s: State, ops: seq<Op>, p: Path)
    requires Inv(s) && LegalRun(s, Apply, Legal, ops) && p in s.files && s.files[p].Marker?
    requires ReclaimOp(p) !in ops
    ensures var f := After(s, Apply, ops).files; p in f && f[p].Marker?
    decreases |ops|
  {
    hide Inv, Apply, Legal, Grows;
    if ops != [] {
      var front, op := ops[..|ops| - 1], ops[|ops| - 1];
      assert ReclaimOp(p) !in front && op != ReclaimOp(p);
      MarkerStands(s, front, p);
      EveryStepKeeps();
      InvariantHolds(s, Apply, Legal, Inv, front);
      var before := After(s, Apply, front);
      assert After(s, Apply, ops) == Apply(before, op);
      MarkerKept(before, op, p);
    }
  }

  lemma MarkerKept(s: State, op: Op, p: Path)
    requires Inv(s) && Legal(s, op) && p in s.files && s.files[p].Marker? && op != ReclaimOp(p)
    ensures p in Apply(s, op).files && Apply(s, op).files[p].Marker?
  {
    hide Inv, Apply, Legal;
    var files := Apply(s, op).files;
    if p !in files || files[p] != s.files[p] {
      FilesOnlyLeave(s, op, p);
    }
  }

  // At most one parse result.

  ghost predicate SettlesUpload(s: State, op: Op, id: UploadId) {
    op.SettleOp? && op.command.aggregateId == id
        && AfterSettleParse(s.t, op.command, op.fence, op.outcome).1.ParseCommitted?
  }

  predicate ParseFinished(s: State, id: UploadId) {
    exists c :: c in s.t.outbox && s.t.outbox[c].command.aggregateId == id && Terminal(s.t.executions, c)
  }

  lemma SettlingFinishes(s: State, op: Op, id: UploadId)
    requires Inv(s) && Legal(s, op)
    ensures if SettlesUpload(s, op, id) then !ParseFinished(s, id) && ParseFinished(Apply(s, op), id)
            else ParseFinished(Apply(s, op), id) == ParseFinished(s, id)
  {
    var s' := Apply(s, op);
    ApplyKeeps(s, op);
    ApplyGrows(s, op);
    if SettlesUpload(s, op, id) {
      SettledOnce(s, op, id);
    } else {
      SameCommandsFinished(s, op, id);
    }
  }

  lemma SettledOnce(s: State, op: Op, id: UploadId)
    requires Inv(s) && SettlesUpload(s, op, id)
    ensures !ParseFinished(s, id) && ParseFinished(Apply(s, op), id)
  {
    hide WithinQuotas, FilesPlaced, ClaimsStand, RemovalsSettled, FencesCountAttempts, ObjectsHeld, RowsIssued;
    assert Terminal(Apply(s, op).t.executions, op.command.id);
  }

  lemma SameCommandsFinished(s: State, op: Op, id: UploadId)
    requires Inv(s) && Legal(s, op) && !SettlesUpload(s, op, id)
    ensures ParseFinished(Apply(s, op), id) == ParseFinished(s, id)
  {
    hide WithinQuotas, FilesPlaced, ClaimsStand, RemovalsSettled, FencesCountAttempts, ObjectsHeld, RowsIssued, Read,
        Fits, CommandsMatch, LeaseChange;
    hide Claim, Renew, Release;
    var s' := Apply(s, op);
    assert s.t.executions.Keys <= s.t.outbox.Keys;
    OtherTablesStay(s, op);
    hide ResultsMatch;
    if op.ClaimOp? || op.RenewOp? || op.ReleaseOp? {
      LeaseKeepsFinished(s, op, id);
    } else if op.QueueOp? {
      QueueKeepsFinished(s.t, s'.t, op.commandId, id);
    } else if op.SettleOp? {
      assert s'.t.outbox == s.t.outbox;
      assert forall c :: c in s.t.outbox && s.t.outbox[c].command.aggregateId == id ==>
          (Terminal(s'.t.executions, c) <==> Terminal(s.t.executions, c));
    } else {
      assert s'.t.outbox == s.t.outbox && s'.t.executions == s.t.executions;
    }
  }

  lemma LeaseKeepsFinished(s: State, op: Op, id: UploadId)
    requires FencesCountAttempts(s.t.executions) && (op.ClaimOp? || op.RenewOp? || op.ReleaseOp?)
    ensures ParseFinished(Apply(s, op), id) == ParseFinished(s, id)
  {
    if op.ClaimOp? { ClaimIsLeaseChange(s.t.executions, op.c, s.t.outbox.Keys, s.t.now, op.lease); }
    if op.RenewOp? { RenewIsLeaseChange(s.t.executions, op.c, op.fence, s.t.outbox.Keys, s.t.now, op.lease); }
    if op.ReleaseOp? { ReleaseIsLeaseChange(s.t.executions, op.c, op.fence, s.t.outbox.Keys, s.t.now); }
    assert Apply(s, op).t.outbox == s.t.outbox;
    assert SameFinished(s.t.executions, Apply(s, op).t.executions);
  }

  lemma QueueKeepsFinished(t: Tables, t': Tables, added: CommandId, id: UploadId)
    requires t'.executions == t.executions && t.executions.Keys <= t.outbox.Keys && added !in t.outbox
    requires t'.outbox == t.outbox || (added in t'.outbox && t'.outbox == t.outbox[added := t'.outbox[added]])
    ensures (exists c :: c in t'.outbox && t'.outbox[c].command.aggregateId == id && Terminal(t'.executions, c))
       <==> (exists c :: c in t.outbox && t.outbox[c].command.aggregateId == id && Terminal(t.executions, c))
  {
    forall c | c in t.outbox ensures c in t'.outbox && t'.outbox[c] == t.outbox[c] {
    }
  }

  /** Across all workers, retries and redeliveries, one upload is settled at most once. */
  lemma SettledAtMostOnce(ops: seq<Op>, id: UploadId)
    requires LegalOps(ops)
    ensures Count(Fresh, Apply, (s, op) => SettlesUpload(s, op, id), ops) == if ParseFinished(At(ops), id) then 1 else 0
  {
    assert !ParseFinished(Fresh, id);
    hide Inv, Grows, Apply, Legal, SettlesUpload, ParseFinished;
    EveryStepKeeps();
    forall s, op | Inv(s) && Legal(s, op)
      ensures if SettlesUpload(s, op, id) then !ParseFinished(s, id) && ParseFinished(Apply(s, op), id)
              else ParseFinished(Apply(s, op), id) == ParseFinished(s, id)
    {
      SettlingFinishes(s, op, id);
    }
    CountsOnce(Fresh, Apply, Legal, Inv, (s, op) => SettlesUpload(s, op, id), s => ParseFinished(s, id), ops);
  }
}
