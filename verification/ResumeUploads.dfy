/**
 * The upload rows of packages/core/src/resumes.ts: quota-checked reservation, queuing with the parse
 * command, cancellation, deletion and settlement. `Tables` is the value of the tables; the `After`
 * functions say what one transaction does, and class `UploadRepository` carries it out.
 */
module ResumeUploads {
  import opened Prelude
  import opened Leases
  import opened ResumeStorage
  import P = SearchPipeline

  datatype UploadStatus = Uploading | Queued | Cancelling | Cancelled

  datatype Metadata = Metadata(sha256: string, bytes: nat, contentType: ContentType)

  datatype Upload = Upload(owner: OwnerId, key: string, bucket: string, meta: Metadata, status: UploadStatus,
                           version: Option<Version>, command: Option<CommandId>)

  datatype Outcome = Parsed(text: string) | InvalidDocument | ProcessingFailed

  /** `keys` is the unique index on owner and idempotency key. */
  datatype Tables = Tables(uploads: map<UploadId, Upload>, keys: map<(OwnerId, string), UploadId>,
                           results: map<UploadId, Outcome>, outbox: map<CommandId, P.OutboxRow>,
                           executions: Executions, now: int)

  const NoTables := Tables(map[], map[], map[], map[], map[], 0)

  const MAX_UPLOADS: nat := 1000
  const MAX_BYTES: nat := 1073741824
  const OWNER_UPLOADS: nat := 50
  const OWNER_BYTES: nat := 104857600

  datatype ReserveReply = Reserved(id: UploadId) | LimitReached | KeyReused

  datatype QueueReply = QueueMissing | QueueDone | VersionConflict | QueueRefused

  datatype ClaimReply = Claimed | CancelMissing | AlreadyCancelled | NotCancellable

  datatype DeleteReply = DeleteMissing | NotSettled | Deleted

  datatype ParseReply = ParseUnsupported | ParseLost | ParseConflict | ParseCommitted

  function IdentityOf(id: UploadId, u: Upload): Identity {
    Identity(u.owner, id, u.meta.sha256, u.meta.bytes, u.meta.contentType)
  }

  function Sizes(uploads: map<UploadId, Upload>): map<UploadId, nat> {
    map id | id in uploads :: uploads[id].meta.bytes
  }

  function SizesOf(uploads: map<UploadId, Upload>, owner: OwnerId): map<UploadId, nat> {
    map id | id in uploads && uploads[id].owner == owner :: uploads[id].meta.bytes
  }

  ghost predicate Fits(sizes: map<UploadId, nat>, bytes: nat, rows: nat, limit: nat) {
    |sizes| < rows && Total(sizes) + bytes <= limit
  }

  predicate SameUpload(u: Upload, bucket: string, meta: Metadata) {
    u.bucket == bucket && u.meta == meta
  }

  ghost function AfterReserve(t: Tables, owner: OwnerId, key: string, bucket: string, meta: Metadata,
                              id: UploadId): (Tables, ReserveReply) {
    if (owner, key) in t.keys then
      var existing := t.keys[(owner, key)];
      if existing in t.uploads && SameUpload(t.uploads[existing], bucket, meta) then (t, Reserved(existing))
      else (t, KeyReused)
    else if !Fits(Sizes(t.uploads), meta.bytes, MAX_UPLOADS, MAX_BYTES)
         || !Fits(SizesOf(t.uploads, owner), meta.bytes, OWNER_UPLOADS, OWNER_BYTES) then (t, LimitReached)
    else
      (t.(uploads := t.uploads[id := Upload(owner, key, bucket, meta, Uploading, None, None)],
          keys := t.keys[(owner, key) := id]),
       Reserved(id))
  }

  function AfterQueue(t: Tables, owner: OwnerId, id: UploadId, version: Version,
                      commandId: CommandId): (Tables, QueueReply) {
    if id !in t.uploads || t.uploads[id].owner != owner then (t, QueueMissing)
    else if t.uploads[id].status.Queued?
      then (t, if t.uploads[id].version == Some(version) then QueueDone else VersionConflict)
    else if !t.uploads[id].status.Uploading? then (t, QueueRefused)
    else
      var command := P.Command(commandId, P.ResumeParse, id, owner, t.now);
      (t.(outbox := t.outbox[commandId := P.OutboxRow(command, t.now, None)],
          uploads := t.uploads[id := t.uploads[id].(status := Queued, version := Some(version),
                                                    command := Some(commandId))]),
       QueueDone)
  }

  /** The first statement of a cancellation, and what its caller does when it changes no row. */
  function AfterCancelClaim(t: Tables, owner: OwnerId, id: UploadId, bucket: string): (Tables, ClaimReply) {
    if id !in t.uploads || t.uploads[id].owner != owner then (t, CancelMissing)
    else if t.uploads[id].bucket == bucket && (t.uploads[id].status.Uploading? || t.uploads[id].status.Cancelling?) then
      (t.(uploads := t.uploads[id := t.uploads[id].(status := Cancelling)]), Claimed)
    else if t.uploads[id].bucket == bucket && t.uploads[id].status.Cancelled? then (t, AlreadyCancelled)
    else (t, NotCancellable)
  }

  /** The last statement of a cancellation. */
  function AfterCancelFinish(t: Tables, owner: OwnerId, id: UploadId): Tables {
    if id in t.uploads && t.uploads[id].owner == owner && t.uploads[id].status.Cancelling?
    then t.(uploads := t.uploads[id := t.uploads[id].(status := UploadStatus.Cancelled)]) else t
  }

  /** The transaction of a deletion whose storage step, if it has one, succeeded. */
  function AfterDelete(t: Tables, owner: OwnerId, id: UploadId): (Tables, DeleteReply) {
    if id !in t.uploads || t.uploads[id].owner != owner then (t, DeleteMissing)
    else if !t.uploads[id].status.Cancelled? && id !in t.results then (t, NotSettled)
    else
      (t.(uploads := t.uploads - {id}, keys := t.keys - {(owner, t.uploads[id].key)},
          results := if t.uploads[id].status.Cancelled? then t.results else t.results - {id}), Deleted)
  }

  predicate OwnsCommand(t: Tables, c: P.Command, fence: nat) {
    Owns(t.executions, c.id, fence, t.now) && c.id in t.outbox && t.outbox[c.id].command == c
  }

  function AfterSettleParse(t: Tables, c: P.Command, fence: nat, outcome: Outcome): (Tables, ParseReply) {
    if !c.kind.ResumeParse? then (t, ParseUnsupported)
    else if !OwnsCommand(t, c, fence) then (t, ParseLost)
    else if !(c.aggregateId in t.uploads && t.uploads[c.aggregateId].owner == c.ownerId
              && t.uploads[c.aggregateId].command == Some(c.id) && t.uploads[c.aggregateId].status.Queued?)
            || c.aggregateId in t.results then (t, ParseConflict)
    else
      var status := if outcome.ProcessingFailed? then ExecFailed else ExecCompleted;
      (t.(executions := t.executions[c.id := t.executions[c.id].(status := status)],
          results := t.results[c.aggregateId := outcome]),
       ParseCommitted)
  }

  // ---------------------------------------------------------------------------------------------
  // The same transactions over mutable tables.

  class UploadRepository {
    var uploads: map<UploadId, Upload>
    var keys: map<(OwnerId, string), UploadId>
    var results: map<UploadId, Outcome>
    var outbox: map<CommandId, P.OutboxRow>
    var executions: Executions
    var now: int

    function Stored(): Tables
      reads this
    {
      Tables(uploads, keys, results, outbox, executions, now)
    }

    constructor ()
      ensures Stored() == NoTables
    {
      uploads, keys, results, outbox, executions, now := map[], map[], map[], map[], map[], 0;
    }

    /** `count(*)` and `sum(bytes)`, over all rows or over the rows of one owner. */
    method Usage(owner: Option<OwnerId>) returns (count: nat, bytes: nat)
      ensures var sizes := if owner.Some? then SizesOf(uploads, owner.value) else Sizes(uploads);
              count == |sizes| && bytes == Total(sizes)
    {
      count, bytes := 0, 0;
      ghost var sizes := if owner.Some? then SizesOf(uploads, owner.value) else Sizes(uploads);
      var left := uploads.Keys;
      ghost var todo := sizes;
      while left != {}
        invariant todo.Keys <= sizes.Keys && (forall id :: id in todo ==> todo[id] == sizes[id])
        invariant forall id :: id in left && id in sizes <==> id in todo
        invariant left <= uploads.Keys
        invariant count + |todo| == |sizes| && bytes + Total(todo) == Total(sizes)
        decreases left
      {
        var id :| id in left;
        if owner.None? || uploads[id].owner == owner.value {
          TotalRemove(todo, id);
          assert (todo - {id}).Keys == todo.Keys - {id};
          todo := todo - {id};
          count, bytes := count + 1, bytes + uploads[id].meta.bytes;
        }
        left := left - {id};
      }
      assert todo == map[];
    }

    method Reserve(owner: OwnerId, key: string, bucket: string, meta: Metadata, id: UploadId)
      returns (reply: ReserveReply)
      requires id !in uploads
      modifies this`uploads, this`keys
      ensures (Stored(), reply) == AfterReserve(old(Stored()), owner, key, bucket, meta, id)
    {
      if (owner, key) !in keys {
        var count, bytes := Usage(None);
        if count >= MAX_UPLOADS || bytes + meta.bytes > MAX_BYTES { return LimitReached; }
        count, bytes := Usage(Some(owner));
        if count >= OWNER_UPLOADS || bytes + meta.bytes > OWNER_BYTES { return LimitReached; }
        uploads := uploads[id := Upload(owner, key, bucket, meta, Uploading, None, None)];
        keys := keys[(owner, key) := id];
        return Reserved(id);
      }
      var existing := keys[(owner, key)];
      if existing !in uploads || !SameUpload(uploads[existing], bucket, meta) { return KeyReused; }
      return Reserved(existing);
    }

    method QueueStoredUpload(owner: OwnerId, id: UploadId, version: Version, commandId: CommandId)
      returns (reply: QueueReply)
      requires commandId !in outbox
      modifies this`uploads, this`outbox
      ensures (Stored(), reply) == AfterQueue(old(Stored()), owner, id, version, commandId)
    {
      if id !in uploads || uploads[id].owner != owner { return QueueMissing; }
      var record := uploads[id];
      if record.status.Queued? {
        return if record.version == Some(version) then QueueDone else VersionConflict;
      }
      if !record.status.Uploading? { return QueueRefused; }
      outbox := outbox[commandId := P.OutboxRow(P.Command(commandId, P.ResumeParse, id, owner, now), now, None)];
      uploads := uploads[id := record.(status := Queued, version := Some(version), command := Some(commandId))];
      return QueueDone;
    }

    method CancelClaim(owner: OwnerId, id: UploadId, bucket: string) returns (reply: ClaimReply)
      modifies this`uploads
      ensures (Stored(), reply) == AfterCancelClaim(old(Stored()), owner, id, bucket)
    {
      if id in uploads && uploads[id].owner == owner && uploads[id].bucket == bucket
         && (uploads[id].status.Uploading? || uploads[id].status.Cancelling?) {
        uploads := uploads[id := uploads[id].(status := Cancelling)];
        return Claimed;
      }
      if id !in uploads || uploads[id].owner != owner { return CancelMissing; }
      if uploads[id].status.Cancelled? && uploads[id].bucket == bucket { return AlreadyCancelled; }
      return NotCancellable;
    }

    method CancelFinish(owner: OwnerId, id: UploadId)
      modifies this`uploads
      ensures Stored() == AfterCancelFinish(old(Stored()), owner, id)
    {
      if id in uploads && uploads[id].owner == owner && uploads[id].status.Cancelling? {
        uploads := uploads[id := uploads[id].(status := UploadStatus.Cancelled)];
      }
    }

    method SettleParse(c: P.Command, fence: nat, outcome: Outcome) returns (reply: ParseReply)
      modifies this`executions, this`results
      ensures (Stored(), reply) == AfterSettleParse(old(Stored()), c, fence, outcome)
    {
      if !c.kind.ResumeParse? { return ParseUnsupported; }
      if !OwnsCommand(Stored(), c, fence) { return ParseLost; }
      var saved := executions;
      var settled := if outcome.ProcessingFailed? then ExecFailed else ExecCompleted;
      executions := executions[c.id := executions[c.id].(status := settled)];
      var upload := c.aggregateId;
      if upload !in uploads || uploads[upload].owner != c.ownerId || uploads[upload].command != Some(c.id)
         || !uploads[upload].status.Queued? || upload in results {
        executions := saved;  // rollback
        return ParseConflict;
      }
      results := results[upload := outcome];
      return ParseCommitted;
    }

    /** The object of a settled upload is removed before its rows; a failed removal keeps the rows. */
    method DeleteSettled(owner: OwnerId, id: UploadId, bucket: string, store: FileStore)
      returns (reply: DeleteReply, failed: bool)
      requires store.Valid()
      modifies this`uploads, this`keys, this`results, store`files
      ensures store.Valid()
      ensures Stored() == if failed then old(Stored()) else AfterDelete(old(Stored()), owner, id).0
      ensures !failed ==> reply == AfterDelete(old(Stored()), owner, id).1
      ensures failed <==>
                && id in old(uploads) && old(uploads)[id].owner == owner && id in old(results)
                && var u := old(uploads)[id];
                && !u.status.Cancelled?
                && !(u.bucket == bucket && u.version.Some?
                     && Read(old(store.files), IdentityOf(id, u)) in {Found(u.version.value), NotFound})
      ensures reply.Deleted? && !failed && !old(uploads)[id].status.Cancelled? ==>
                && old(uploads)[id].version.Some? && Read(store.files, IdentityOf(id, old(uploads)[id])).NotFound?
      ensures failed || !reply.Deleted? || old(uploads)[id].status.Cancelled? ==> store.files == old(store.files)
      ensures forall p :: p in store.files ==> p in old(store.files) && store.files[p] == old(store.files)[p]
      ensures forall p :: p in old(store.files) && p !in store.files ==>
                id in old(uploads) && p == PathOf(IdentityOf(id, old(uploads)[id]))
    {
      failed := false;
      if id !in uploads || uploads[id].owner != owner { return DeleteMissing, false; }
      var record := uploads[id];
      if !record.status.Cancelled? {
        if id !in results { return NotSettled, false; }
        if record.bucket != bucket || record.version.None? { return Deleted, true; }
        var removed := store.Delete(IdentityOf(id, record), record.version.value);
        if !removed { return Deleted, true; }
        results := results - {id};
      }
      keys := keys - {(owner, record.key)};
      uploads := uploads - {id};
      reply := Deleted;
    }
  }

  // ---------------------------------------------------------------------------------------------
  // The coordinator, one call without interference.

  datatype UploadReply = Accepted(upload: UploadId) | Refused(limit: ReserveReply) | Conflicted | StorageFailed

  /**
   * The answer for a reserved row: by its status, by what its path held, and by whether the temporary could
   * be linked.
   */
  function Answered(id: UploadId, status: UploadStatus, held: ReadReply, lost: bool): UploadReply {
    match status
    case Queued => Accepted(id)
    case Uploading =>
      (match held
       case Found(_) => Accepted(id)
       case NotFound => if lost then StorageFailed else Accepted(id)
       case _ => StorageFailed)
    case _ => Conflicted
  }

  /** `Upload`: reserve, reuse or store the object, read it back, queue it. */
  method UploadResume(repo: UploadRepository, store: FileStore, owner: OwnerId, key: string, bucket: string,
                      meta: Metadata, id: UploadId, version: Version, commandId: CommandId,
                      reclaimed: seq<bool>)
    returns (reply: UploadReply)
    requires store.Valid() && id !in repo.uploads && commandId !in repo.outbox && |reclaimed| == 2
    modifies repo`uploads, repo`keys, repo`outbox, store`files
    ensures store.Valid()
    ensures forall p :: p in old(store.files) ==> p in store.files && store.files[p] == old(store.files)[p]
    ensures reply.Accepted? ==> reply.upload in repo.uploads && repo.uploads[reply.upload].status.Queued?
    ensures reply.Accepted? && repo.uploads != old(repo.uploads) ==>
              var u := repo.uploads[reply.upload];
              && SameUpload(u, bucket, meta) && u.version.Some? && u.command == Some(commandId)
              && Read(store.files, IdentityOf(reply.upload, u)) == Found(u.version.value)
              && commandId in repo.outbox && repo.outbox[commandId].command.aggregateId == reply.upload
    ensures (owner, key) in old(repo.keys) && old(repo.keys)[(owner, key)] in old(repo.uploads)
            && old(repo.uploads)[old(repo.keys)[(owner, key)]].status.Queued? ==>
              repo.Stored() == old(repo.Stored()) && store.files == old(store.files)
    ensures var (t, reserved) := AfterReserve(old(repo.Stored()), owner, key, bucket, meta, id);
            if !reserved.Reserved? then reply == Refused(reserved)
            else
              && reserved.id in t.uploads
              && var u := t.uploads[reserved.id];
              var i, lost := IdentityOf(reserved.id, u), reclaimed[0] && reclaimed[1];
              u.owner == owner ==>
                && reply == Answered(reserved.id, u.status, Read(old(store.files), i), lost)
                && store.files == if u.status.Uploading? && Read(old(store.files), i).NotFound? && !lost
                                  then old(store.files)[PathOf(i) := Object(i, version)] else old(store.files)
  {
    var reserved := repo.Reserve(owner, key, bucket, meta, id);
    if !reserved.Reserved? { return Refused(reserved); }
    var upload := reserved.id;
    var record := repo.uploads[upload];
    if record.status.Queued? { return Accepted(upload); }
    if !record.status.Uploading? { return Conflicted; }
    var identity := IdentityOf(upload, record);
    var found := Read(store.files, identity);
    if found.UploadCancelled? || found.Mismatch? { return StorageFailed; }
    if found.NotFound? {
      var put := store.Put(identity, version, reclaimed);
      found := if put.Stored? then Found(version) else Read(store.files, identity);
      if !found.Found? { return StorageFailed; }
    }
    if Read(store.files, identity) != found { return StorageFailed; }
    var queued := repo.QueueStoredUpload(owner, upload, found.version, commandId);
    return if queued.QueueDone? then Accepted(upload) else Conflicted;
  }
}
