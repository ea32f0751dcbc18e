/**
 * The private resume directory (packages/core/src/file-storage.ts): one file per upload, holding
 * either the encrypted object or a cancellation marker, published by an exclusive hard link.
 * Encryption and the marker digest bind a file to its identity, so a file is its identity here.
 */
module ResumeStorage {
  import opened Prelude

  type OwnerId = nat
  type UploadId = nat
  type Version = string

  datatype ContentType = Pdf | Docx

  datatype Identity = Identity(owner: OwnerId, resume: UploadId, sha256: string, bytes: nat, contentType: ContentType)

  datatype Path = Path(owner: OwnerId, resume: UploadId, sha256: string)

  datatype File = Object(identity: Identity, version: Version) | Marker(identity: Identity, writtenAt: int)

  type Files = map<Path, File>

  datatype ReadReply = Found(version: Version) | NotFound | UploadCancelled | Mismatch

  datatype PublishReply = Installed | AlreadyMarked | Changed

  datatype PutReply = Stored | AlreadyExists | TemporaryLost

  datatype CancelReply = Cancelled | QuotaReached | CancelFailed

  const RECLAIM_LIMIT: nat := 1000
  const RECOUNT_INTERVAL: int := 5000
  const PUBLISH_ATTEMPTS: nat := 10

  function PathOf(i: Identity): Path {
    Path(i.owner, i.resume, i.sha256)
  }

  /** `read` without an expected version: a marker of this identity is a cancellation, anything foreign fails. */
  function Read(files: Files, i: Identity): ReadReply {
    if PathOf(i) !in files then NotFound
    else match files[PathOf(i)]
      case Marker(j, _) => if j == i then UploadCancelled else Mismatch
      case Object(j, v) => if j == i then Found(v) else Mismatch
  }

  /** `link` of a finished temporary: never replaces a file. */
  function Linked(files: Files, p: Path, f: File): Files {
    if p in files then files else files[p := f]
  }

  /** `publishCancellation` without interference. */
  function Published(files: Files, i: Identity, now: int): (Files, PublishReply) {
    if PathOf(i) !in files || Read(files, i).Found? then (files[PathOf(i) := Marker(i, now)], Installed)
    else if Read(files, i).UploadCancelled? then (files, AlreadyMarked)
    else (files, Changed)
  }

  /** What a publish puts in place reads back as that for its own identity; nothing else at the path does. */
  lemma PublishedReadsBack(files: Files, i: Identity, j: Identity, version: Version, now: int)
    ensures PathOf(i) !in files ==> Read(Linked(files, PathOf(i), Object(i, version)), i) == Found(version)
    ensures PathOf(i) in files ==> Linked(files, PathOf(i), Object(i, version)) == files
    ensures var (files', reply) := Published(files, i, now);
            && (reply == Changed <==> PathOf(i) in files && files[PathOf(i)].identity != i)
            && (reply != Changed ==> Read(files', i) == UploadCancelled)
            && (reply != Installed ==> files' == files)
            && (reply == AlreadyMarked <==>
                  PathOf(i) in files && files[PathOf(i)].Marker? && files[PathOf(i)].identity == i)
            && (PathOf(j) != PathOf(i) ==> Read(files', j) == Read(files, j))
            && (j != i && PathOf(j) == PathOf(i) && PathOf(i) in files' && files'[PathOf(i)].identity == i ==>
                  Read(files', j) == Mismatch)
    ensures Read(files, i).NotFound? <==> PathOf(i) !in files
    ensures Read(files, i).Mismatch? <==> PathOf(i) in files && files[PathOf(i)].identity != i
  {
  }

  function MarkersAt(files: Files, paths: set<Path>): set<Path> {
    set p | p in paths && p in files && files[p].Marker?
  }

  function MarkerPaths(files: Files): set<Path> {
    MarkersAt(files, files.Keys)
  }

  function OwnedBy(paths: set<Path>, owner: OwnerId): set<Path> {
    set p | p in paths && p.owner == owner
  }

  function CountOf(counts: map<OwnerId, nat>, owner: OwnerId): nat {
    if owner in counts then counts[owner] else 0
  }

  /** The in-memory counters agree with these marker files, in total and per owner. */
  ghost predicate CountsMatch(markers: nat, counts: map<OwnerId, nat>, paths: set<Path>) {
    && markers == |paths|
    && (forall o :: CountOf(counts, o) == |OwnedBy(paths, o)|)
    && (forall o :: o in counts ==> counts[o] > 0)
  }

  function CountOwner(counts: map<OwnerId, nat>, owner: OwnerId): map<OwnerId, nat> {
    counts[owner := CountOf(counts, owner) + 1]
  }

  lemma OwnedByOneMore(paths: set<Path>, p: Path, owner: OwnerId)
    requires p !in paths
    ensures |OwnedBy(paths + {p}, owner)| == |OwnedBy(paths, owner)| + if owner == p.owner then 1 else 0
  {
    assert OwnedBy(paths + {p}, owner) == if owner == p.owner then OwnedBy(paths, owner) + {p}
        else OwnedBy(paths, owner);
  }

  lemma CountOneMore(markers: nat, counts: map<OwnerId, nat>, paths: set<Path>, p: Path)
    requires CountsMatch(markers, counts, paths) && p !in paths
    ensures CountsMatch(markers + 1, CountOwner(counts, p.owner), paths + {p})
  {
    hide OwnedBy;
    forall o ensures CountOf(CountOwner(counts, p.owner), o) == |OwnedBy(paths + {p}, o)| {
      OwnedByOneMore(paths, p, o);
    }
  }

  /** Markers written no later than `cutoff`, except the busy ones. */
  ghost function Expired(files: Files, cutoff: int, busy: set<Path>): set<Path> {
    set p | p in files && files[p].Marker? && files[p].writtenAt <= cutoff && p !in busy
  }

  lemma ExpiredAt(files: Files, cutoff: int, busy: set<Path>, p: Path)
    ensures p in Expired(files, cutoff, busy) <==>
            p in files && files[p].Marker? && files[p].writtenAt <= cutoff && p !in busy
  {
  }

  /** A sweep that has visited `seen` and removed `gone`. */
  ghost predicate Sweeping(was: Files, files: Files, expired: set<Path>, seen: set<Path>, gone: set<Path>,
                           removed: nat) {
    && files == was - gone && |gone| == removed <= RECLAIM_LIMIT && gone <= expired * seen && expired <= was.Keys
    && (removed < RECLAIM_LIMIT ==> expired * seen <= gone)
  }

  lemma SweepStarts(was: Files, expired: set<Path>)
    requires expired <= was.Keys
    ensures Sweeping(was, was, expired, {}, {}, 0)
  {
    assert was - {} == was;
  }

  lemma Unswept(was: Files, files: Files, expired: set<Path>, seen: set<Path>, gone: set<Path>, removed: nat, p: Path)
    requires Sweeping(was, files, expired, seen, gone, removed) && p in was && p !in seen
    ensures p in files && files[p] == was[p]
    ensures p !in expired || removed == RECLAIM_LIMIT ==> Sweeping(was, files, expired, seen + {p}, gone, removed)
  {
  }

  lemma SweepRemoves(was: Files, files: Files, expired: set<Path>, seen: set<Path>, gone: set<Path>,
                     removed: nat, p: Path)
    requires Sweeping(was, files, expired, seen, gone, removed) && p in expired && p !in seen && removed < RECLAIM_LIMIT
    ensures Sweeping(was, files - {p}, expired, seen + {p}, gone + {p}, removed + 1)
  {
    assert was - gone - {p} == was - (gone + {p});
  }

  lemma SweepEnds(was: Files, files: Files, expired: set<Path>, seen: set<Path>, gone: set<Path>, removed: nat)
    requires Sweeping(was, files, expired, seen, gone, removed) && was.Keys <= seen
    ensures was.Keys - files.Keys == gone && files == was - gone && removed == |gone| <= RECLAIM_LIMIT
    ensures gone <= expired && (removed < RECLAIM_LIMIT ==> gone == expired)
    ensures MarkersAt(files, seen) == MarkerPaths(files)
    ensures files.Keys <= was.Keys && forall p :: p in files ==> files[p] == was[p]
  {
  }

  /** What scanning one more file does to the markers seen so far. */
  lemma SeenOneMore(files: Files, seen: set<Path>, p: Path)
    requires p in files && p !in seen
    ensures MarkersAt(files, seen + {p}) == if files[p].Marker? then MarkersAt(files, seen) + {p}
            else MarkersAt(files, seen)
    ensures p !in MarkersAt(files, seen)
    ensures MarkersAt(files - {p}, seen + {p}) == MarkersAt(files, seen)
  {
  }

  /** The next file of a sweep: an expired marker goes while fewer than 1000 have gone, other markers are counted. */
  lemma SweepMeets(was: Files, files: Files, cutoff: int, busy: set<Path>, seen: set<Path>, gone: set<Path>,
                   removed: nat, remaining: nat, counts: map<OwnerId, nat>, p: Path)
    requires Sweeping(was, files, Expired(was, cutoff, busy), seen, gone, removed) && p in was && p !in seen
    requires CountsMatch(remaining, counts, MarkersAt(files, seen))
    ensures p in files
    ensures if files[p].Marker? && removed < RECLAIM_LIMIT && files[p].writtenAt <= cutoff && p !in busy
            then
              && Sweeping(was, files - {p}, Expired(was, cutoff, busy), seen + {p}, gone + {p}, removed + 1)
              && CountsMatch(remaining, counts, MarkersAt(files - {p}, seen + {p}))
            else
              && Sweeping(was, files, Expired(was, cutoff, busy), seen + {p}, gone, removed)
              && var paths := MarkersAt(files, seen + {p});
              if files[p].Marker? then CountsMatch(remaining + 1, CountOwner(counts, p.owner), paths)
              else CountsMatch(remaining, counts, paths)
  {
    var expired := Expired(was, cutoff, busy);
    ExpiredAt(was, cutoff, busy, p);
    hide MarkersAt, CountsMatch, CountOwner, Expired;
    Unswept(was, files, expired, seen, gone, removed, p);
    SeenOneMore(files, seen, p);
    if p in expired && removed < RECLAIM_LIMIT {
      SweepRemoves(was, files, expired, seen, gone, removed, p);
    } else if files[p].Marker? {
      CountOneMore(remaining, counts, MarkersAt(files, seen), p);
    }
    hide Sweeping;
  }

  lemma CountNone(files: Files)
    ensures CountsMatch(0, map[], MarkersAt(files, {}))
  {
    assert MarkersAt(files, {}) == {};
    assert forall o :: OwnedBy({}, o) == {};
  }

  lemma NoOwnersNoPaths(paths: set<Path>)
    requires forall o :: |OwnedBy(paths, o)| == 0
    ensures paths == {}
  {
    if paths != {} {
      var p :| p in paths;
      OwnerCounted(paths, p);
    }
  }

  lemma OwnerCounted(paths: set<Path>, p: Path)
    requires p in paths
    ensures |OwnedBy(paths, p.owner)| > 0
  {
    assert p in OwnedBy(paths, p.owner);
  }

  /** The total is the sum of the per-owner counts. */
  lemma {:induction false} CountsSum(markers: nat, counts: map<OwnerId, nat>, paths: set<Path>)
    requires CountsMatch(markers, counts, paths)
    ensures Total(counts) == markers
    decreases counts.Keys
  {
    if counts == map[] {
      NoOwnersNoPaths(paths);
    } else {
      var o :| o in counts;
      var rest := paths - OwnedBy(paths, o);
      assert |paths| == |OwnedBy(paths, o)| + |rest| by { assert paths == OwnedBy(paths, o) + rest; }
      forall x ensures CountOf(counts - {o}, x) == |OwnedBy(rest, x)| {
        assert OwnedBy(rest, x) == if x == o then {} else OwnedBy(paths, x);
      }
      CountsSum(markers - counts[o], counts - {o}, rest);
      TotalRemove(counts, o);
    }
  }

  /** Slots above the limit that only owners without a marker may use. */
  function Reserve(limit: nat): nat {
    if limit / 10 > 1 then limit / 10 else 1
  }

  predicate Quota(markers: nat, counts: map<OwnerId, nat>, owner: OwnerId, limit: nat, ownerLimit: nat) {
    && CountOf(counts, owner) < ownerLimit
    && (markers < limit || (CountOf(counts, owner) == 0 && markers < limit + Reserve(limit)))
  }

  ghost predicate WithinLimits(markers: nat, counts: map<OwnerId, nat>, limit: nat, ownerLimit: nat) {
    markers <= limit + Reserve(limit) && forall o :: CountOf(counts, o) <= ownerLimit
  }

  /** An owner may mark up to its own limit while the store has room, and a first marker also from the last tenth. */
  lemma QuotaIff(markers: nat, counts: map<OwnerId, nat>, paths: set<Path>, owner: OwnerId, limit: nat, ownerLimit: nat)
    requires CountsMatch(markers, counts, paths) && limit >= 1
    ensures var owned := |set p | p in paths && p.owner == owner|;
            Quota(markers, counts, owner, limit, ownerLimit) <==>
              && owned < ownerLimit
              && (|paths| < limit || (owned == 0 && |paths| < limit + if limit < 20 then 1 else limit / 10))
  {
    assert OwnedBy(paths, owner) == set p | p in paths && p.owner == owner;
  }

  /** One admitted marker keeps the limits. */
  lemma QuotaKeepsLimits(markers: nat, counts: map<OwnerId, nat>, owner: OwnerId, limit: nat, ownerLimit: nat)
    requires WithinLimits(markers, counts, limit, ownerLimit) && Quota(markers, counts, owner, limit, ownerLimit)
    ensures WithinLimits(markers + 1, CountOwner(counts, owner), limit, ownerLimit)
  {
    forall o ensures CountOf(CountOwner(counts, owner), o) <= ownerLimit {
      assert CountOf(counts, o) <= ownerLimit;
    }
  }

  // ---------------------------------------------------------------------------------------------

  class FileStore {
    var files: Files
    var markers: nat
    var ownerMarkers: map<OwnerId, nat>
    var lastRecount: int
    const markerLimit: nat
    const ownerMarkerLimit: nat
    const markerRetention: int

    /** The counters agree with the directory. */
    ghost predicate Valid()
      reads this
    {
      markerLimit >= 1 && ownerMarkerLimit >= 1 && CountsMatch(markers, ownerMarkers, MarkerPaths(files))
    }

    ghost predicate InLimits()
      reads this
    {
      WithinLimits(markers, ownerMarkers, markerLimit, ownerMarkerLimit)
    }

    /** A directory with whatever it holds, initialised: the markers are counted by a scan. */
    constructor (existing: Files, markerLimit: nat, ownerMarkerLimit: nat, markerRetention: int)
      requires markerLimit >= 1 && ownerMarkerLimit >= 1 && markerRetention >= 3600000
      ensures Valid() && files == existing && markers == |MarkerPaths(existing)|
      ensures this.markerLimit == markerLimit && this.ownerMarkerLimit == ownerMarkerLimit
              && this.markerRetention == markerRetention
      ensures existing == map[] ==> InLimits()
    {
      files, markers, ownerMarkers, lastRecount := existing, 0, map[], 0;
      this.markerLimit, this.ownerMarkerLimit, this.markerRetention := markerLimit, ownerMarkerLimit, markerRetention;
      new;
      var counted := Inventory();
      markers := counted;
      if existing == map[] { NoMarkers(counted, ownerMarkers, existing); }
    }

    predicate MarkerQuotaAvailable(owner: OwnerId)
      reads this
    {
      Quota(markers, ownerMarkers, owner, markerLimit, ownerMarkerLimit)
    }

    /** Two attempts; `reclaimed[k]` says that a sweep removed the temporary of attempt `k` before its link. */
    method Put(i: Identity, version: Version, reclaimed: seq<bool>) returns (reply: PutReply)
      requires Valid() && |reclaimed| == 2
      modifies this`files
      ensures Valid() && unchanged(`markers) && unchanged(`ownerMarkers)
      ensures files == if reply.Stored? then old(files)[PathOf(i) := Object(i, version)] else old(files)
      ensures reply.Stored? <==> PathOf(i) !in old(files) && !(reclaimed[0] && reclaimed[1])
      ensures reply.Stored? ==> Read(files, i) == Found(version)
    {
      var attempt := 0;
      while attempt < 2
        invariant 0 <= attempt <= 2 && files == old(files)
        invariant attempt > 0 ==> reclaimed[0]
      {
        if !reclaimed[attempt] {
          if PathOf(i) in files { return AlreadyExists; }
          files := files[PathOf(i) := Object(i, version)];
          assert MarkerPaths(files) == MarkerPaths(old(files));
          return Stored;
        }
        if attempt > 0 { return TemporaryLost; }
        attempt := attempt + 1;
      }
      assert false;
    }

    /** Removes an object that reads back at this version; a missing one is not an error. */
    method Delete(i: Identity, version: Version) returns (ok: bool)
      requires Valid()
      modifies this`files
      ensures Valid()
      ensures ok <==> Read(old(files), i) in {Found(version), NotFound}
      ensures files == if Read(old(files), i) == Found(version) then old(files) - {PathOf(i)} else old(files)
    {
      var reply := Read(files, i);
      if reply.NotFound? { return true; }
      if reply != Found(version) { return false; }
      files := files - {PathOf(i)};
      assert MarkerPaths(files) == MarkerPaths(old(files));
      return true;
    }

    /** A directory scan, in whatever order the entries come. */
    method Inventory() returns (count: nat)
      modifies this`ownerMarkers
      ensures CountsMatch(count, ownerMarkers, MarkerPaths(files))
    {
      count := 0;
      var counts: map<OwnerId, nat> := map[];
      var left, seen := files.Keys, {};
      CountNone(files);
      hide MarkersAt, CountsMatch;
      while left != {}
        invariant seen !! left && seen + left == files.Keys
        invariant CountsMatch(count, counts, MarkersAt(files, seen))
        decreases left
        modifies {}
      {
        var p :| p in left;
        SeenOneMore(files, seen, p);
        if files[p].Marker? {
          CountOneMore(count, counts, MarkersAt(files, seen), p);
          count := count + 1;
          counts := CountOwner(counts, p.owner);
        }
        left, seen := left - {p}, seen + {p};
      }
      assert seen == files.Keys;
      ownerMarkers := counts;
    }

    /** Removes at most 1000 expired markers, and recounts the rest; `busy` names files another process holds open. */
    method ReclaimExpiredMarkers(now: int, busy: set<Path>) returns (removed: nat)
      requires Valid()
      modifies this`files, this`markers, this`ownerMarkers
      ensures Valid() && removed <= 1000 && (old(InLimits()) ==> InLimits())
      ensures var gone := old(files).Keys - files.Keys;
              && files == old(files) - gone && removed == |gone|
              && gone <= Expired(old(files), now - markerRetention, busy)
              && (removed < RECLAIM_LIMIT ==> gone == Expired(old(files), now - markerRetention, busy))
      ensures forall p :: p in old(files) && (p !in files || removed < 1000) ==>
                (p !in files <==>
                   old(files)[p].Marker? && old(files)[p].writtenAt + markerRetention <= now && p !in busy)
    {
      var remaining, counts;
      hide CountsMatch, WithinLimits;
      removed, remaining, counts := Sweep(now - markerRetention, busy);
      FewerMarkers(files, old(files), markers, ownerMarkers, remaining, counts);
      markers, ownerMarkers := remaining, counts;
    }

    /** The scan of the sweep: what it removed, and the counts of the markers that stay. */
    method Sweep(cutoff: int, busy: set<Path>) returns (removed: nat, remaining: nat, counts: map<OwnerId, nat>)
      modifies this`files
      ensures CountsMatch(remaining, counts, MarkerPaths(files)) && removed <= RECLAIM_LIMIT
      ensures files.Keys <= old(files).Keys && forall p :: p in files ==> files[p] == old(files)[p]
      ensures var gone, expired := old(files).Keys - files.Keys, Expired(old(files), cutoff, busy);
              files == old(files) - gone && removed == |gone| && gone <= expired
                  && (removed < RECLAIM_LIMIT ==> gone == expired)
    {
      removed, remaining, counts := 0, 0, map[];
      var was, left, seen := files, files.Keys, {};
      ghost var gone: set<Path> := {};
      ghost var expired := Expired(was, cutoff, busy);
      CountNone(files);
      SweepStarts(was, expired);
      hide MarkersAt, CountsMatch, Sweeping, CountOwner, Expired, MarkerPaths;
      while left != {}
        invariant left == was.Keys - seen
        invariant Sweeping(was, files, expired, seen, gone, removed)
        invariant CountsMatch(remaining, counts, MarkersAt(files, seen))
        decreases left
      {
        var p :| p in left;
        SweepMeets(was, files, cutoff, busy, seen, gone, removed, remaining, counts, p);
        if files[p].Marker? && removed < RECLAIM_LIMIT && files[p].writtenAt <= cutoff && p !in busy {
          files := files - {p};
          gone := gone + {p};
          removed := removed + 1;
        } else if files[p].Marker? {
          remaining := remaining + 1;
          counts := CountOwner(counts, p.owner);
        }
        left, seen := left - {p}, seen + {p};
      }
      SweepEnds(was, files, expired, seen, gone, removed);
    }

    /** Up to ten attempts; `contended[k]` says that attempt `k` runs into another process. */
    method PublishCancellation(i: Identity, now: int, contended: seq<bool>) returns (reply: PublishReply)
      requires |contended| == 10
      modifies this`files
      ensures if forall k :: 0 <= k < PUBLISH_ATTEMPTS ==> contended[k] then reply.Changed? && files == old(files)
              else (files, reply) == Published(old(files), i, now)
    {
      var attempt := 0;
      while attempt < PUBLISH_ATTEMPTS
        invariant 0 <= attempt <= PUBLISH_ATTEMPTS && files == old(files)
        invariant forall k :: 0 <= k < attempt ==> contended[k]
      {
        if !contended[attempt] {
          if PathOf(i) !in files {
            files := files[PathOf(i) := Marker(i, now)];
            return Installed;
          }
          var found := Read(files, i);
          if found.UploadCancelled? { return AlreadyMarked; }
          if !found.Found? { return Changed; }
          files := files[PathOf(i) := Marker(i, now)];
          return Installed;
        }
        attempt := attempt + 1;
      }
      return Changed;
    }

    /**
     * Publishes the cancellation marker, within the quotas. `reclaimed[k]` says that a sweep removed the temporary of
     * attempt `k`; the first time that is retried.
     */
    method CancelUpload(i: Identity, now: int, reclaimed: seq<bool>, contended: seq<bool>) returns (reply: CancelReply)
      requires Valid() && |reclaimed| == 2 && |contended| == 10
      modifies this
      ensures Valid() && (old(InLimits()) ==> InLimits())
      ensures reply.Cancelled? ==> Read(files, i).UploadCancelled?
      ensures Read(old(files), i).UploadCancelled? ==> reply.Cancelled?
      ensures reply.CancelFailed? ==>
                || Read(old(files), i).Mismatch? || (reclaimed[0] && reclaimed[1])
                || forall k :: 0 <= k < PUBLISH_ATTEMPTS ==> contended[k]
      ensures files == if Read(files, i).UploadCancelled? && !Read(old(files), i).UploadCancelled?
                       then Published(old(files), i, now).0 else old(files)
      ensures reply.QuotaReached? <==> !Read(old(files), i).UploadCancelled? && !old(MarkerQuotaAvailable(i.owner))
    {
      if Read(files, i).UploadCancelled? { return Cancelled; }
      var admitted := Admit(i.owner, now);
      if !admitted { return QuotaReached; }
      var attempt := 0;
      while attempt < 2 && reclaimed[attempt]
        invariant 0 <= attempt <= 2 && (attempt > 0 ==> reclaimed[0]) && (attempt > 1 ==> reclaimed[1])
      {
        attempt := attempt + 1;
      }
      if attempt == 2 { return CancelFailed; }
      var done := PublishCancellation(i, now, contended);
      if done.Changed? { return CancelFailed; }
      assert done.Installed?;
      hide CountsMatch, WithinLimits, Quota;
      MarkerAdded(old(files), i, now);
      if old(InLimits()) { QuotaKeepsLimits(markers, ownerMarkers, i.owner, markerLimit, ownerMarkerLimit); }
      CountOneMore(markers, ownerMarkers, MarkerPaths(old(files)), PathOf(i));
      markers := markers + 1;
      ownerMarkers := CountOwner(ownerMarkers, i.owner);
      return Cancelled;
    }

    /** The quota check; a refusal is re-derived from the directory at most every five seconds. */
    method Admit(owner: OwnerId, now: int) returns (admitted: bool)
      requires Valid()
      modifies this`markers, this`ownerMarkers, this`lastRecount
      ensures Valid() && (old(InLimits()) ==> InLimits())
      ensures admitted == old(MarkerQuotaAvailable(owner)) == MarkerQuotaAvailable(owner)
    {
      if !MarkerQuotaAvailable(owner) && now - lastRecount >= RECOUNT_INTERVAL {
        lastRecount := now;
        var counted := Inventory();
        SameCounts(counted, ownerMarkers, old(ownerMarkers), MarkerPaths(files));
        markers := counted;
      }
      admitted := MarkerQuotaAvailable(owner);
    }
  }

  lemma NoMarkers(markers: nat, counts: map<OwnerId, nat>, files: Files)
    requires files == map[] && CountsMatch(markers, counts, MarkerPaths(files))
    ensures forall limit, ownerLimit :: WithinLimits(markers, counts, limit, ownerLimit)
  {
    assert MarkerPaths(files) == {};
    assert forall o :: OwnedBy({}, o) == {};
  }

  lemma MarkerAdded(files: Files, i: Identity, now: int)
    requires !Read(files, i).UploadCancelled?
    requires Published(files, i, now).1.Installed?
    ensures PathOf(i) !in MarkerPaths(files)
    ensures MarkerPaths(Published(files, i, now).0) == MarkerPaths(files) + {PathOf(i)}
  {
  }

  /** Removing markers lowers no count below zero and raises none. */
  lemma FewerMarkers(files: Files, was: Files, markers: nat, owners: map<OwnerId, nat>, remaining: nat,
                     counts: map<OwnerId, nat>)
    requires files.Keys <= was.Keys && forall p :: p in files ==> files[p] == was[p]
    requires CountsMatch(markers, owners, MarkerPaths(was)) && CountsMatch(remaining, counts, MarkerPaths(files))
    ensures forall limit, ownerLimit :: WithinLimits(markers, owners, limit, ownerLimit) ==>
            WithinLimits(remaining, counts, limit, ownerLimit)
  {
    SmallerSet(MarkerPaths(files), MarkerPaths(was));
    forall o ensures CountOf(counts, o) <= CountOf(owners, o) {
      SmallerSet(OwnedBy(MarkerPaths(files), o), OwnedBy(MarkerPaths(was), o));
    }
  }

  lemma SameCounts(counted: nat, counts: map<OwnerId, nat>, owners: map<OwnerId, nat>, paths: set<Path>)
    requires CountsMatch(|paths|, owners, paths) && CountsMatch(counted, counts, paths)
    ensures counted == |paths| && forall o :: CountOf(counts, o) == CountOf(owners, o)
  {
  }
}
