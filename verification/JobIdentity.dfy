/**
 * Deduplication of collected jobs (packages/providers/src/normalize.ts). A disambiguated identity is
 * an injective function of the fingerprint, the source and the source's own id.
 */
module JobIdentity {
  import opened Prelude

  datatype Source = Greenhouse | Lever | Ashby | Workable | SmartRecruiters | Recruitee | Remotive | Himalayas
                  | RemoteOk | Adzuna | Jooble | JSearch | LinkedIn | Naukri | Indeed | Foundit | Cutshort
                  | OtherSource(name: string)

  datatype Fingerprint = Base(key: string) | Split(of: Fingerprint, source: Source, jobId: string)

  datatype Salary = Salary(annualMin: Option<int>, annualMax: Option<int>)

  datatype Company = Company(name: string, website: Option<string>, careersUrl: Option<string>,
                             atsPortalUrl: Option<string>, careersEmail: Option<string>)

  datatype Job = Job(id: Fingerprint, fingerprint: Fingerprint, source: Source, sourceJobId: string,
                     title: string, company: Company, isRemote: bool, employmentType: Option<string>,
                     salary: Salary, postedAt: Option<int>, description: string, hasFullDescription: bool,
                     techStack: seq<string>, yearsMin: Option<int>, yearsMax: Option<int>,
                     sourcePublisher: Option<string>, firstSeenAt: int, lastSeenAt: int)

  function Rank(source: Source): nat {
    match source
    case OtherSource(_) => 0
    case Remotive => 3
    case Himalayas => 3
    case RemoteOk => 3
    case Adzuna => 2
    case Jooble => 2
    case JSearch => 2
    case LinkedIn => 1
    case Naukri => 1
    case Indeed => 1
    case Foundit => 1
    case Cutshort => 1
    case _ => 5
  }

  predicate HasSalary(s: Salary) {
    s.annualMin.Some? || s.annualMax.Some?
  }

  /** The ranking, in hundredths: a hundredth per character of description, at most a hundred. */
  function Richness(j: Job): nat {
    (if j.hasFullDescription then 100000 else 0) + (if HasSalary(j.salary) then 20000 else 0)
    + (if |j.description| < 10000 then |j.description| else 10000) + 100 * Rank(j.source)
  }

  /** A full description outranks everything else together. */
  lemma FullDominates(a: Job, b: Job)
    requires a.hasFullDescription && !b.hasFullDescription
    ensures Richness(a) > Richness(b)
  {
    assert Rank(b.source) <= 5;
  }

  predicate Paid(j: Job) {
    j.salary.annualMin != None || j.salary.annualMax != None
  }

  function Reading(j: Job): nat {
    if |j.description| < 10000 then |j.description| else 10000
  }

  /**
   * Which of two copies wins: the one with the full description; among equals the one with a salary; among those the
   * longer description decides, up to 10000 characters, where a better source is worth a hundred characters a rank.
   */
  lemma RicherIff(a: Job, b: Job)
    ensures Richness(a) > Richness(b) <==>
            if a.hasFullDescription != b.hasFullDescription then a.hasFullDescription
            else if Paid(a) != Paid(b) then Paid(a)
            else Reading(a) + 100 * Rank(a.source) > Reading(b) + 100 * Rank(b.source)
  {
    assert Rank(a.source) <= 5 && Rank(b.source) <= 5;
  }

  /** The sources from best to worst: applicant systems, remote boards, aggregators, scraped portals, anything else. */
  lemma RankLevels(source: Source)
    ensures Rank(source) == 5 <==> source in {Greenhouse, Lever, Ashby, Workable, SmartRecruiters, Recruitee}
    ensures Rank(source) == 3 <==> source in {Remotive, Himalayas, RemoteOk}
    ensures Rank(source) == 2 <==> source in {Adzuna, Jooble, JSearch}
    ensures Rank(source) == 1 <==> source in {LinkedIn, Naukri, Indeed, Foundit, Cutshort}
    ensures Rank(source) == 0 <==> source.OtherSource?
  {
  }

  function Or<T>(a: Option<T>, b: Option<T>): Option<T> {
    if a.Some? then a else b
  }

  /** `[...new Set(s)]`. */
  function Distinct(s: seq<string>): (d: seq<string>)
    ensures forall t :: t in d <==> t in s
    decreases |s|
  {
    if s == [] then []
    else
      var d := Distinct(s[..|s| - 1]);
      assert s == s[..|s| - 1] + [s[|s| - 1]];
      if s[|s| - 1] in d then d else d + [s[|s| - 1]]
  }

  function MergeDuplicates(a: Job, b: Job): Job {
    var winner, other := if Richness(b) > Richness(a) then b else a, if Richness(b) > Richness(a) then a else b;
    winner.(company := Company(winner.company.name, Or(winner.company.website, other.company.website),
                               Or(winner.company.careersUrl, other.company.careersUrl),
                               Or(winner.company.atsPortalUrl, other.company.atsPortalUrl),
                               Or(winner.company.careersEmail, other.company.careersEmail)),
            salary := if HasSalary(winner.salary) then winner.salary else other.salary,
            postedAt := Or(winner.postedAt, other.postedAt),
            sourcePublisher := Or(winner.sourcePublisher, other.sourcePublisher),
            employmentType := Or(winner.employmentType, other.employmentType),
            isRemote := winner.isRemote || other.isRemote,
            techStack := Distinct(winner.techStack + other.techStack),
            yearsMin := Or(winner.yearsMin, other.yearsMin),
            yearsMax := Or(winner.yearsMax, other.yearsMax),
            firstSeenAt := if winner.firstSeenAt <= other.firstSeenAt then winner.firstSeenAt else other.firstSeenAt,
            lastSeenAt := if winner.lastSeenAt >= other.lastSeenAt then winner.lastSeenAt else other.lastSeenAt)
  }

  /** `reduce(mergeDuplicates)`. */
  function MergeAll(jobs: seq<Job>): Job
    requires jobs != []
    decreases |jobs|
  {
    if |jobs| == 1 then jobs[0] else MergeDuplicates(MergeAll(jobs[..|jobs| - 1]), jobs[|jobs| - 1])
  }

  function Disambiguate(j: Job): Job {
    j.(id := Split(j.fingerprint, j.source, j.sourceJobId),
       fingerprint := Split(j.fingerprint, j.source, j.sourceJobId))
  }

  // ---------------------------------------------------------------------------------------------
  // Grouping, in order of first appearance.

  function HasKey<K(==)>(key: Job -> K, k: K): Job -> bool {
    (j: Job) => key(j) == k
  }

  function Keys<K(==)>(jobs: seq<Job>, key: Job -> K): seq<K>
    decreases |jobs|
  {
    if jobs == [] then []
    else
      var init := Keys(jobs[..|jobs| - 1], key);
      if key(jobs[|jobs| - 1]) in init then init else init + [key(jobs[|jobs| - 1])]
  }

  function Groups<K(==)>(jobs: seq<Job>, key: Job -> K): seq<seq<Job>> {
    var keys := Keys(jobs, key);
    seq(|keys|, i requires 0 <= i < |keys| => Filter(jobs, HasKey(key, keys[i])))
  }

  ghost predicate Occurs<K>(jobs: seq<Job>, key: Job -> K, k: K) {
    exists j :: j in jobs && key(j) == k
  }

  lemma {:induction false} KeysAre<K>(jobs: seq<Job>, key: Job -> K)
    ensures forall k :: k in Keys(jobs, key) <==> Occurs(jobs, key, k)
    ensures forall a, b :: 0 <= a < b < |Keys(jobs, key)| ==> Keys(jobs, key)[a] != Keys(jobs, key)[b]
    decreases |jobs|
  {
    if jobs != [] {
      var front, last := jobs[..|jobs| - 1], jobs[|jobs| - 1];
      KeysAre(front, key);
      assert jobs == front + [last];
      forall k ensures Occurs(jobs, key, k) <==> Occurs(front, key, k) || k == key(last) {
        if Occurs(front, key, k) {
          var j :| j in front && key(j) == k;
          assert j in jobs;
        }
        if k == key(last) { assert last in jobs; }
      }
    }
  }

  function FingerprintOf(): Job -> Fingerprint {
    (j: Job) => j.fingerprint
  }

  /** The authoritative identity a board gives a posting. */
  function PostingOf(): Job -> (Source, string) {
    (j: Job) => (j.source, j.sourceJobId)
  }

  function MergeEach(clusters: seq<seq<Job>>): seq<Job>
    requires forall i :: 0 <= i < |clusters| ==> clusters[i] != []
  {
    seq(|clusters|, i requires 0 <= i < |clusters| => MergeAll(clusters[i]))
  }

  predicate SourceRepeats(jobs: seq<Job>) {
    exists a, b :: 0 <= a < b < |jobs| && jobs[a].source == jobs[b].source
  }

  lemma GroupsNonEmpty<K>(jobs: seq<Job>, key: Job -> K)
    ensures forall i :: 0 <= i < |Groups(jobs, key)| ==> Groups(jobs, key)[i] != []
  {
    var keys := Keys(jobs, key);
    KeysAre(jobs, key);
    forall i | 0 <= i < |keys| ensures Groups(jobs, key)[i] != [] {
      assert Occurs(jobs, key, keys[i]);
      var j :| j in jobs && key(j) == keys[i];
      FilterMembers(jobs, HasKey(key, keys[i]));
      assert j in Filter(jobs, HasKey(key, keys[i]));
    }
  }

  function Resolved(jobs: seq<Job>): seq<Job> {
    GroupsNonEmpty(jobs, PostingOf());
    var merged := MergeEach(Groups(jobs, PostingOf()));
    if |merged| <= 1 then merged
    else if !SourceRepeats(merged) then [MergeAll(merged)]
    else seq(|merged|, i requires 0 <= i < |merged| => Disambiguate(merged[i]))
  }

  function ResolveAll(groups: seq<seq<Job>>): seq<Job>
    decreases |groups|
  {
    if groups == [] then [] else ResolveAll(groups[..|groups| - 1]) + Resolved(groups[|groups| - 1])
  }

  function Dedupe(jobs: seq<Job>): seq<Job> {
    ResolveAll(Groups(jobs, FingerprintOf()))
  }

  // ---------------------------------------------------------------------------------------------
  // The loops.

  /** An insertion-ordered map from key to list. */
  method GroupBy<K(==)>(jobs: seq<Job>, key: Job -> K) returns (groups: seq<seq<Job>>)
    ensures groups == Groups(jobs, key)
  {
    var order: seq<K>, lists: map<K, seq<Job>> := [], map[];
    for i := 0 to |jobs|
      invariant order == Keys(jobs[..i], key)
      invariant forall k :: k in order <==> k in lists
      invariant forall k :: k in lists ==> lists[k] == Filter(jobs[..i], HasKey(key, k))
    {
      var job := jobs[i];
      assert jobs[..i + 1][..i] == jobs[..i];
      KeysAre(jobs[..i], key);
      if key(job) in lists {
        lists := lists[key(job) := lists[key(job)] + [job]];
      } else {
        assert !Occurs(jobs[..i], key, key(job));
        NoneWithKey(jobs[..i], key, key(job));
        order := order + [key(job)];
        lists := lists[key(job) := [job]];
      }
    }
    assert jobs[..|jobs|] == jobs;
    groups := seq(|order|, i requires 0 <= i < |order| => lists[order[i]]);
  }

  lemma {:induction false} NoneWithKey<K>(jobs: seq<Job>, key: Job -> K, k: K)
    requires !Occurs(jobs, key, k)
    ensures Filter(jobs, HasKey(key, k)) == []
    decreases |jobs|
  {
    if jobs != [] {
      assert jobs[|jobs| - 1] in jobs && forall j :: j in jobs[..|jobs| - 1] ==> j in jobs;
      NoneWithKey(jobs[..|jobs| - 1], key, k);
    }
  }

  method ResolveFingerprintGroup(jobs: seq<Job>) returns (result: seq<Job>)
    ensures result == Resolved(jobs)
  {
    var clusters := GroupBy(jobs, PostingOf());
    GroupsNonEmpty(jobs, PostingOf());
    var merged := MergeEach(clusters);
    if |merged| <= 1 { return merged; }
    var split := RepeatsSource(merged);
    if !split { return [MergeAll(merged)]; }
    return seq(|merged|, i requires 0 <= i < |merged| => Disambiguate(merged[i]));
  }

  method RepeatsSource(merged: seq<Job>) returns (split: bool)
    ensures split <==> SourceRepeats(merged)
  {
    var sourcesSeen: set<Source>;
    sourcesSeen, split := {}, false;
    for i := 0 to |merged|
      invariant forall s :: s in sourcesSeen <==> exists k :: 0 <= k < i && merged[k].source == s
      invariant split <==> SourceRepeats(merged[..i])
    {
      RepeatsOneMore(merged, i);
      if merged[i].source in sourcesSeen { split := true; }
      sourcesSeen := sourcesSeen + {merged[i].source};
    }
    assert merged[..|merged|] == merged;
  }

  lemma RepeatsOneMore(jobs: seq<Job>, i: nat)
    requires i < |jobs|
    ensures SourceRepeats(jobs[..i + 1]) <==>
            SourceRepeats(jobs[..i]) || exists k :: 0 <= k < i && jobs[k].source == jobs[i].source
  {
    var more, fewer := jobs[..i + 1], jobs[..i];
    if SourceRepeats(fewer) {
      var a, b :| 0 <= a < b < |fewer| && fewer[a].source == fewer[b].source;
      assert more[a].source == more[b].source;
    }
    if k :| 0 <= k < i && jobs[k].source == jobs[i].source {
      assert more[k].source == more[i].source;
    }
    if SourceRepeats(more) {
      var a, b :| 0 <= a < b < |more| && more[a].source == more[b].source;
      if b < i { assert fewer[a].source == fewer[b].source; } else { assert jobs[a].source == jobs[i].source; }
    }
  }

  method DedupeJobs(jobs: seq<Job>) returns (result: seq<Job>)
    ensures result == Dedupe(jobs)
  {
    var groups := GroupBy(jobs, FingerprintOf());
    result := [];
    for i := 0 to |groups|
      invariant result == ResolveAll(groups[..i])
    {
      assert groups[..i + 1][..i] == groups[..i];
      var resolved := ResolveFingerprintGroup(groups[i]);
      result := result + resolved;
    }
    assert groups[..|groups|] == groups;
  }
}
