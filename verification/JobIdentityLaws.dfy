/**
 * What deduplication guarantees: every posting ends in exactly one output, outputs have pairwise
 * distinct identities, each output sums up exactly its copies, the order of the input does not
 * matter for that, and doing it again changes nothing.
 */
module JobIdentityLaws {
  import opened Prelude
  import opened JobIdentity

  function Elements(jobs: seq<Job>): set<Job> {
    set j | j in jobs
  }

  /** `o` sums up the copies `s`: what some copy has, it has, and it has nothing else. */
  ghost predicate SumsUp(o: Job, s: set<Job>) {
    && (o.hasFullDescription <==> exists j :: j in s && j.hasFullDescription)
    && (HasSalary(o.salary) <==> exists j :: j in s && HasSalary(j.salary))
    && (o.isRemote <==> exists j :: j in s && j.isRemote)
    && (forall t :: t in o.techStack <==> exists j :: j in s && t in j.techStack)
    && (forall j :: j in s ==> o.firstSeenAt <= j.firstSeenAt && j.lastSeenAt <= o.lastSeenAt)
    && (exists j :: j in s && j.firstSeenAt == o.firstSeenAt)
    && (exists j :: j in s && j.lastSeenAt == o.lastSeenAt)
  }

  lemma SumsUpMerge(a: Job, sa: set<Job>, b: Job, sb: set<Job>)
    requires SumsUp(a, sa) && SumsUp(b, sb)
    ensures SumsUp(MergeDuplicates(a, b), sa + sb)
  {
    var m := MergeDuplicates(a, b);
    MergeFields(a, b);
    hide MergeDuplicates;
    SumsUpFlags(a, sa, b, sb, m);
    SumsUpSkills(a, sa, b, sb, m);
    SumsUpDates(a, sa, b, sb, m);
  }

  /** The fields of a merge, whichever copy wins. */
  lemma MergeFields(a: Job, b: Job)
    ensures var m := MergeDuplicates(a, b);
            && (m.hasFullDescription <==> a.hasFullDescription || b.hasFullDescription)
            && (HasSalary(m.salary) <==> HasSalary(a.salary) || HasSalary(b.salary))
            && (m.isRemote <==> a.isRemote || b.isRemote)
            && (forall t :: t in m.techStack <==> t in a.techStack || t in b.techStack)
            && m.firstSeenAt == (if a.firstSeenAt <= b.firstSeenAt then a.firstSeenAt else b.firstSeenAt)
            && m.lastSeenAt == (if a.lastSeenAt >= b.lastSeenAt then a.lastSeenAt else b.lastSeenAt)
            && ((m.fingerprint == a.fingerprint && m.source == a.source && m.sourceJobId == a.sourceJobId)
                || (m.fingerprint == b.fingerprint && m.source == b.source && m.sourceJobId == b.sourceJobId))
  {
    if a.hasFullDescription && !b.hasFullDescription { FullDominates(a, b); }
    if b.hasFullDescription && !a.hasFullDescription { FullDominates(b, a); }
    hide Richness, Distinct;
  }

  /**
   * The richer copy wins, the first one on a tie; what it lacks is filled in from the other, and nothing it
   * has is replaced.
   */
  lemma MergeBackfills(a: Job, b: Job)
    ensures var m := MergeDuplicates(a, b);
            var winner, other := if Richness(b) > Richness(a) then b else a, if Richness(b) > Richness(a) then a else b;
            && m.title == winner.title && m.description == winner.description && m.id == winner.id
            && m.postedAt == Or(winner.postedAt, other.postedAt)
               && m.employmentType == Or(winner.employmentType, other.employmentType)
            && (m.yearsMin.Some? <==> a.yearsMin.Some? || b.yearsMin.Some?)
               && (m.yearsMax.Some? <==> a.yearsMax.Some? || b.yearsMax.Some?)
            && (m.company.website.Some? <==> a.company.website.Some? || b.company.website.Some?)
            && (m.company.careersEmail.Some? <==> a.company.careersEmail.Some? || b.company.careersEmail.Some?)
            && (HasSalary(winner.salary) ==> m.salary == winner.salary)
               && (!HasSalary(winner.salary) ==> m.salary == other.salary)
    ensures a.hasFullDescription && !b.hasFullDescription ==> MergeDuplicates(a, b).description == a.description
    ensures b.hasFullDescription && !a.hasFullDescription ==> MergeDuplicates(a, b).description == b.description
  {
    if a.hasFullDescription && !b.hasFullDescription { FullDominates(a, b); }
    if b.hasFullDescription && !a.hasFullDescription { FullDominates(b, a); }
    hide Richness, Distinct;
  }

  lemma SumsUpFlags(a: Job, sa: set<Job>, b: Job, sb: set<Job>, m: Job)
    requires SumsUp(a, sa) && SumsUp(b, sb)
    requires m.hasFullDescription <==> a.hasFullDescription || b.hasFullDescription
    requires HasSalary(m.salary) <==> HasSalary(a.salary) || HasSalary(b.salary)
    requires m.isRemote <==> a.isRemote || b.isRemote
    ensures m.hasFullDescription <==> exists j :: j in sa + sb && j.hasFullDescription
    ensures HasSalary(m.salary) <==> exists j :: j in sa + sb && HasSalary(j.salary)
    ensures m.isRemote <==> exists j :: j in sa + sb && j.isRemote
  {
  }

  lemma SumsUpSkills(a: Job, sa: set<Job>, b: Job, sb: set<Job>, m: Job)
    requires SumsUp(a, sa) && SumsUp(b, sb) && forall t :: t in m.techStack <==> t in a.techStack || t in b.techStack
    ensures forall t :: t in m.techStack <==> exists j :: j in sa + sb && t in j.techStack
  {
    forall t ensures t in m.techStack <==> exists j :: j in sa + sb && t in j.techStack {
      if t in a.techStack {
        var j :| j in sa && t in j.techStack;
        assert j in sa + sb;
      }
      if t in b.techStack {
        var j :| j in sb && t in j.techStack;
        assert j in sa + sb;
      }
    }
  }

  lemma SumsUpDates(a: Job, sa: set<Job>, b: Job, sb: set<Job>, m: Job)
    requires SumsUp(a, sa) && SumsUp(b, sb)
    requires m.firstSeenAt == (if a.firstSeenAt <= b.firstSeenAt then a.firstSeenAt else b.firstSeenAt)
    requires m.lastSeenAt == (if a.lastSeenAt >= b.lastSeenAt then a.lastSeenAt else b.lastSeenAt)
    ensures forall j :: j in sa + sb ==> m.firstSeenAt <= j.firstSeenAt && j.lastSeenAt <= m.lastSeenAt
    ensures exists j :: j in sa + sb && j.firstSeenAt == m.firstSeenAt
    ensures exists j :: j in sa + sb && j.lastSeenAt == m.lastSeenAt
  {
    var fa, fb :| fa in sa && fa.firstSeenAt == a.firstSeenAt && fb in sb && fb.firstSeenAt == b.firstSeenAt;
    var la, lb :| la in sa && la.lastSeenAt == a.lastSeenAt && lb in sb && lb.lastSeenAt == b.lastSeenAt;
    assert fa in sa + sb && fb in sa + sb && la in sa + sb && lb in sa + sb;
  }

  function Union(sets: seq<set<Job>>): set<Job>
    decreases |sets|
  {
    if sets == [] then {} else Union(sets[..|sets| - 1]) + sets[|sets| - 1]
  }

  lemma {:induction false} UnionHas(sets: seq<set<Job>>, i: nat)
    requires i < |sets|
    ensures sets[i] <= Union(sets)
    decreases |sets|
  {
    if i < |sets| - 1 { UnionHas(sets[..|sets| - 1], i); }
  }

  lemma {:induction false} UnionOnly(sets: seq<set<Job>>, s: set<Job>)
    requires forall i :: 0 <= i < |sets| ==> sets[i] <= s
    ensures Union(sets) <= s
    decreases |sets|
  {
    if sets != [] { UnionOnly(sets[..|sets| - 1], s); }
  }

  predicate SamePlace(o: Job, j: Job) {
    o.fingerprint == j.fingerprint && o.source == j.source && o.sourceJobId == j.sourceJobId
  }

  /** The merge stands at the place of one of the jobs. */
  ghost predicate FromOne(o: Job, jobs: seq<Job>) {
    exists i :: 0 <= i < |jobs| && SamePlace(o, jobs[i])
  }

  lemma FromOneMore(jobs: seq<Job>)
    requires |jobs| > 1 && FromOne(MergeAll(jobs[..|jobs| - 1]), jobs[..|jobs| - 1])
    ensures FromOne(MergeAll(jobs), jobs)
  {
    var front, last := jobs[..|jobs| - 1], |jobs| - 1;
    MergeFields(MergeAll(front), jobs[last]);
    hide MergeDuplicates;
    var i :| 0 <= i < |front| && SamePlace(MergeAll(front), front[i]);
    assert SamePlace(MergeAll(jobs), jobs[i]) || SamePlace(MergeAll(jobs), jobs[last]);
  }

  /** Merging jobs that sum up some sets sums up their union. */
  lemma {:induction false} MergeAllSumsUp(jobs: seq<Job>, sets: seq<set<Job>>)
    requires |jobs| == |sets| > 0 && forall i :: 0 <= i < |jobs| ==> SumsUp(jobs[i], sets[i])
    ensures SumsUp(MergeAll(jobs), Union(sets)) && FromOne(MergeAll(jobs), jobs)
    decreases |jobs|
  {
    hide SumsUp, FromOne, MergeDuplicates;
    var last := |jobs| - 1;
    if last == 0 {
      assert Union(sets[..0]) == {};
      assert Union(sets) == sets[0];
      FromItself(jobs);
    } else {
      assert forall i :: 0 <= i < last ==> SumsUp(jobs[..last][i], sets[..last][i]);
      MergeAllSumsUp(jobs[..last], sets[..last]);
      SumsUpMerge(MergeAll(jobs[..last]), Union(sets[..last]), jobs[last], sets[last]);
      FromOneMore(jobs);
    }
  }

  lemma FromItself(jobs: seq<Job>)
    requires |jobs| == 1
    ensures FromOne(MergeAll(jobs), jobs)
  {
    assert SamePlace(jobs[0], jobs[0]);
  }

  lemma Alone(j: Job)
    ensures SumsUp(j, {j})
  {
  }

  /** A non-empty list of copies. */
  lemma {:induction false} ListSumsUp(jobs: seq<Job>)
    requires jobs != []
    ensures SumsUp(MergeAll(jobs), Elements(jobs)) && FromOne(MergeAll(jobs), jobs)
    decreases |jobs|
  {
    hide SumsUp, FromOne, MergeDuplicates;
    var last := |jobs| - 1;
    if last == 0 {
      Alone(jobs[0]);
      assert Elements(jobs) == {jobs[0]};
      FromItself(jobs);
    } else {
      Alone(jobs[last]);
      ListSumsUp(jobs[..last]);
      SumsUpMerge(MergeAll(jobs[..last]), Elements(jobs[..last]), jobs[last], {jobs[last]});
      assert Elements(jobs) == Elements(jobs[..last]) + {jobs[last]} by { assert jobs == jobs[..last] + [jobs[last]]; }
      FromOneMore(jobs);
    }
  }

  // ---------------------------------------------------------------------------------------------
  // One fingerprint group.

  /** Some source shows two postings. */
  ghost predicate SplitIn(s: set<Job>) {
    exists a, b :: a in s && b in s && a.source == b.source && a.sourceJobId != b.sourceJobId
  }

  ghost function IdentityIn(s: set<Job>, j: Job): Fingerprint {
    if SplitIn(s) then Split(j.fingerprint, j.source, j.sourceJobId) else j.fingerprint
  }

  ghost function CopiesIn(s: set<Job>, fp: Fingerprint): set<Job> {
    set j | j in s && IdentityIn(s, j) == fp
  }

  ghost predicate DistinctIdentities(out: seq<Job>) {
    forall a, b :: 0 <= a < b < |out| ==> out[a].fingerprint != out[b].fingerprint
  }

  /** The outputs are the identities of `s`, once each, and each sums up its copies. */
  ghost predicate Resolves(out: seq<Job>, s: set<Job>) {
    && DistinctIdentities(out)
    && (forall i :: 0 <= i < |out| ==> SumsUp(out[i], CopiesIn(s, out[i].fingerprint)))
    && (forall j :: j in s ==> exists i :: 0 <= i < |out| && out[i].fingerprint == IdentityIn(s, j))
  }

  function AtPosting(s: set<Job>, posting: (Source, string)): set<Job> {
    set j | j in s && (j.source, j.sourceJobId) == posting
  }

  function Cluster(jobs: seq<Job>, i: nat): seq<Job>
    requires i < |Keys(jobs, PostingOf())|
  {
    Groups(jobs, PostingOf())[i]
  }

  /** The clusters of a group, one per posting. */
  lemma ClusterSumsUp(jobs: seq<Job>, i: nat, f: Fingerprint)
    requires i < |Keys(jobs, PostingOf())| && forall j :: j in jobs ==> j.fingerprint == f
    ensures var posting, cluster := Keys(jobs, PostingOf())[i], Cluster(jobs, i);
            && cluster != [] && Elements(cluster) == AtPosting(Elements(jobs), posting)
            && SumsUp(MergeAll(cluster), Elements(cluster))
            && (MergeAll(cluster).source, MergeAll(cluster).sourceJobId) == posting
            && MergeAll(cluster).fingerprint == f
  {
    GroupsNonEmpty(jobs, PostingOf());
    var cluster := Cluster(jobs, i);
    FilterMembers(jobs, HasKey(PostingOf(), Keys(jobs, PostingOf())[i]));
    ListSumsUp(cluster);
    hide SumsUp, MergeAll;
    var k :| 0 <= k < |cluster| && SamePlace(MergeAll(cluster), cluster[k]);
    assert cluster[k] in cluster;
  }

  function Merged(jobs: seq<Job>): seq<Job> {
    GroupsNonEmpty(jobs, PostingOf());
    MergeEach(Groups(jobs, PostingOf()))
  }

  function Posting(j: Job): (Source, string) {
    (j.source, j.sourceJobId)
  }

  /** The merged clusters of `s`: one per posting, each summing up the copies of that posting. */
  ghost predicate Clustered(s: set<Job>, merged: seq<Job>, keys: seq<(Source, string)>, f: Fingerprint) {
    && |merged| == |keys|
    && (forall a, b :: 0 <= a < b < |keys| ==> keys[a] != keys[b])
    && (forall i :: 0 <= i < |keys| ==> SumsUp(merged[i], AtPosting(s, keys[i])))
    && (forall i :: 0 <= i < |keys| ==> Posting(merged[i]) == keys[i] && merged[i].fingerprint == f)
    && (forall j :: j in s ==> j.fingerprint == f)
  }

  /** The keys are the postings of `s`. */
  ghost predicate Covers(s: set<Job>, keys: seq<(Source, string)>) {
    && (forall j :: j in s ==> Posting(j) in keys)
    && (forall i :: 0 <= i < |keys| ==> AtPosting(s, keys[i]) != {})
  }

  lemma ClustersOf(jobs: seq<Job>, f: Fingerprint)
    requires forall j :: j in jobs ==> j.fingerprint == f
    ensures Clustered(Elements(jobs), Merged(jobs), Keys(jobs, PostingOf()), f)
            && Covers(Elements(jobs), Keys(jobs, PostingOf()))
  {
    var keys, s := Keys(jobs, PostingOf()), Elements(jobs);
    KeysAre(jobs, PostingOf());
    hide SumsUp, Keys, Elements, AtPosting;
    forall i | 0 <= i < |keys|
      ensures SumsUp(Merged(jobs)[i], AtPosting(s, keys[i])) && Posting(Merged(jobs)[i]) == keys[i]
              && Merged(jobs)[i].fingerprint == f
      ensures AtPosting(s, keys[i]) != {}
    {
      ClusterSumsUp(jobs, i, f);
      NonEmptyElements(Cluster(jobs, i));
    }
    forall j | j in s ensures Posting(j) in keys && j.fingerprint == f {
      ElementIn(jobs, j);
      assert PostingOf()(j) == Posting(j);
      assert Occurs(jobs, PostingOf(), Posting(j));
    }
  }

  /** Where a job's posting stands among the keys, and a job for every key. */
  lemma KeyOf(s: set<Job>, keys: seq<(Source, string)>, j: Job) returns (i: nat)
    requires Covers(s, keys) && j in s
    ensures i < |keys| && keys[i] == Posting(j)
  {
    i :| 0 <= i < |keys| && keys[i] == Posting(j);
  }

  lemma JobOf(s: set<Job>, keys: seq<(Source, string)>, i: nat) returns (j: Job)
    requires Covers(s, keys) && i < |keys|
    ensures j in s && Posting(j) == keys[i]
  {
    var found := AtPosting(s, keys[i]);
    assert found != {};
    j :| j in found;
  }

  lemma NonEmptyElements(jobs: seq<Job>)
    requires jobs != []
    ensures Elements(jobs) != {}
  {
    assert jobs[0] in Elements(jobs);
  }

  lemma ElementIn(jobs: seq<Job>, j: Job)
    ensures j in Elements(jobs) <==> j in jobs
  {
  }

  /** The merged clusters show a source twice exactly when some source shows two postings. */
  lemma RepeatsIffSplit(s: set<Job>, merged: seq<Job>, keys: seq<(Source, string)>, f: Fingerprint)
    requires Clustered(s, merged, keys, f) && Covers(s, keys)
    ensures SourceRepeats(merged) <==> SplitIn(s)
    ensures |merged| <= 1 ==> !SplitIn(s)
  {
    hide SumsUp, Covers, AtPosting;
    if SplitIn(s) {
      var a, b :| a in s && b in s && a.source == b.source && a.sourceJobId != b.sourceJobId;
      var x := KeyOf(s, keys, a);
      var y := KeyOf(s, keys, b);
      assert merged[x].source == merged[y].source && x != y;
    }
    if SourceRepeats(merged) {
      var x, y :| 0 <= x < y < |merged| && merged[x].source == merged[y].source;
      var a := JobOf(s, keys, x);
      var b := JobOf(s, keys, y);
      assert keys[x] != keys[y];
    }
  }

  function DisambiguateAll(merged: seq<Job>): seq<Job> {
    seq(|merged|, i requires 0 <= i < |merged| => Disambiguate(merged[i]))
  }

  lemma SplitCopies(s: set<Job>, f: Fingerprint, posting: (Source, string))
    requires SplitIn(s) && forall j :: j in s ==> j.fingerprint == f
    ensures CopiesIn(s, Split(f, posting.0, posting.1)) == AtPosting(s, posting)
  {
  }

  /** Two postings of one source: every posting keeps its own identity. */
  lemma SplitResolves(s: set<Job>, merged: seq<Job>, keys: seq<(Source, string)>, f: Fingerprint)
    requires Clustered(s, merged, keys, f) && Covers(s, keys) && SplitIn(s)
    ensures Resolves(DisambiguateAll(merged), s)
  {
    hide SumsUp, Covers, AtPosting, CopiesIn, SplitIn;
    var out := DisambiguateAll(merged);
    forall i | 0 <= i < |keys|
      ensures out[i].fingerprint == Split(f, keys[i].0, keys[i].1) && SumsUp(out[i], CopiesIn(s, out[i].fingerprint)) {
      SplitCopies(s, f, keys[i]);
      RenamedSumsUp(merged[i], AtPosting(s, keys[i]));
    }
    forall j | j in s ensures exists i :: 0 <= i < |out| && out[i].fingerprint == IdentityIn(s, j) {
      var i := KeyOf(s, keys, j);
      assert out[i].fingerprint == IdentityIn(s, j);
    }
  }

  lemma RenamedSumsUp(o: Job, s: set<Job>)
    requires SumsUp(o, s)
    ensures SumsUp(Disambiguate(o), s)
  {
  }

  /** Every source shows one posting at most: one output. */
  lemma WholeResolves(s: set<Job>, merged: seq<Job>, keys: seq<(Source, string)>, f: Fingerprint)
    requires Clustered(s, merged, keys, f) && Covers(s, keys) && !SplitIn(s) && merged != []
    ensures MergeAll(merged).fingerprint == f && Resolves([MergeAll(merged)], s)
  {
    hide SumsUp, Covers, AtPosting, CopiesIn, SplitIn;
    var sets := seq(|keys|, i requires 0 <= i < |keys| => AtPosting(s, keys[i]));
    WholeCopies(s, f);
    WholeUnion(s, keys, sets);
    MergeAllSumsUp(merged, sets);
    var one := MergeAll(merged);
    var k :| 0 <= k < |merged| && SamePlace(one, merged[k]);
    assert [one][0] == one;
  }

  lemma WholeUnion(s: set<Job>, keys: seq<(Source, string)>, sets: seq<set<Job>>)
    requires |sets| == |keys| && (forall i :: 0 <= i < |keys| ==> sets[i] == AtPosting(s, keys[i])) && Covers(s, keys)
    ensures Union(sets) == s
  {
    hide Covers;
    UnionOnly(sets, s);
    forall j | j in s ensures j in Union(sets) {
      var i := KeyOf(s, keys, j);
      UnionHas(sets, i);
      assert j in AtPosting(s, keys[i]);
    }
  }

  lemma WholeCopies(s: set<Job>, f: Fingerprint)
    requires !SplitIn(s) && forall j :: j in s ==> j.fingerprint == f
    ensures CopiesIn(s, f) == s
  {
  }

  /** A fingerprint group resolves to its identities. */
  lemma GroupResolves(jobs: seq<Job>, f: Fingerprint)
    requires jobs != [] && forall j :: j in jobs ==> j.fingerprint == f
    ensures Resolves(Resolved(jobs), Elements(jobs))
  {
    hide Clustered, Covers, Resolves, SplitIn, SourceRepeats, Elements, Keys, Merged, Resolved, MergeAll;
    ClustersOf(jobs, f);
    var s, merged, keys := Elements(jobs), Merged(jobs), Keys(jobs, PostingOf());
    SomeKey(jobs, f);
    RepeatsIffSplit(s, merged, keys, f);
    MergedIs(jobs);
    if SplitIn(s) {
      SplitResolves(s, merged, keys, f);
    } else {
      WholeResolves(s, merged, keys, f);
      OnlyOne(merged);
    }
  }

  lemma OnlyOne(merged: seq<Job>)
    ensures |merged| == 1 ==> merged == [MergeAll(merged)]
  {
  }

  lemma MergedIs(jobs: seq<Job>)
    ensures var merged := Merged(jobs);
            Resolved(jobs) == if |merged| <= 1 then merged else if !SourceRepeats(merged) then [MergeAll(merged)]
                else DisambiguateAll(merged)
  {
  }

  lemma SomeKey(jobs: seq<Job>, f: Fingerprint)
    requires jobs != [] && Clustered(Elements(jobs), Merged(jobs), Keys(jobs, PostingOf()), f)
             && Covers(Elements(jobs), Keys(jobs, PostingOf()))
    ensures Merged(jobs) != []
  {
    hide Covers, SumsUp, Merged, Keys;
    ElementIn(jobs, jobs[0]);
    var i := KeyOf(Elements(jobs), Keys(jobs, PostingOf()), jobs[0]);
  }

  // ---------------------------------------------------------------------------------------------
  // The whole list. Jobs come in with the fingerprint `normalize` computed, never a disambiguated one.

  predicate Raw(jobs: seq<Job>) {
    forall j :: j in jobs ==> j.fingerprint.Base?
  }

  function SameFingerprint(jobs: seq<Job>, f: Fingerprint): set<Job> {
    set j | j in jobs && j.fingerprint == f
  }

  /**
   * The identity under which a job is kept: its posting's own, if some source shows two postings of that
   * fingerprint.
   */
  ghost function IdentityOf(jobs: seq<Job>, j: Job): Fingerprint {
    IdentityIn(SameFingerprint(jobs, j.fingerprint), j)
  }

  ghost function Copies(jobs: seq<Job>, fp: Fingerprint): set<Job> {
    set j | j in jobs && IdentityOf(jobs, j) == fp
  }

  function Root(fp: Fingerprint): Fingerprint {
    if fp.Base? then fp else fp.of
  }

  /** The outputs of the first `n` groups. */
  ghost predicate ResolvedUpTo(out: seq<Job>, jobs: seq<Job>, n: nat) {
    var keys := Keys(jobs, FingerprintOf());
    && n <= |keys|
    && DistinctIdentities(out)
    && (forall i :: 0 <= i < |out| ==> SumsUp(out[i], Copies(jobs, out[i].fingerprint)))
    && (forall i :: 0 <= i < |out| ==> Root(out[i].fingerprint) in keys[..n])
    && (forall j :: j in jobs && j.fingerprint in keys[..n] ==>
          exists i :: 0 <= i < |out| && out[i].fingerprint == IdentityOf(jobs, j))
  }

  lemma GroupElements(jobs: seq<Job>, i: nat)
    requires i < |Keys(jobs, FingerprintOf())|
    ensures var f, group := Keys(jobs, FingerprintOf())[i], Groups(jobs, FingerprintOf())[i];
            group != [] && Elements(group) == SameFingerprint(jobs, f) && forall j :: j in group ==> j.fingerprint == f
  {
    GroupsNonEmpty(jobs, FingerprintOf());
    FilterMembers(jobs, HasKey(FingerprintOf(), Keys(jobs, FingerprintOf())[i]));
  }

  /** Within one group, identities and copies are those of the whole list. */
  lemma CopiesOfGroup(jobs: seq<Job>, f: Fingerprint, fp: Fingerprint)
    requires Raw(jobs) && f.Base? && Root(fp) == f
    ensures CopiesIn(SameFingerprint(jobs, f), fp) == Copies(jobs, fp)
  {
    hide SplitIn;
  }

  lemma IdentityRoot(s: set<Job>, j: Job, f: Fingerprint)
    requires j.fingerprint == f && f.Base?
    ensures Root(IdentityIn(s, j)) == f
  {
  }

  /** What one group adds. */
  lemma GroupAdds(jobs: seq<Job>, i: nat) returns (f: Fingerprint)
    requires Raw(jobs) && i < |Keys(jobs, FingerprintOf())|
    ensures f == Keys(jobs, FingerprintOf())[i] && f.Base?
    ensures var out := Resolved(Groups(jobs, FingerprintOf())[i]);
            && DistinctIdentities(out)
            && (forall k :: 0 <= k < |out| ==>
                    Root(out[k].fingerprint) == f && SumsUp(out[k], Copies(jobs, out[k].fingerprint)))
            && (forall j :: j in jobs && j.fingerprint == f ==>
                  exists k :: 0 <= k < |out| && out[k].fingerprint == IdentityOf(jobs, j))
  {
    f := Keys(jobs, FingerprintOf())[i];
    var group := Groups(jobs, FingerprintOf())[i];
    var out, s := Resolved(group), SameFingerprint(jobs, f);
    GroupElements(jobs, i);
    assert group[0] in Elements(group);
    GroupResolves(group, f);
    hide Keys, Groups, Resolved, SumsUp, SplitIn;
    forall k | 0 <= k < |out|
      ensures Root(out[k].fingerprint) == f && SumsUp(out[k], Copies(jobs, out[k].fingerprint)) {
      var j := SomeCopy(out[k], s);
      IdentityRoot(s, j, f);
      CopiesOfGroup(jobs, f, out[k].fingerprint);
    }
    hide CopiesIn, IdentityIn;
    forall j | j in jobs && j.fingerprint == f
      ensures exists k :: 0 <= k < |out| && out[k].fingerprint == IdentityOf(jobs, j) {
      assert j in s;
    }
  }

  lemma SomeCopy(o: Job, s: set<Job>) returns (j: Job)
    requires SumsUp(o, CopiesIn(s, o.fingerprint))
    ensures j in s && IdentityIn(s, j) == o.fingerprint
  {
    j :| j in CopiesIn(s, o.fingerprint) && j.firstSeenAt == o.firstSeenAt;
  }

  lemma MoreGroups(out: seq<Job>, more: seq<Job>, jobs: seq<Job>, n: nat, f: Fingerprint)
    requires ResolvedUpTo(out, jobs, n) && n < |Keys(jobs, FingerprintOf())| && f == Keys(jobs, FingerprintOf())[n]
             && f !in Keys(jobs, FingerprintOf())[..n]
    requires DistinctIdentities(more)
    requires forall k :: 0 <= k < |more| ==>
             Root(more[k].fingerprint) == f && SumsUp(more[k], Copies(jobs, more[k].fingerprint))
    requires forall j :: j in jobs && j.fingerprint == f ==>
             exists k :: 0 <= k < |more| && more[k].fingerprint == IdentityOf(jobs, j)
    ensures ResolvedUpTo(out + more, jobs, n + 1)
  {
    hide Keys, SumsUp, Copies, IdentityOf;
    var keys, all := Keys(jobs, FingerprintOf()), out + more;
    assert keys[..n + 1] == keys[..n] + [f];
    forall i | 0 <= i < |all|
      ensures SumsUp(all[i], Copies(jobs, all[i].fingerprint)) && Root(all[i].fingerprint) in keys[..n + 1] {
      if i >= |out| { assert all[i] == more[i - |out|]; }
    }
    forall a, b | 0 <= a < b < |all| ensures all[a].fingerprint != all[b].fingerprint {
      if a < |out| <= b { assert all[b] == more[b - |out|] && Root(all[a].fingerprint) in keys[..n]; }
      if a >= |out| { assert all[a] == more[a - |out|] && all[b] == more[b - |out|]; }
    }
    forall j | j in jobs && j.fingerprint in keys[..n + 1]
      ensures exists i :: 0 <= i < |all| && all[i].fingerprint == IdentityOf(jobs, j) {
      if j.fingerprint == f {
        var k :| 0 <= k < |more| && more[k].fingerprint == IdentityOf(jobs, j);
        assert all[|out| + k] == more[k];
      } else {
        var k :| 0 <= k < |out| && out[k].fingerprint == IdentityOf(jobs, j);
        assert all[k] == out[k];
      }
    }
  }

  lemma {:induction false} GroupsResolve(jobs: seq<Job>, n: nat)
    requires Raw(jobs) && n <= |Keys(jobs, FingerprintOf())|
    ensures ResolvedUpTo(ResolveAll(Groups(jobs, FingerprintOf())[..n]), jobs, n)
  {
    var groups, keys := Groups(jobs, FingerprintOf()), Keys(jobs, FingerprintOf());
    KeysAre(jobs, FingerprintOf());
    assert |groups| == |keys|;
    hide Keys, Groups, ResolvedUpTo, Resolved, SumsUp, Copies, IdentityOf;
    if n == 0 {
      NothingResolved(jobs);
      assert groups[..0] == [];
    } else {
      GroupsResolve(jobs, n - 1);
      var f := GroupAdds(jobs, n - 1);
      MoreGroups(ResolveAll(groups[..n - 1]), Resolved(groups[n - 1]), jobs, n - 1, f);
      assert groups[..n][..n - 1] == groups[..n - 1];
    }
  }

  lemma NothingResolved(jobs: seq<Job>)
    ensures ResolvedUpTo([], jobs, 0)
  {
  }

  /**
   * Every input is kept under exactly one identity: outputs have pairwise distinct identities, each
   * input's identity is there, and each output sums up exactly the inputs with its identity.
   */
  lemma DedupePartitions(jobs: seq<Job>)
    requires Raw(jobs)
    ensures var out := Dedupe(jobs);
            && DistinctIdentities(out)
            && (forall i :: 0 <= i < |out| ==> SumsUp(out[i], Copies(jobs, out[i].fingerprint)))
            && (forall j :: j in jobs ==> exists i :: 0 <= i < |out| && out[i].fingerprint == IdentityOf(jobs, j))
  {
    var keys, groups := Keys(jobs, FingerprintOf()), Groups(jobs, FingerprintOf());
    GroupsResolve(jobs, |keys|);
    KeysAre(jobs, FingerprintOf());
    assert groups[..|keys|] == groups && keys[..|keys|] == keys;
    hide Keys, Groups, ResolveAll, SumsUp, Copies, IdentityOf;
    forall j | j in jobs ensures j.fingerprint in keys {
      assert FingerprintOf()(j) == j.fingerprint;
      assert Occurs(jobs, FingerprintOf(), j.fingerprint);
    }
  }

  lemma SumOfIdentity(jobs: seq<Job>, x: Job)
    requires Raw(jobs) && x in Dedupe(jobs)
    ensures SumsUp(x, Copies(jobs, x.fingerprint))
  {
    DedupePartitions(jobs);
    hide Dedupe, Copies, SumsUp;
    var i :| 0 <= i < |Dedupe(jobs)| && Dedupe(jobs)[i] == x;
  }

  /** The order of the input does not matter for what an output sums up. */
  lemma OrderDoesNotMatter(a: seq<Job>, b: seq<Job>, x: Job, y: Job)
    requires Raw(a) && Raw(b) && Elements(a) == Elements(b)
    requires x in Dedupe(a) && y in Dedupe(b) && x.fingerprint == y.fingerprint
    ensures x.hasFullDescription == y.hasFullDescription && HasSalary(x.salary) == HasSalary(y.salary)
            && x.isRemote == y.isRemote
    ensures (forall t :: t in x.techStack <==> t in y.techStack) && x.firstSeenAt == y.firstSeenAt
            && x.lastSeenAt == y.lastSeenAt
  {
    SumOfIdentity(a, x);
    SumOfIdentity(b, y);
    SameCopies(a, b, x.fingerprint);
    hide *;
    SameSummary(x, y, Copies(a, x.fingerprint));
  }

  lemma SameSummary(x: Job, y: Job, s: set<Job>)
    requires SumsUp(x, s) && SumsUp(y, s)
    ensures x.hasFullDescription == y.hasFullDescription && HasSalary(x.salary) == HasSalary(y.salary)
            && x.isRemote == y.isRemote
    ensures (forall t :: t in x.techStack <==> t in y.techStack) && x.firstSeenAt == y.firstSeenAt
            && x.lastSeenAt == y.lastSeenAt
  {
  }

  lemma SameCopies(a: seq<Job>, b: seq<Job>, fp: Fingerprint)
    requires Elements(a) == Elements(b)
    ensures Copies(a, fp) == Copies(b, fp)
  {
    forall j ensures j in a <==> j in b {
      ElementIn(a, j);
      ElementIn(b, j);
    }
    assert forall f :: SameFingerprint(a, f) == SameFingerprint(b, f);
  }

  // ---------------------------------------------------------------------------------------------
  // Doing it again.

  lemma {:induction false} SingletonKeys(jobs: seq<Job>)
    requires DistinctIdentities(jobs)
    ensures Keys(jobs, FingerprintOf()) == seq(|jobs|, i requires 0 <= i < |jobs| => jobs[i].fingerprint)
    decreases |jobs|
  {
    if jobs != [] {
      var front := jobs[..|jobs| - 1];
      SingletonKeys(front);
    }
  }

  lemma {:induction false} SingletonFilter(jobs: seq<Job>, i: nat)
    requires DistinctIdentities(jobs) && i < |jobs|
    ensures Filter(jobs, HasKey(FingerprintOf(), jobs[i].fingerprint)) == [jobs[i]]
    decreases |jobs|
  {
    var front, last := jobs[..|jobs| - 1], |jobs| - 1;
    if i < last {
      SingletonFilter(front, i);
    } else {
      forall j | j in front ensures j.fingerprint != jobs[i].fingerprint {
        var k :| 0 <= k < |front| && front[k] == j;
        assert jobs[k].fingerprint != jobs[i].fingerprint;
      }
      NoneWithKey(front, FingerprintOf(), jobs[i].fingerprint);
    }
  }

  lemma {:induction false} AloneResolves(j: Job)
    ensures Resolved([j]) == [j]
  {
    assert [j][..0] == [];
    assert Keys([j], PostingOf()) == [Posting(j)];
    assert Filter([j], HasKey(PostingOf(), Posting(j))) == [j] by {
      assert Filter([], HasKey(PostingOf(), Posting(j))) == [];
    }
    assert Groups([j], PostingOf()) == [[j]];
  }

  function Singletons(jobs: seq<Job>): seq<seq<Job>> {
    seq(|jobs|, i requires 0 <= i < |jobs| => [jobs[i]])
  }

  lemma {:induction false} ResolveSingletons(jobs: seq<Job>)
    ensures ResolveAll(Singletons(jobs)) == jobs
    decreases |jobs|
  {
    hide Resolved;
    if jobs != [] {
      var last := |jobs| - 1;
      assert Singletons(jobs)[..last] == Singletons(jobs[..last]);
      ResolveSingletons(jobs[..last]);
      AloneResolves(jobs[last]);
      assert Singletons(jobs)[last] == [jobs[last]];
    }
  }

  /** Jobs with distinct identities are left exactly as they are. */
  lemma DistinctJobsStay(jobs: seq<Job>)
    requires DistinctIdentities(jobs)
    ensures Dedupe(jobs) == jobs
  {
    SingletonKeys(jobs);
    forall i | 0 <= i < |jobs| ensures Groups(jobs, FingerprintOf())[i] == [jobs[i]] {
      SingletonFilter(jobs, i);
    }
    assert Groups(jobs, FingerprintOf()) == Singletons(jobs);
    ResolveSingletons(jobs);
  }

  /** Deduplicating the result changes nothing. */
  lemma DedupeIsIdempotent(jobs: seq<Job>)
    requires Raw(jobs)
    ensures Dedupe(Dedupe(jobs)) == Dedupe(jobs)
  {
    DedupePartitions(jobs);
    hide Dedupe;
    DistinctJobsStay(Dedupe(jobs));
  }
}
