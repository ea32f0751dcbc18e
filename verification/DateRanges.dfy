/**
 * Employment date ranges and total experience (packages/resume/src/derive.ts). Times are whole
 * milliseconds; the text is reduced to the pairs of parsed date tokens.
 */
module DateRanges {
  import opened Prelude

  datatype Range = Range(start: int, end: int)

  const DAY_MS: int := 86400000

  // ---------------------------------------------------------------------------------------------
  // Which pairs of dates count.

  datatype Token = Token(start: Option<int>, end: Option<int>)

  predicate Plausible(t: Token, now: int) {
    t.start.Some? && t.end.Some? && t.start.value <= t.end.value && 0 <= t.start.value
        && t.end.value <= now + 366 * DAY_MS
  }

  /** A pair of dates counts if both were read, in order, not before 1970 and at most 366 days ahead. */
  lemma {:induction false} RangesAre(tokens: seq<Token>, now: int, r: Range)
    ensures r in RangesOf(tokens, now) <==>
            exists i :: 0 <= i < |tokens| && tokens[i] == Token(Some(r.start), Some(r.end))
                        && 0 <= r.start <= r.end <= now + 31622400000
    decreases |tokens|
  {
    if tokens != [] {
      var n := |tokens| - 1;
      RangesAre(tokens[..n], now, r);
      assert forall i :: 0 <= i < n ==> tokens[..n][i] == tokens[i];
    }
  }

  function RangesOf(tokens: seq<Token>, now: int): seq<Range>
    decreases |tokens|
  {
    if tokens == [] then []
    else
      var t := tokens[|tokens| - 1];
      RangesOf(tokens[..|tokens| - 1], now) + (if Plausible(t, now) then [Range(t.start.value, t.end.value)] else [])
  }

  method FindDateRanges(tokens: seq<Token>, now: int) returns (ranges: seq<Range>)
    ensures ranges == RangesOf(tokens, now)
    ensures forall r :: r in ranges ==> 0 <= r.start <= r.end <= now + 366 * DAY_MS
  {
    ranges := [];
    for i := 0 to |tokens|
      invariant ranges == RangesOf(tokens[..i], now)
      invariant forall r :: r in ranges ==> 0 <= r.start <= r.end <= now + 366 * DAY_MS
    {
      assert tokens[..i + 1][..i] == tokens[..i];
      var t := tokens[i];
      if t.start.None? || t.end.None? { continue; }
      if t.end.value < t.start.value { continue; }
      if t.start.value < 0 || t.end.value > now + 366 * DAY_MS { continue; }
      ranges := ranges + [Range(t.start.value, t.end.value)];
    }
    assert tokens[..|tokens|] == tokens;
  }

  // ---------------------------------------------------------------------------------------------
  // Merging.

  predicate Proper(rs: seq<Range>) {
    forall i :: 0 <= i < |rs| ==> rs[i].start <= rs[i].end
  }

  /** A stable sort by start. */
  function Insert(r: Range, sorted: seq<Range>): seq<Range>
    decreases |sorted|
  {
    if sorted == [] || sorted[|sorted| - 1].start <= r.start then sorted + [r]
    else Insert(r, sorted[..|sorted| - 1]) + [sorted[|sorted| - 1]]
  }

  function SortByStart(rs: seq<Range>): seq<Range>
    decreases |rs|
  {
    if rs == [] then [] else Insert(rs[|rs| - 1], SortByStart(rs[..|rs| - 1]))
  }

  function Extend(out: seq<Range>, r: Range): seq<Range> {
    if out != [] && r.start <= out[|out| - 1].end
    then out[|out| - 1 := Range(out[|out| - 1].start,
                                if out[|out| - 1].end >= r.end then out[|out| - 1].end else r.end)]
    else out + [r]
  }

  function MergeSorted(sorted: seq<Range>): seq<Range>
    decreases |sorted|
  {
    if sorted == [] then [] else Extend(MergeSorted(sorted[..|sorted| - 1]), sorted[|sorted| - 1])
  }

  function Merge(rs: seq<Range>): seq<Range> {
    MergeSorted(SortByStart(rs))
  }

  method MergeRanges(ranges: seq<Range>) returns (out: seq<Range>)
    requires Proper(ranges)
    ensures out == Merge(ranges)
    ensures Separated(out) && forall x :: Covered(out, x) <==> Covered(ranges, x)
  {
    var sorted := SortByStart(ranges);
    out := [];
    for i := 0 to |sorted|
      invariant out == MergeSorted(sorted[..i])
    {
      assert sorted[..i + 1][..i] == sorted[..i];
      var range := sorted[i];
      if out != [] && range.start <= out[|out| - 1].end {
        var last := out[|out| - 1];
        out := out[|out| - 1 := last.(end := if last.end >= range.end then last.end else range.end)];
      } else {
        out := out + [Range(range.start, range.end)];
      }
    }
    assert sorted[..|sorted|] == sorted;
    MergeIsUnion(ranges);
  }

  // ---------------------------------------------------------------------------------------------
  // What it means. Positions are half milliseconds, so that touching ranges differ from ranges one apart.

  predicate Covers(r: Range, x: int) {
    2 * r.start <= x <= 2 * r.end
  }

  predicate Covered(rs: seq<Range>, x: int) {
    exists i :: 0 <= i < |rs| && Covers(rs[i], x)
  }

  /** Proper, in order, and with a gap between any two. */
  predicate Separated(rs: seq<Range>) {
    Proper(rs) && forall i, j :: 0 <= i < j < |rs| ==> rs[i].end < rs[j].start
  }

  predicate Ordered(rs: seq<Range>) {
    forall i, j :: 0 <= i < j < |rs| ==> rs[i].start <= rs[j].start
  }

  lemma CoveredAppend(rs: seq<Range>, r: Range, x: int)
    ensures Covered(rs + [r], x) <==> Covered(rs, x) || Covers(r, x)
  {
    if Covered(rs, x) {
      var i :| 0 <= i < |rs| && Covers(rs[i], x);
      assert (rs + [r])[i] == rs[i];
    }
    assert (rs + [r])[|rs|] == r;
    if Covered(rs + [r], x) {
      var i :| 0 <= i < |rs + [r]| && Covers((rs + [r])[i], x);
      assert i < |rs| ==> Covers(rs[i], x);
    }
  }

  lemma {:induction false} InsertKeeps(r: Range, sorted: seq<Range>)
    requires Ordered(sorted) && Proper(sorted) && r.start <= r.end
    ensures Ordered(Insert(r, sorted)) && Proper(Insert(r, sorted))
    ensures forall x :: Covered(Insert(r, sorted), x) <==> Covered(sorted, x) || Covers(r, x)
    ensures forall y :: y in Insert(r, sorted) ==> y == r || y in sorted
    decreases |sorted|
  {
    if sorted == [] || sorted[|sorted| - 1].start <= r.start {
      forall x { CoveredAppend(sorted, r, x); }
    } else {
      var front, last := sorted[..|sorted| - 1], sorted[|sorted| - 1];
      InsertKeeps(r, front);
      var rest := Insert(r, front);
      assert front + [last] == sorted;
      forall i | 0 <= i < |rest| ensures rest[i].start <= last.start {
        assert rest[i] in rest;
      }
      forall x ensures Covered(rest + [last], x) <==> Covered(sorted, x) || Covers(r, x) {
        CoveredAppend(rest, last, x);
        CoveredAppend(front, last, x);
      }
    }
  }

  lemma {:induction false} SortKeeps(rs: seq<Range>)
    requires Proper(rs)
    ensures Ordered(SortByStart(rs)) && Proper(SortByStart(rs))
    ensures forall x :: Covered(SortByStart(rs), x) <==> Covered(rs, x)
    decreases |rs|
  {
    if rs != [] {
      var front, last := rs[..|rs| - 1], rs[|rs| - 1];
      SortKeeps(front);
      InsertKeeps(last, SortByStart(front));
      assert front + [last] == rs;
      forall x ensures Covered(rs, x) <==> Covered(front, x) || Covers(last, x) {
        CoveredAppend(front, last, x);
      }
    }
  }

  /** Extending with a range that starts no earlier than the last one. */
  lemma ExtendKeeps(out: seq<Range>, r: Range)
    requires Separated(out) && r.start <= r.end && (out != [] ==> out[|out| - 1].start <= r.start)
    ensures Separated(Extend(out, r)) && Extend(out, r) != [] && Extend(out, r)[|Extend(out, r)| - 1].start <= r.start
    ensures forall x :: Covered(Extend(out, r), x) <==> Covered(out, x) || Covers(r, x)
  {
    if out != [] && r.start <= out[|out| - 1].end {
      var front, last := out[..|out| - 1], out[|out| - 1];
      var grown := Extend(out, r)[|out| - 1];
      assert Extend(out, r) == front + [grown] && out == front + [last];
      forall x ensures Covered(Extend(out, r), x) <==> Covered(out, x) || Covers(r, x) {
        CoveredAppend(front, grown, x);
        CoveredAppend(front, last, x);
      }
    } else {
      forall x { CoveredAppend(out, r, x); }
    }
  }

  lemma {:induction false} MergeSortedKeeps(sorted: seq<Range>)
    requires Ordered(sorted) && Proper(sorted)
    ensures Separated(MergeSorted(sorted))
    ensures sorted != [] ==>
            MergeSorted(sorted) != []
            && MergeSorted(sorted)[|MergeSorted(sorted)| - 1].start <= sorted[|sorted| - 1].start
    ensures forall x :: Covered(MergeSorted(sorted), x) <==> Covered(sorted, x)
    decreases |sorted|
  {
    if sorted != [] {
      var front, last := sorted[..|sorted| - 1], sorted[|sorted| - 1];
      assert front != [] ==> front[|front| - 1].start <= last.start;
      assert Ordered(front) && Proper(front) && last.start <= last.end && front + [last] == sorted;
      hide Covered, Covers, Separated, Ordered, Proper, Extend;
      MergeSortedKeeps(front);
      ExtendKeeps(MergeSorted(front), last);
      forall x ensures Covered(sorted, x) <==> Covered(front, x) || Covers(last, x) {
        CoveredAppend(front, last, x);
      }
    }
  }

  /** The result is in order, with gaps between the ranges, and covers exactly what the input covers. */
  lemma MergeIsUnion(rs: seq<Range>)
    requires Proper(rs)
    ensures Separated(Merge(rs))
    ensures forall x :: Covered(Merge(rs), x) <==> Covered(rs, x)
  {
    SortKeeps(rs);
    MergeSortedKeeps(SortByStart(rs));
  }

  // ---------------------------------------------------------------------------------------------
  // The result is determined by what is covered.

  lemma FirstsAgree(a: seq<Range>, b: seq<Range>)
    requires Separated(a) && Separated(b) && (forall x :: Covered(a, x) <==> Covered(b, x)) && a != []
    ensures b != [] && a[0] == b[0]
  {
    assert Covers(a[0], 2 * a[0].start);
    assert Covered(a, 2 * a[0].start);
    var i :| 0 <= i < |b| && Covers(b[i], 2 * a[0].start);
    assert Covers(b[0], 2 * b[0].start);
    assert Covered(b, 2 * b[0].start);
    var k :| 0 <= k < |a| && Covers(a[k], 2 * b[0].start);
    NoLonger(a, b);
    NoLonger(b, a);
  }

  lemma GapAfterFirst(a: seq<Range>)
    requires Separated(a) && a != []
    ensures !Covered(a, 2 * a[0].end + 1)
  {
    forall i | 0 <= i < |a| ensures !Covers(a[i], 2 * a[0].end + 1) {
      if i > 0 { assert a[0].end < a[i].start; }
    }
  }

  /** The first range of `b` ends no later than the first one of `a`. */
  lemma NoLonger(a: seq<Range>, b: seq<Range>)
    requires Separated(a) && Separated(b) && a != [] && b != [] && a[0].start == b[0].start
             && forall x :: Covered(a, x) <==> Covered(b, x)
    ensures b[0].end <= a[0].end
  {
    GapAfterFirst(a);
    assert !Covered(b, 2 * a[0].end + 1);
    assert !Covers(b[0], 2 * a[0].end + 1);
  }

  lemma TailCovers(a: seq<Range>, x: int)
    requires Separated(a) && a != []
    ensures Covered(a[1..], x) <==> Covered(a, x) && !Covers(a[0], x)
  {
    if Covered(a[1..], x) {
      var i :| 0 <= i < |a[1..]| && Covers(a[1..][i], x);
      assert a[1..][i] == a[i + 1] && a[0].end < a[i + 1].start;
    }
    if Covered(a, x) && !Covers(a[0], x) {
      var i :| 0 <= i < |a| && Covers(a[i], x);
      assert a[1..][i - 1] == a[i];
    }
  }

  /** Two separated lists that cover the same positions are equal. */
  lemma {:induction false} SeparatedIsCanonical(a: seq<Range>, b: seq<Range>)
    requires Separated(a) && Separated(b) && forall x :: Covered(a, x) <==> Covered(b, x)
    ensures a == b
    decreases |a|
  {
    if a == [] {
      if b != [] {
        assert Covers(b[0], 2 * b[0].start);
        assert Covered(b, 2 * b[0].start);
      }
    } else {
      FirstsAgree(a, b);
      forall x ensures Covered(a[1..], x) <==> Covered(b[1..], x) {
        TailCovers(a, x);
        TailCovers(b, x);
      }
      SeparatedIsCanonical(a[1..], b[1..]);
      assert a == [a[0]] + a[1..] && b == [b[0]] + b[1..];
    }
  }

  /** Inputs that cover the same positions, in particular the same ranges in another order, merge to the same list. */
  lemma MergeDependsOnUnionOnly(rs: seq<Range>, qs: seq<Range>)
    requires Proper(rs) && Proper(qs) && forall x :: Covered(rs, x) <==> Covered(qs, x)
    ensures Merge(rs) == Merge(qs)
  {
    MergeIsUnion(rs);
    MergeIsUnion(qs);
    SeparatedIsCanonical(Merge(rs), Merge(qs));
  }

  lemma OrderDoesNotMatter(rs: seq<Range>, qs: seq<Range>)
    requires Proper(rs) && Proper(qs) && forall r :: r in rs <==> r in qs
    ensures Merge(rs) == Merge(qs)
  {
    forall x ensures Covered(rs, x) <==> Covered(qs, x) {
      CoveredByElement(rs, qs, x);
      CoveredByElement(qs, rs, x);
    }
    MergeDependsOnUnionOnly(rs, qs);
  }

  lemma CoveredByElement(rs: seq<Range>, qs: seq<Range>, x: int)
    requires forall r :: r in rs ==> r in qs
    ensures Covered(rs, x) ==> Covered(qs, x)
  {
    if Covered(rs, x) {
      var i :| 0 <= i < |rs| && Covers(rs[i], x);
      assert rs[i] in qs;
      var j :| 0 <= j < |qs| && qs[j] == rs[i];
    }
  }

  /** A role inside another one, or listed twice, changes nothing. */
  lemma ContainedRangeAddsNothing(rs: seq<Range>, r: Range, k: nat)
    requires Proper(rs) && k < |rs| && rs[k].start <= r.start <= r.end <= rs[k].end
    ensures Merge(rs + [r]) == Merge(rs)
  {
    forall x ensures Covered(rs + [r], x) <==> Covered(rs, x) {
      CoveredAppend(rs, r, x);
      assert Covers(r, x) ==> Covers(rs[k], x);
    }
    MergeDependsOnUnionOnly(rs + [r], rs);
  }

  // ---------------------------------------------------------------------------------------------
  // Total length.

  function TotalLength(rs: seq<Range>): int
    decreases |rs|
  {
    if rs == [] then 0 else TotalLength(rs[..|rs| - 1]) + (rs[|rs| - 1].end - rs[|rs| - 1].start)
  }

  predicate During(r: Range, x: int) {
    r.start <= x < r.end
  }

  /** The milliseconds a range lasts. */
  function Moments(r: Range): set<int> {
    set x: int | r.start <= x < r.end && During(r, x)
  }

  function AllMoments(rs: seq<Range>): set<int>
    decreases |rs|
  {
    if rs == [] then {} else AllMoments(rs[..|rs| - 1]) + Moments(rs[|rs| - 1])
  }

  lemma {:induction false} MomentsCount(r: Range)
    requires r.start <= r.end
    ensures |Moments(r)| == r.end - r.start
    decreases r.end - r.start
  {
    if r.start < r.end {
      var shorter := Range(r.start, r.end - 1);
      MomentsCount(shorter);
      assert Moments(r) == Moments(shorter) + {r.end - 1};
    } else {
      assert Moments(r) == {};
    }
  }

  lemma {:induction false} MomentsAreCovered(rs: seq<Range>, x: int)
    ensures x in AllMoments(rs) <==> Covered(rs, 2 * x + 1)
    decreases |rs|
  {
    if rs != [] {
      var front, last := rs[..|rs| - 1], rs[|rs| - 1];
      MomentsAreCovered(front, x);
      CoveredAppend(front, last, 2 * x + 1);
      assert front + [last] == rs;
    }
  }

  lemma {:induction false} SeparatedLength(rs: seq<Range>)
    requires Separated(rs)
    ensures TotalLength(rs) == |AllMoments(rs)|
    decreases |rs|
  {
    if rs != [] {
      var front, last := rs[..|rs| - 1], rs[|rs| - 1];
      SeparatedLength(front);
      MomentsCount(last);
      forall x: int | x in AllMoments(front) ensures x !in Moments(last) {
        MomentsAreCovered(front, x);
        var i :| 0 <= i < |front| && Covers(front[i], 2 * x + 1);
        assert rs[i].end < last.start;
      }
      assert AllMoments(front) !! Moments(last);
    }
  }

  /** The summed length is the number of milliseconds in at least one range: overlaps count once. */
  lemma TotalIsMeasure(rs: seq<Range>)
    requires Proper(rs)
    ensures TotalLength(Merge(rs)) == |AllMoments(rs)|
  {
    MergeIsUnion(rs);
    SeparatedLength(Merge(rs));
    forall x ensures x in AllMoments(Merge(rs)) <==> x in AllMoments(rs) {
      MomentsAreCovered(Merge(rs), x);
      MomentsAreCovered(rs, x);
    }
    assert AllMoments(Merge(rs)) == AllMoments(rs);
  }

  // ---------------------------------------------------------------------------------------------
  // Years of experience.

  /** `Math.round(years * 10) / 10`. */
  function RoundToTenth(years: real): real {
    (years * 10.0 + 0.5).Floor as real / 10.0
  }

  /** The nearest tenth. */
  lemma RoundIsNearest(years: real)
    ensures -0.05 <= RoundToTenth(years) - years <= 0.05
    ensures RoundToTenth(years) * 10.0 == (RoundToTenth(years) * 10.0).Floor as real
  {
    var n := (years * 10.0 + 0.5).Floor;
    assert RoundToTenth(years) * 10.0 == n as real;
  }

  const YEAR_MS: real := 365.25 * 86400000.0

  method SumLengths(merged: seq<Range>) returns (total: int)
    ensures total == TotalLength(merged)
  {
    total := 0;
    for i := 0 to |merged|
      invariant total == TotalLength(merged[..i])
    {
      assert merged[..i + 1][..i] == merged[..i];
      total := total + (merged[i].end - merged[i].start);
    }
    assert merged[..|merged|] == merged;
  }

  /** `explicit` is the number of an explicit claim in the text, if there is one. */
  method DeriveYears(explicit: Option<real>, tokens: seq<Token>, now: int) returns (years: Option<real>)
    ensures explicit.Some? && 0.0 < explicit.value < 60.0 ==> years == explicit
    ensures !(explicit.Some? && 0.0 < explicit.value < 60.0) ==>
              var worked := |AllMoments(RangesOf(tokens, now))| as real / 31557600000.0;
              years == if RangesOf(tokens, now) == [] || worked <= 0.0 || worked > 60.0 then None
                  else Some(RoundToTenth(worked))
  {
    hide RangesOf, Merge, AllMoments, TotalLength, RoundToTenth;
    if explicit.Some? && explicit.value > 0.0 && explicit.value < 60.0 { return explicit; }
    var ranges := FindDateRanges(tokens, now);
    if ranges == [] { return None; }
    var merged := MergeRanges(ranges);
    var total := SumLengths(merged);
    TotalIsMeasure(ranges);
    var worked := total as real / YEAR_MS;
    if worked <= 0.0 || worked > 60.0 { return None; }
    return Some(RoundToTenth(worked));
  }
}
