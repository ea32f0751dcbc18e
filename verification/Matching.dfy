/**
 * Scoring of one job against one candidate (packages/matching/src/dimensions.ts and score.ts), over
 * exact reals. The skill taxonomy (rarity, family) and the normal form of a skill name are parameters.
 */
module Matching {
  import opened Prelude

  type Skill = string
  type Family = string

  datatype Demand = Demand(skill: Skill, weight: real)

  /** What the taxonomy file provides; `credit` is the partial credit for an adjacent skill. */
  datatype Taxonomy = Taxonomy(rarity: Skill -> real, family: Skill -> Option<Family>, normal: Skill -> Skill,
                               credit: real)

  datatype Candidate = Candidate(skills: seq<Skill>, recentSkills: seq<Skill>)

  const RECENT_CREDIT: real := 1.0
  const HELD_CREDIT: real := 0.9
  const RELATED_RECENT_CREDIT: real := 0.5

  function Clamp01(x: real): (r: real)
    ensures 0.0 <= r <= 1.0 && (0.0 <= x <= 1.0 ==> r == x)
  {
    if x < 0.0 then 0.0 else if x > 1.0 then 1.0 else x
  }

  // ---------------------------------------------------------------------------------------------
  // Skills.

  predicate Names(t: Taxonomy, skills: seq<Skill>, skill: Skill) {
    exists s :: s in skills && t.normal(s) == t.normal(skill)
  }

  /** The first listed skill of a family. */
  function Relative(t: Taxonomy, skills: seq<Skill>, family: Family): Option<Skill>
    decreases |skills|
  {
    if skills == [] then None
    else
      var earlier := Relative(t, skills[..|skills| - 1], family);
      if earlier.Some? then earlier
      else if t.family(skills[|skills| - 1]) == Some(family) then Some(skills[|skills| - 1]) else None
  }

  /** Graded credit for one demanded skill: held, related through a family, or neither. */
  function Credit(t: Taxonomy, c: Candidate, skill: Skill): real {
    if Names(t, c.skills, skill) then
      if c.recentSkills == [] || Names(t, c.recentSkills, skill) then RECENT_CREDIT else HELD_CREDIT
    else if t.family(skill).None? then 0.0
    else
      var relative := Relative(t, c.skills, t.family(skill).value);
      if relative.None? then 0.0 else RelatedCredit(t, c.recentSkills, relative.value)
  }

  function RelatedCredit(t: Taxonomy, recent: seq<Skill>, relative: Skill): real {
    if Names(t, recent, relative) then RELATED_RECENT_CREDIT else t.credit
  }

  function Ask(t: Taxonomy, d: Demand): real {
    d.weight * t.rarity(d.skill)
  }

  function Possible(t: Taxonomy, demands: seq<Demand>): real
    decreases |demands|
  {
    if demands == [] then 0.0 else Possible(t, demands[..|demands| - 1]) + Ask(t, demands[|demands| - 1])
  }

  function Scaled(ask: real, credit: real): real {
    ask * credit
  }

  function Gain(t: Taxonomy, d: Demand, c: Candidate): real {
    Scaled(Ask(t, d), Credit(t, c, d.skill))
  }

  function Earned(t: Taxonomy, demands: seq<Demand>, c: Candidate): real
    decreases |demands|
  {
    if demands == [] then 0.0 else Earned(t, demands[..|demands| - 1], c) + Gain(t, demands[|demands| - 1], c)
  }

  function SkillsScore(t: Taxonomy, demands: seq<Demand>, c: Candidate): real {
    if Possible(t, demands) == 0.0 then 0.5 else Clamp01(Earned(t, demands, c) / Possible(t, demands))
  }

  function Demanded(t: Taxonomy, demands: seq<Demand>, c: Candidate, held: bool): seq<Skill>
    decreases |demands|
  {
    if demands == [] then []
    else
      var d := demands[|demands| - 1];
      Demanded(t, demands[..|demands| - 1], c, held) + (if Names(t, c.skills, d.skill) == held then [d.skill] else [])
  }

  method ScoreSkills(t: Taxonomy, demands: seq<Demand>, c: Candidate)
    returns (score: real, matched: seq<Skill>, missing: seq<Skill>)
    ensures score == SkillsScore(t, demands, c)
    ensures Possible(t, demands) == 0.0 ==> matched == [] && missing == []
    ensures Possible(t, demands) != 0.0 ==>
            matched == Demanded(t, demands, c, true) && missing == Demanded(t, demands, c, false)
  {
    var held := set s | s in c.skills :: t.normal(s);
    var recent := set s | s in c.recentSkills :: t.normal(s);
    var recencyKnown := c.recentSkills != [];
    var heldFamilies := FirstOfFamilies(t, c.skills);
    matched, missing := [], [];
    var earned, possible := 0.0, 0.0;
    NoDemands(t, c);
    hide Ask, Relative, Names, Earned, Possible, Demanded;
    for i := 0 to |demands|
      invariant possible == Possible(t, demands[..i]) && earned == Earned(t, demands[..i], c)
      invariant matched == Demanded(t, demands[..i], c, true) && missing == Demanded(t, demands[..i], c, false)
    {
      OneMoreDemand(t, demands, c, i);
      var skill, ask := demands[i].skill, Ask(t, demands[i]);
      possible := possible + ask;
      NamesIs(t, c.skills, skill, held);
      NamesIs(t, c.recentSkills, skill, recent);
      if t.normal(skill) in held {
        var credit := if !recencyKnown || t.normal(skill) in recent then RECENT_CREDIT else HELD_CREDIT;
        earned := earned + ask * credit;
        matched := matched + [skill];
        continue;
      }
      var family := t.family(skill);
      if family.Some? && family.value in heldFamilies {
        var relative := heldFamilies[family.value];
        NamesIs(t, c.recentSkills, relative, recent);
        var credit := if t.normal(relative) in recent then RELATED_RECENT_CREDIT else t.credit;
        earned := earned + ask * credit;
        missing := missing + [skill];
        continue;
      }
      missing := missing + [skill];
    }
    assert demands[..|demands|] == demands;
    if possible == 0.0 { return 0.5, [], []; }
    score := Clamp01(earned / possible);
  }

  lemma NoDemands(t: Taxonomy, c: Candidate)
    ensures Possible(t, []) == 0.0 && Earned(t, [], c) == 0.0 && Demanded(t, [], c, true) == []
            && Demanded(t, [], c, false) == []
  {
  }

  lemma OneMoreDemand(t: Taxonomy, demands: seq<Demand>, c: Candidate, i: nat)
    requires i < |demands|
    ensures var d, ask := demands[i], Ask(t, demands[i]);
            && Possible(t, demands[..i + 1]) == Possible(t, demands[..i]) + ask
            && Earned(t, demands[..i + 1], c) == Earned(t, demands[..i], c) + ask * Credit(t, c, d.skill)
            && (Credit(t, c, d.skill) == 0.0 ==> Earned(t, demands[..i + 1], c) == Earned(t, demands[..i], c))
            && forall held :: Demanded(t, demands[..i + 1], c, held)
                 == Demanded(t, demands[..i], c, held) + (if Names(t, c.skills, d.skill) == held then [d.skill] else [])
  {
    assert demands[..i + 1][..i] == demands[..i];
    hide Ask, Credit, Names;
  }

  lemma NamesIs(t: Taxonomy, skills: seq<Skill>, skill: Skill, normals: set<Skill>)
    requires normals == set s | s in skills :: t.normal(s)
    ensures Names(t, skills, skill) <==> t.normal(skill) in normals
  {
  }

  method FirstOfFamilies(t: Taxonomy, skills: seq<Skill>) returns (first: map<Family, Skill>)
    ensures forall f ::
            (f in first <==> Relative(t, skills, f).Some?)
            && (f in first ==> Relative(t, skills, f) == Some(first[f]))
  {
    first := map[];
    for i := 0 to |skills|
      invariant forall f ::
                (f in first <==> Relative(t, skills[..i], f).Some?)
                && (f in first ==> Relative(t, skills[..i], f) == Some(first[f]))
    {
      assert skills[..i + 1][..i] == skills[..i];
      var family := t.family(skills[i]);
      if family.Some? && family.value !in first {
        first := first[family.value := skills[i]];
      }
    }
    assert skills[..|skills|] == skills;
  }

  predicate SameSkill(t: Taxonomy, a: Skill, b: Skill) {
    t.normal(a) == t.normal(b)
  }

  predicate Listed(t: Taxonomy, skills: seq<Skill>, skill: Skill) {
    exists i :: 0 <= i < |skills| && SameSkill(t, skills[i], skill)
  }

  /** Position `i` is the first one of the family. */
  predicate FirstOf(t: Taxonomy, skills: seq<Skill>, i: nat, family: Option<Family>) {
    && i < |skills| && family.Some? && t.family(skills[i]) == family
    && forall k :: 0 <= k < i ==> t.family(skills[k]) != family
  }

  /**
   * What a skill is worth: 1 if the candidate names it and used it lately, or no dates are known; 0.9 if it was used
   * earlier; otherwise 0.5 or the adjacent credit for the first skill of its family, and nothing without one.
   */
  lemma CreditLadder(t: Taxonomy, c: Candidate, skill: Skill)
    ensures Listed(t, c.skills, skill) ==>
              Credit(t, c, skill) == if c.recentSkills != [] && !Listed(t, c.recentSkills, skill) then 0.9 else 1.0
    ensures !Listed(t, c.skills, skill) ==>
              forall i: nat :: FirstOf(t, c.skills, i, t.family(skill)) ==>
                Credit(t, c, skill) == if Listed(t, c.recentSkills, c.skills[i]) then 0.5 else t.credit
    ensures !Listed(t, c.skills, skill) && (forall i: nat :: !FirstOf(t, c.skills, i, t.family(skill))) ==>
              Credit(t, c, skill) == 0.0
  {
    NamesListed(t, c.skills, skill);
    NamesListed(t, c.recentSkills, skill);
    if t.family(skill).Some? {
      RelativeIsFirst(t, c.skills, t.family(skill).value);
      var relative := Relative(t, c.skills, t.family(skill).value);
      if relative.Some? { NamesListed(t, c.recentSkills, relative.value); }
    }
    hide Names, Relative, Listed;
  }

  lemma NamesListed(t: Taxonomy, skills: seq<Skill>, skill: Skill)
    ensures Names(t, skills, skill) <==> Listed(t, skills, skill)
  {
    if s :| s in skills && t.normal(s) == t.normal(skill) {
      var i :| 0 <= i < |skills| && skills[i] == s;
      assert SameSkill(t, skills[i], skill);
    }
  }

  lemma {:induction false} RelativeIsFirst(t: Taxonomy, skills: seq<Skill>, family: Family)
    ensures Relative(t, skills, family).None? ==> forall i: nat :: !FirstOf(t, skills, i, Some(family))
    ensures Relative(t, skills, family).Some? ==> exists i: nat :: FirstOf(t, skills, i, Some(family))
    ensures forall i: nat :: FirstOf(t, skills, i, Some(family)) ==> Relative(t, skills, family) == Some(skills[i])
    decreases |skills|
  {
    if skills != [] {
      var n := |skills| - 1;
      var front := skills[..n];
      RelativeIsFirst(t, front, family);
      forall i: nat | i < n ensures FirstOf(t, skills, i, Some(family)) <==> FirstOf(t, front, i, Some(family)) {
        assert forall k :: 0 <= k <= i ==> front[k] == skills[k];
      }
      if i: nat :| FirstOf(t, front, i, Some(family)) {
        assert FirstOf(t, skills, i, Some(family));
      } else {
        forall k: nat | k < n ensures t.family(skills[k]) != Some(family) { NoneBefore(t, front, family, k); }
      }
      assert Relative(t, front, family).None? && t.family(skills[n]) == Some(family) ==>
          FirstOf(t, skills, n, Some(family));
    }
  }

  /** Without a first one of a family there is none. */
  lemma {:induction false} NoneBefore(t: Taxonomy, skills: seq<Skill>, family: Family, k: nat)
    requires k < |skills| && forall i: nat :: !FirstOf(t, skills, i, Some(family))
    ensures t.family(skills[k]) != Some(family)
    decreases k
  {
    forall j | 0 <= j < k ensures t.family(skills[j]) != Some(family) { NoneBefore(t, skills, family, j); }
    assert !FirstOf(t, skills, k, Some(family));
  }

  function SkillsOf(demands: seq<Demand>): seq<Skill> {
    if demands == [] then [] else SkillsOf(demands[..|demands| - 1]) + [demands[|demands| - 1].skill]
  }

  /** Matched are the demands the candidate names, missing all others; together they are the demands. */
  lemma {:induction false} DemandsSplit(t: Taxonomy, demands: seq<Demand>, c: Candidate)
    ensures forall skill :: skill in Demanded(t, demands, c, true) ==> Listed(t, c.skills, skill)
    ensures forall skill :: skill in Demanded(t, demands, c, false) ==> !Listed(t, c.skills, skill)
    ensures multiset(Demanded(t, demands, c, true)) + multiset(Demanded(t, demands, c, false)) ==
            multiset(SkillsOf(demands))
    decreases |demands|
  {
    if demands != [] {
      var n := |demands| - 1;
      DemandsSplit(t, demands[..n], c);
      NamesListed(t, c.skills, demands[n].skill);
      hide Names, Listed;
    }
  }

  /** Two demands count by how firmly they are asked times how rare they are. */
  lemma TwoDemands(t: Taxonomy, c: Candidate, a: Demand, b: Demand)
    requires a.weight * t.rarity(a.skill) >= 0.0 && b.weight * t.rarity(b.skill) > 0.0
    requires 0.0 <= Credit(t, c, a.skill) <= 1.0 && 0.0 <= Credit(t, c, b.skill) <= 1.0
    ensures var x, y := a.weight * t.rarity(a.skill), b.weight * t.rarity(b.skill);
            SkillsScore(t, [a, b], c) * (x + y) == x * Credit(t, c, a.skill) + y * Credit(t, c, b.skill)
  {
    var x, y, p, q := Ask(t, a), Ask(t, b), Credit(t, c, a.skill), Credit(t, c, b.skill);
    Mean(x, p, y, q);
    assert [a, b][..1] == [a] && [a][..0] == [];
    hide Credit, Ask;
    assert Possible(t, [a]) == x && Earned(t, [a], c) == Scaled(x, p);
    assert Possible(t, [a, b]) == x + y && Earned(t, [a, b], c) == Scaled(x, p) + Scaled(y, q);
    hide Possible, Earned;
  }

  lemma Mean(x: real, p: real, y: real, q: real)
    requires x >= 0.0 && y > 0.0 && 0.0 <= p <= 1.0 && 0.0 <= q <= 1.0
    ensures 0.0 <= (Scaled(x, p) + Scaled(y, q)) / (x + y) <= 1.0
    ensures (Scaled(x, p) + Scaled(y, q)) / (x + y) * (x + y) == Scaled(x, p) + Scaled(y, q)
  {
    Portion(x, p);
    Portion(y, q);
    hide Scaled;
    DivBounds(Scaled(x, p) + Scaled(y, q), x + y);
  }

  lemma Portion(x: real, p: real)
    requires x >= 0.0 && 0.0 <= p <= 1.0
    ensures 0.0 <= Scaled(x, p) <= x
  {
    assert x * p <= x * 1.0;
  }

  /** A listing with no weighted demand scores a neutral half. */
  lemma NeutralWithoutDemands(t: Taxonomy, c: Candidate)
    ensures SkillsScore(t, [], c) == 0.5
  {
  }

  // ---------------------------------------------------------------------------------------------
  // Title.

  datatype Title = Title(tokens: set<string>, families: set<string>)

  function Jaccard(a: set<string>, b: set<string>): real {
    if a == {} || b == {} then 0.0 else |a * b| as real / (|a| + |b| - |a * b|) as real
  }

  lemma JaccardBounded(a: set<string>, b: set<string>)
    ensures a != {} && b != {} ==> |a| + |b| - |a * b| > 0
    ensures 0.0 <= Jaccard(a, b) <= 1.0
    ensures Jaccard(a, b) == Jaccard(b, a)
  {
    SmallerSet(a * b, a);
    SmallerSet(a * b, b);
    assert a * b == b * a;
    if a != {} && b != {} {
      var n, d := |a * b| as real, (|a| + |b| - |a * b|) as real;
      assert 0.0 <= n <= d && d > 0.0;
      DivBounds(n, d);
    }
  }

  lemma DivBounds(n: real, d: real)
    requires 0.0 <= n <= d && d > 0.0
    ensures 0.0 <= n / d <= 1.0
  {
  }

  function Closeness(job: Title, target: Title): real {
    var overlap := Jaccard(job.tokens, target.tokens);
    if job.families * target.families != {} then 0.6 + 0.4 * overlap else overlap
  }

  /** Token overlap is 1 for the same tokens, 0 for none in common, and counts common tokens among all of them. */
  lemma JaccardMeans(a: set<string>, b: set<string>)
    ensures Jaccard(a, b) == 0.0 <==> a !! b
    ensures Jaccard(a, b) == 1.0 <==> a == b && a != {}
    ensures a + b != {} ==> Jaccard(a, b) * |a + b| as real == |a * b| as real
  {
    Sizes(a, b);
    assert a !! b <==> a * b == {};
    if a != {} && b != {} {
      if |a * b| == |a + b| { SameSize(a * b, a + b); }
      Quotient(|a * b|, |a + b|);
    } else {
      assert a * b == {};
    }
  }

  lemma Sizes(a: set<string>, b: set<string>)
    ensures |a + b| == |a| + |b| - |a * b| && |a * b| <= |a + b|
    ensures a != {} ==> |a + b| > 0
  {
    assert a + b == a + (b - a) && b == a * b + (b - a);
    SmallerSet(a * b, a + b);
    SmallerSet(a, a + b);
  }

  lemma Quotient(n: nat, d: nat)
    requires d > 0
    ensures var q := n as real / d as real;
            q * d as real == n as real && (q == 0.0 <==> n == 0) && (q == 1.0 <==> n == d)
  {
  }

  lemma SameSize(a: set<string>, b: set<string>)
    requires a <= b && |a| == |b|
    ensures a == b
  {
    assert b == a + (b - a);
    assert |b - a| == 0;
  }

  /** Titles of one family are at least 0.6 close, and fully so with the same tokens; otherwise only tokens count. */
  lemma ClosenessMeans(job: Title, target: Title)
    ensures job.families !! target.families ==> Closeness(job, target) == Jaccard(job.tokens, target.tokens)
    ensures !(job.families !! target.families) ==>
              && Closeness(job, target) >= 0.6 && Closeness(job, target) >= Jaccard(job.tokens, target.tokens)
              && (Closeness(job, target) == 0.6 <==> job.tokens !! target.tokens)
              && (Closeness(job, target) == 1.0 <==> job.tokens == target.tokens && job.tokens != {})
  {
    JaccardBounded(job.tokens, target.tokens);
    JaccardMeans(job.tokens, target.tokens);
    hide Jaccard;
    if f :| f in job.families && f in target.families {
      assert f in job.families * target.families;
    } else {
      assert job.families * target.families == {};
    }
  }

  /** The best match over the targets; neutral without any. */
  method ScoreTitle(job: Title, targets: seq<Title>) returns (score: real)
    ensures targets == [] ==> score == 0.5
    ensures targets != [] ==> (exists k :: 0 <= k < |targets| && score == Closeness(job, targets[k]))
    ensures forall k :: 0 <= k < |targets| ==> Closeness(job, targets[k]) <= score
    ensures 0.0 <= score <= 1.0
  {
    if targets == [] { return 0.5; }
    var best := 0.0;
    ghost var attained := -1;
    for i := 0 to |targets|
      invariant forall k :: 0 <= k < i ==> Closeness(job, targets[k]) <= best
      invariant 0.0 <= best <= 1.0
      invariant if attained < 0 then best == 0.0 else attained < i && best == Closeness(job, targets[attained])
    {
      JaccardBounded(job.tokens, targets[i].tokens);
      var score := Closeness(job, targets[i]);
      if score > best {
        best := score;
        attained := i;
      }
    }
    JaccardBounded(job.tokens, targets[0].tokens);
    assert attained < 0 ==> Closeness(job, targets[0]) == 0.0;
    score := Clamp01(best);
  }

  // ---------------------------------------------------------------------------------------------
  // The whole score. The other scorers enter through the numbers they hand to the clamp.

  datatype Dimension = SkillsDim | TitleDim | SeniorityDim | ExperienceDim | LocationDim | CompensationDim | RecencyDim

  const DIMENSIONS: seq<Dimension> :=
      [SkillsDim, TitleDim, SeniorityDim, ExperienceDim, LocationDim, CompensationDim, RecencyDim]

  function Weight(d: Dimension): real {
    match d
    case SkillsDim => 0.4
    case TitleDim => 0.15
    case SeniorityDim => 0.12
    case ExperienceDim => 0.1
    case LocationDim => 0.1
    case CompensationDim => 0.08
    case RecencyDim => 0.05
  }

  const CEILING: real := 0.8

  function Round4(x: real): real {
    (Clamp01(x) * 10000.0 + 0.5).Floor as real / 10000.0
  }

  function WeightUpTo(n: nat): real
    requires n <= 7
  {
    if n == 0 then 0.0 else WeightUpTo(n - 1) + Weight(DIMENSIONS[n - 1])
  }

  function TotalUpTo(scores: Dimension -> real, n: nat): real
    requires n <= 7
  {
    if n == 0 then 0.0 else TotalUpTo(scores, n - 1) + scores(DIMENSIONS[n - 1]) * Weight(DIMENSIONS[n - 1])
  }

  method Combine(scores: Dimension -> real) returns (r: real)
    ensures r == Round4(TotalUpTo(scores, 7))
  {
    var total, weight := 0.0, 0.0;
    for i := 0 to 7
      invariant total == TotalUpTo(scores, i) && weight == WeightUpTo(i)
    {
      total := total + scores(DIMENSIONS[i]) * Weight(DIMENSIONS[i]);
      weight := weight + Weight(DIMENSIONS[i]);
    }
    WeightsSumToOne();
    r := if weight == 0.0 then 0.0 else Round4(total / weight);
  }

  lemma WeightsSumToOne()
    ensures WeightUpTo(7) == 1.0
  {
    assert WeightUpTo(1) == 0.4;
    assert WeightUpTo(2) == 0.55;
    assert WeightUpTo(3) == 0.67;
    assert WeightUpTo(4) == 0.77;
    assert WeightUpTo(5) == 0.87;
    assert WeightUpTo(6) == 0.95;
  }

  function Ceiling(score: real, high: bool): real {
    if !high && score > CEILING then CEILING else score
  }

  /** `gated` listings score zero; `readable` descriptions give high confidence. */
  function FinalScore(t: Taxonomy, demands: seq<Demand>, c: Candidate, others: Dimension -> real, gated: bool,
                      readable: bool): real {
    if gated then 0.0 else Ceiling(Round4(TotalUpTo(AllScores(t, demands, c, others), 7)), readable)
  }

  function AllScores(t: Taxonomy, demands: seq<Demand>, c: Candidate, others: Dimension -> real): Dimension -> real {
    (d: Dimension) => if d.SkillsDim? then SkillsScore(t, demands, c) else Clamp01(others(d))
  }

  method ScoreJob(t: Taxonomy, demands: seq<Demand>, c: Candidate, others: Dimension -> real, gated: bool,
                  readable: bool) returns (score: real)
    ensures score == FinalScore(t, demands, c, others, gated, readable)
    ensures 0.0 <= score <= 1.0 && (!readable ==> score <= 0.8)
  {
    FinalScoreBounded(t, demands, c, others, gated, readable);
    if gated { return 0.0; }
    var skills, matched, missing := ScoreSkills(t, demands, c);
    assert forall d: Dimension :: AllScores(t, demands, c, others)(d) == if d.SkillsDim? then skills
        else Clamp01(others(d));
    var heuristic := Combine(AllScores(t, demands, c, others));
    score := Ceiling(heuristic, readable);
  }

  // ---------------------------------------------------------------------------------------------
  // Bounds.

  lemma RoundBounds(x: real)
    ensures 0.0 <= Round4(x) <= 1.0
  {
    var n := (Clamp01(x) * 10000.0 + 0.5).Floor;
    assert 0 <= n <= 10000;
  }

  lemma RoundMonotone(x: real, y: real)
    requires x <= y
    ensures Round4(x) <= Round4(y)
  {
    assert Clamp01(x) <= Clamp01(y);
  }

  /** Always between zero and one, and at most 0.8 when the description was not readable. */
  lemma FinalScoreBounded(t: Taxonomy, demands: seq<Demand>, c: Candidate, others: Dimension -> real,
                          gated: bool, readable: bool)
    ensures var score := FinalScore(t, demands, c, others, gated, readable);
            0.0 <= score <= 1.0 && (!readable ==> score <= 0.8) && (gated ==> score == 0.0)
  {
    RoundBounds(TotalUpTo(AllScores(t, demands, c, others), 7));
  }

  /** The score of a job that is perfect in one dimension and worthless in all others: what the dimension can add. */
  lemma OneDimension(d: Dimension)
    ensures var total := TotalUpTo(e => if e == d then 1.0 else 0.0, 7);
            match d
            case SkillsDim => total == 0.4
            case TitleDim => total == 0.15
            case SeniorityDim => total == 0.12
            case ExperienceDim => total == 0.1
            case LocationDim => total == 0.1
            case CompensationDim => total == 0.08
            case RecencyDim => total == 0.05
  {
    var scores := e => if e == d then 1.0 else 0.0;
    assert TotalUpTo(scores, 1) == scores(SkillsDim) * Weight(SkillsDim);
    assert TotalUpTo(scores, 2) == TotalUpTo(scores, 1) + scores(TitleDim) * Weight(TitleDim);
    assert TotalUpTo(scores, 3) == TotalUpTo(scores, 2) + scores(SeniorityDim) * Weight(SeniorityDim);
    assert TotalUpTo(scores, 4) == TotalUpTo(scores, 3) + scores(ExperienceDim) * Weight(ExperienceDim);
    assert TotalUpTo(scores, 5) == TotalUpTo(scores, 4) + scores(LocationDim) * Weight(LocationDim);
    assert TotalUpTo(scores, 6) == TotalUpTo(scores, 5) + scores(CompensationDim) * Weight(CompensationDim);
  }

  /** Rounding moves a score by at most half of a ten-thousandth. */
  lemma RoundIsClose(x: real)
    ensures -0.00005 <= Round4(x) - Clamp01(x) <= 0.00005
  {
  }

  /** An unread description caps the score and changes nothing else. */
  lemma UnreadIsCapped(t: Taxonomy, demands: seq<Demand>, c: Candidate, others: Dimension -> real, gated: bool)
    ensures var score := FinalScore(t, demands, c, others, gated, true);
            FinalScore(t, demands, c, others, gated, false) == if score < 0.8 then score else 0.8
  {
    hide AllScores;
  }

  // ---------------------------------------------------------------------------------------------
  // When one more skill hurts.

  /** What the taxonomy and the demand extraction guarantee. */
  ghost predicate Sensible(t: Taxonomy, demands: seq<Demand>) {
    SensibleTaxonomy(t) && forall i :: 0 <= i < |demands| ==> demands[i].weight >= 0.0
  }

  ghost predicate SensibleTaxonomy(t: Taxonomy) {
    (forall s :: t.rarity(s) >= 0.0) && 0.0 <= t.credit <= HELD_CREDIT
  }

  function Inserted(a: seq<Skill>, added: Skill, b: seq<Skill>): seq<Skill> {
    a + [added] + b
  }

  /**
   * Listed between `a` and `b`, the added skill takes the place of a better relative: nobody names the demanded
   * skill, the added one is the first of its family, and the one it displaces earns more.
   */
  predicate Displaces(t: Taxonomy, a: seq<Skill>, added: Skill, b: seq<Skill>, recent: seq<Skill>, skill: Skill) {
    && !Names(t, Inserted(a, added, b), skill)
    && t.family(skill).Some? && t.family(added) == t.family(skill)
    && var f := t.family(skill).value;
       && Relative(t, a, f).None? && Relative(t, b, f).Some?
       && RelatedCredit(t, recent, added) < RelatedCredit(t, recent, Relative(t, b, f).value)
  }

  lemma {:induction false} RelativeConcat(t: Taxonomy, a: seq<Skill>, b: seq<Skill>, f: Family)
    ensures Relative(t, a + b, f) == if Relative(t, a, f).Some? then Relative(t, a, f) else Relative(t, b, f)
    decreases |b|
  {
    if b == [] {
      assert a + b == a;
    } else {
      RelativeConcat(t, a, b[..|b| - 1], f);
      assert (a + b)[..|a + b| - 1] == a + b[..|b| - 1];
    }
  }

  lemma RelativeInserted(t: Taxonomy, a: seq<Skill>, added: Skill, b: seq<Skill>, f: Family)
    ensures Relative(t, Inserted(a, added, b), f) ==
              if Relative(t, a, f).Some? then Relative(t, a, f) else if t.family(added) == Some(f) then Some(added)
              else Relative(t, b, f)
  {
    RelativeConcat(t, a + [added], b, f);
    RelativeConcat(t, a, [added], f);
    assert [added][..0] == [];
  }

  lemma NamesInserted(t: Taxonomy, a: seq<Skill>, added: Skill, b: seq<Skill>, skill: Skill)
    ensures Names(t, Inserted(a, added, b), skill) <==> Names(t, a + b, skill) || t.normal(added) == t.normal(skill)
  {
    assert forall s :: s in Inserted(a, added, b) <==> s in a + b || s == added;
  }

  /** One more skill lowers the credit of a demand exactly when it displaces a better relative. */
  lemma CreditDropsIff(t: Taxonomy, a: seq<Skill>, added: Skill, b: seq<Skill>, recent: seq<Skill>, skill: Skill)
    requires 0.0 <= t.credit <= HELD_CREDIT
    ensures Credit(t, Candidate(Inserted(a, added, b), recent), skill) < Credit(t, Candidate(a + b, recent), skill)
       <==> Displaces(t, a, added, b, recent, skill)
    ensures 0.0 <= Credit(t, Candidate(a + b, recent), skill) <= 1.0
    ensures 0.0 <= Credit(t, Candidate(Inserted(a, added, b), recent), skill) <= 1.0
  {
    NamesInserted(t, a, added, b, skill);
    if t.family(skill).Some? {
      RelativeConcat(t, a, b, t.family(skill).value);
      RelativeInserted(t, a, added, b, t.family(skill).value);
    }
    hide Names, Relative, Inserted;
  }

  /** Appending a skill never lowers a credit: there is nothing behind it to displace. */
  lemma CreditGrows(t: Taxonomy, c: Candidate, added: Skill, skill: Skill)
    requires 0.0 <= t.credit <= HELD_CREDIT
    ensures 0.0 <= Credit(t, c, skill) <= Credit(t, c.(skills := c.skills + [added]), skill) <= 1.0
  {
    CreditDropsIff(t, c.skills, added, [], c.recentSkills, skill);
    assert c.skills + [] == c.skills && Inserted(c.skills, added, []) == c.skills + [added];
  }

  lemma MulLe(a: real, x: real, y: real)
    requires a >= 0.0 && x <= y
    ensures a * x <= a * y
  {
  }

  /** No demand that counts is displaced. */
  predicate Harmless(t: Taxonomy, demands: seq<Demand>, a: seq<Skill>, added: Skill, b: seq<Skill>,
                     recent: seq<Skill>) {
    forall i :: 0 <= i < |demands| && Ask(t, demands[i]) != 0.0 ==> !Displaces(t, a, added, b, recent, demands[i].skill)
  }

  lemma AskNonNegative(t: Taxonomy, d: Demand)
    requires d.weight >= 0.0 && t.rarity(d.skill) >= 0.0
    ensures Ask(t, d) >= 0.0
  {
    MulLe(d.weight, 0.0, t.rarity(d.skill));
  }

  /** The credit of a demand that is not displaced. */
  lemma CreditKept(t: Taxonomy, d: Demand, a: seq<Skill>, added: Skill, b: seq<Skill>, recent: seq<Skill>)
    requires SensibleTaxonomy(t)
    ensures var x, y := Credit(t, Candidate(a + b, recent), d.skill),
            Credit(t, Candidate(Inserted(a, added, b), recent), d.skill);
            0.0 <= x <= 1.0 && 0.0 <= y <= 1.0 && (!Displaces(t, a, added, b, recent, d.skill) ==> x <= y)
  {
    CreditDropsIff(t, a, added, b, recent, d.skill);
    hide Credit, Displaces;
  }

  /** One demanded skill, with more credit or without weight. */
  lemma GainGrows(t: Taxonomy, d: Demand, a: seq<Skill>, added: Skill, b: seq<Skill>, recent: seq<Skill>)
    requires SensibleTaxonomy(t) && d.weight >= 0.0
             && (Ask(t, d) != 0.0 ==> !Displaces(t, a, added, b, recent, d.skill))
    ensures 0.0 <= Gain(t, d, Candidate(a + b, recent)) <= Gain(t, d, Candidate(Inserted(a, added, b), recent)) <=
            Ask(t, d)
  {
    AskNonNegative(t, d);
    CreditKept(t, d, a, added, b, recent);
    hide Ask, Credit, Displaces, Scaled;
    Products(Ask(t, d), Credit(t, Candidate(a + b, recent), d.skill),
             Credit(t, Candidate(Inserted(a, added, b), recent), d.skill));
  }

  lemma Products(ask: real, x: real, y: real)
    requires ask >= 0.0 && 0.0 <= x <= 1.0 && 0.0 <= y <= 1.0 && (ask != 0.0 ==> x <= y)
    ensures 0.0 <= Scaled(ask, x) <= Scaled(ask, y) <= ask
  {
    ScaledEnds(ask, x);
    ScaledEnds(ask, y);
    if ask != 0.0 { ScaledLe(ask, x, y); }
    hide Scaled;
  }

  lemma ScaledLe(ask: real, x: real, y: real)
    requires ask >= 0.0 && x <= y
    ensures Scaled(ask, x) <= Scaled(ask, y)
  {
    MulLe(ask, x, y);
  }

  lemma ScaledEnds(ask: real, x: real)
    requires ask >= 0.0 && 0.0 <= x <= 1.0
    ensures 0.0 <= Scaled(ask, x) <= ask && (ask == 0.0 ==> Scaled(ask, x) == 0.0)
  {
    MulLe(ask, 0.0, x);
    MulLe(ask, x, 1.0);
  }

  lemma Unfolded(t: Taxonomy, demands: seq<Demand>, c: Candidate)
    requires demands != []
    ensures var front, last := demands[..|demands| - 1], demands[|demands| - 1];
            Earned(t, demands, c) == Earned(t, front, c) + Gain(t, last, c)
                && Possible(t, demands) == Possible(t, front) + Ask(t, last)
  {
  }

  lemma {:induction false} EarnedGrows(t: Taxonomy, demands: seq<Demand>, a: seq<Skill>, added: Skill,
                                       b: seq<Skill>, recent: seq<Skill>)
    requires Sensible(t, demands) && Harmless(t, demands, a, added, b, recent)
    ensures 0.0 <= Earned(t, demands, Candidate(a + b, recent)) <=
            Earned(t, demands, Candidate(Inserted(a, added, b), recent)) <= Possible(t, demands)
    decreases |demands|
  {
    if demands != [] {
      var front, last := demands[..|demands| - 1], demands[|demands| - 1];
      assert demands[|demands| - 1] == last;
      EarnedGrows(t, front, a, added, b, recent);
      GainGrows(t, last, a, added, b, recent);
      Unfolded(t, demands, Candidate(a + b, recent));
      Unfolded(t, demands, Candidate(Inserted(a, added, b), recent));
      hide *;
    }
  }

  lemma DivLe(a: real, b: real, d: real)
    requires 0.0 <= a <= b <= d && d > 0.0
    ensures 0.0 <= a / d <= b / d <= 1.0
  {
    DivBounds(b, d);
    assert b / d - a / d == (b - a) / d;
  }

  /** The skills dimension does not drop unless some demand that counts is displaced. */
  lemma SkillsScoreKept(t: Taxonomy, demands: seq<Demand>, a: seq<Skill>, added: Skill, b: seq<Skill>,
                        recent: seq<Skill>)
    requires Sensible(t, demands) && Harmless(t, demands, a, added, b, recent)
    ensures 0.0 <= SkillsScore(t, demands, Candidate(a + b, recent)) <=
            SkillsScore(t, demands, Candidate(Inserted(a, added, b), recent)) <= 1.0
  {
    EarnedGrows(t, demands, a, added, b, recent);
    hide Earned, Possible;
    if Possible(t, demands) != 0.0 {
      DivLe(Earned(t, demands, Candidate(a + b, recent)), Earned(t, demands, Candidate(Inserted(a, added, b), recent)),
            Possible(t, demands));
    }
  }

  lemma {:induction false} TotalGrows(a: Dimension -> real, b: Dimension -> real, n: nat)
    requires n <= 7 && forall d :: a(d) <= b(d)
    ensures TotalUpTo(a, n) <= TotalUpTo(b, n)
  {
    if n > 0 {
      TotalGrows(a, b, n - 1);
      var d := DIMENSIONS[n - 1];
      MulLe(Weight(d), a(d), b(d));
    }
  }

  /** Nor does the final, rounded and capped score. */
  lemma FinalScoreKept(t: Taxonomy, demands: seq<Demand>, a: seq<Skill>, added: Skill, b: seq<Skill>,
                       recent: seq<Skill>, others: Dimension -> real, gated: bool, readable: bool)
    requires Sensible(t, demands) && Harmless(t, demands, a, added, b, recent)
    ensures FinalScore(t, demands, Candidate(a + b, recent), others, gated, readable)
         <= FinalScore(t, demands, Candidate(Inserted(a, added, b), recent), others, gated, readable)
  {
    SkillsScoreKept(t, demands, a, added, b, recent);
    var x, y := AllScores(t, demands, Candidate(a + b, recent), others),
        AllScores(t, demands, Candidate(Inserted(a, added, b), recent), others);
    assert forall d :: x(d) <= y(d);
    TotalGrows(x, y, 7);
    RoundMonotone(TotalUpTo(x, 7), TotalUpTo(y, 7));
  }

  lemma AppendedIsInserted(t: Taxonomy, demands: seq<Demand>, skills: seq<Skill>, added: Skill, recent: seq<Skill>)
    ensures skills + [] == skills && Inserted(skills, added, []) == skills + [added]
            && Harmless(t, demands, skills, added, [], recent)
  {
  }

  /** Appending a skill to the candidate never lowers the skills dimension. */
  lemma SkillsScoreGrows(t: Taxonomy, demands: seq<Demand>, c: Candidate, added: Skill)
    requires Sensible(t, demands)
    ensures 0.0 <= SkillsScore(t, demands, c) <= SkillsScore(t, demands, c.(skills := c.skills + [added])) <= 1.0
  {
    AppendedIsInserted(t, demands, c.skills, added, c.recentSkills);
    SkillsScoreKept(t, demands, c.skills, added, [], c.recentSkills);
  }

  /** Nor the final score. */
  lemma FinalScoreGrows(t: Taxonomy, demands: seq<Demand>, c: Candidate, added: Skill,
                        others: Dimension -> real, gated: bool, readable: bool)
    requires Sensible(t, demands)
    ensures FinalScore(t, demands, c, others, gated, readable)
         <= FinalScore(t, demands, c.(skills := c.skills + [added]), others, gated, readable)
  {
    AppendedIsInserted(t, demands, c.skills, added, c.recentSkills);
    FinalScoreKept(t, demands, c.skills, added, [], c.recentSkills, others, gated, readable);
  }

  /** A listing that asks for one skill scores its credit. */
  lemma OneDemand(t: Taxonomy, c: Candidate, skill: Skill)
    requires t.rarity(skill) > 0.0 && 0.0 <= t.credit <= HELD_CREDIT
    ensures SkillsScore(t, [Demand(skill, 1.0)], c) == Credit(t, c, skill)
  {
    var d, credit := Demand(skill, 1.0), Credit(t, c, skill);
    var ask := Ask(t, d);
    Unfolded(t, [d], c);
    assert [d][..0] == [];
    assert Possible(t, [d]) == ask && Earned(t, [d], c) == ask * credit;
    CreditDropsIff(t, c.skills, skill, [], c.recentSkills, skill);
    assert c.skills + [] == c.skills;
    assert ask * credit / ask == credit;
  }

  /**
   * Adding a skill at this place can lower the skills dimension of some listing if and only if it displaces a
   * better relative of a skill that has any weight.
   */
  lemma SomeScoreDropsIff(t: Taxonomy, a: seq<Skill>, added: Skill, b: seq<Skill>, recent: seq<Skill>)
    requires SensibleTaxonomy(t)
    ensures (exists demands: seq<Demand> :: Sensible(t, demands)
               && SkillsScore(t, demands, Candidate(Inserted(a, added, b), recent)) <
                  SkillsScore(t, demands, Candidate(a + b, recent)))
       <==> exists skill :: t.rarity(skill) > 0.0 && Displaces(t, a, added, b, recent, skill)
  {
    if skill :| t.rarity(skill) > 0.0 && Displaces(t, a, added, b, recent, skill) {
      var demands := [Demand(skill, 1.0)];
      CreditDropsIff(t, a, added, b, recent, skill);
      OneDemand(t, Candidate(a + b, recent), skill);
      OneDemand(t, Candidate(Inserted(a, added, b), recent), skill);
      assert Sensible(t, demands);
    } else {
      hide Displaces, SkillsScore;
      forall demands: seq<Demand> | Sensible(t, demands)
        ensures SkillsScore(t, demands, Candidate(Inserted(a, added, b), recent)) >=
                SkillsScore(t, demands, Candidate(a + b, recent))
      {
        forall i | 0 <= i < |demands| && Ask(t, demands[i]) != 0.0
          ensures !Displaces(t, a, added, b, recent, demands[i].skill) {
          assert t.rarity(demands[i].skill) > 0.0;
        }
        SkillsScoreKept(t, demands, a, added, b, recent);
      }
    }
  }

  /** Two scores of the skills dimension can be told apart after rounding, next to some rest. */
  lemma RoundSplits(x: real, y: real) returns (rest: real)
    requires 0.0 <= y < x <= 1.0
    ensures 0.0 < rest <= 0.15 && 0.4 * x + rest <= 0.8
    ensures Round4(0.4 * y + rest) < Round4(0.4 * x + rest)
  {
    var n := (x * 4000.0).Floor + 1;
    rest := (n as real + 0.5) / 10000.0 - 0.4 * x;
    assert 0.0 <= x * 4000.0 < n as real <= x * 4000.0 + 1.0;
    var low, high := 0.4 * y + rest, 0.4 * x + rest;
    assert high * 10000.0 + 0.5 == n as real + 1.0;
    assert 0.0 <= low < high <= 1.0;
    assert (low * 10000.0 + 0.5).Floor < n + 1 == (high * 10000.0 + 0.5).Floor;
  }

  /** The skills, and a title score of `rest / 0.15`, alone. */
  function OnlyTitle(rest: real): Dimension -> real {
    (d: Dimension) => if d.TitleDim? then rest / 0.15 else 0.0
  }

  lemma OthersShow(t: Taxonomy, demands: seq<Demand>, c: Candidate, rest: real)
    requires 0.0 <= rest <= 0.15 && 0.4 * SkillsScore(t, demands, c) + rest <= 0.8
    ensures FinalScore(t, demands, c, OnlyTitle(rest), false, true) == Round4(0.4 * SkillsScore(t, demands, c) + rest)
  {
    var scores := AllScores(t, demands, c, OnlyTitle(rest));
    assert 0.0 <= rest / 0.15 <= 1.0 && rest / 0.15 * 0.15 == rest;
    var title := OnlyTitle(rest);
    assert title(TitleDim) == rest / 0.15 && title(SeniorityDim) == title(ExperienceDim) == title(LocationDim) == 0.0;
    assert title(CompensationDim) == title(RecencyDim) == 0.0;
    assert scores(SkillsDim) == SkillsScore(t, demands, c) && scores(TitleDim) == rest / 0.15;
    assert scores(SeniorityDim) == scores(ExperienceDim) == scores(LocationDim) == 0.0;
    assert scores(CompensationDim) == scores(RecencyDim) == 0.0;
    hide AllScores, SkillsScore, OnlyTitle;
    assert TotalUpTo(scores, 1) == scores(SkillsDim) * 0.4;
    assert TotalUpTo(scores, 2) == TotalUpTo(scores, 1) + rest;
    assert TotalUpTo(scores, 3) == TotalUpTo(scores, 2);
    assert TotalUpTo(scores, 4) == TotalUpTo(scores, 3);
    assert TotalUpTo(scores, 5) == TotalUpTo(scores, 4);
    assert TotalUpTo(scores, 6) == TotalUpTo(scores, 5);
    assert TotalUpTo(scores, 7) == TotalUpTo(scores, 6);
  }

  /** A drop of the skills dimension shows in the final score of some listing. */
  lemma DropShows(t: Taxonomy, demands: seq<Demand>, more: Candidate, c: Candidate) returns (others: Dimension -> real)
    requires SkillsScore(t, demands, more) < SkillsScore(t, demands, c)
    ensures FinalScore(t, demands, more, others, false, true) < FinalScore(t, demands, c, others, false, true)
  {
    var x, y := SkillsScore(t, demands, c), SkillsScore(t, demands, more);
    var rest := RoundSplits(x, y);
    OthersShow(t, demands, c, rest);
    OthersShow(t, demands, more, rest);
    hide *;
    others := OnlyTitle(rest);
  }

  /** The final score of the candidate without and with the added skill. */
  predicate FinalDrops(t: Taxonomy, demands: seq<Demand>, a: seq<Skill>, added: Skill, b: seq<Skill>,
                       recent: seq<Skill>, others: Dimension -> real, gated: bool, readable: bool)
  {
    FinalScore(t, demands, Candidate(Inserted(a, added, b), recent), others, gated, readable)
      < FinalScore(t, demands, Candidate(a + b, recent), others, gated, readable)
  }

  /**
   * Adding a skill at this place can lower the final, rounded and capped score of some listing if and only if it
   * displaces a better relative of a skill that has any weight.
   */
  lemma SomeFinalScoreDropsIff(t: Taxonomy, a: seq<Skill>, added: Skill, b: seq<Skill>, recent: seq<Skill>)
    requires SensibleTaxonomy(t)
    ensures (exists demands: seq<Demand>, others: Dimension -> real, gated: bool, readable: bool ::
               Sensible(t, demands) && FinalDrops(t, demands, a, added, b, recent, others, gated, readable))
       <==> exists skill :: t.rarity(skill) > 0.0 && Displaces(t, a, added, b, recent, skill)
  {
    SomeScoreDropsIff(t, a, added, b, recent);
    hide SkillsScore, Displaces, FinalScore;
    if exists skill :: t.rarity(skill) > 0.0 && Displaces(t, a, added, b, recent, skill) {
      var more, c := Candidate(Inserted(a, added, b), recent), Candidate(a + b, recent);
      var demands: seq<Demand> :| Sensible(t, demands) && SkillsScore(t, demands, more) < SkillsScore(t, demands, c);
      var others := DropShows(t, demands, more, c);
      assert FinalDrops(t, demands, a, added, b, recent, others, false, true);
    } else {
      forall demands: seq<Demand>, others: Dimension -> real, gated: bool, readable: bool | Sensible(t, demands)
        ensures !FinalDrops(t, demands, a, added, b, recent, others, gated, readable)
      {
        forall i | 0 <= i < |demands| && Ask(t, demands[i]) != 0.0
          ensures !Displaces(t, a, added, b, recent, demands[i].skill)
        {
          assert t.rarity(demands[i].skill) > 0.0;
        }
        FinalScoreKept(t, demands, a, added, b, recent, others, gated, readable);
      }
    }
  }

  /**
   * Such a candidate: a recent Vue counts half for React; with Angular listed before it, only 0.4; listed
   * behind it, still half.
   */
  lemma ListingFirstCanLower()
    ensures var t, react := Taxonomy(s => 1.0, s => Some("frontend"), s => s, 0.4), [Demand("React", 1.0)];
            && SensibleTaxonomy(t) && Displaces(t, [], "Angular", ["Vue"], ["Vue"], "React")
            && SkillsScore(t, react, Candidate(["Vue"], ["Vue"])) == 0.5
            && SkillsScore(t, react, Candidate(["Angular", "Vue"], ["Vue"])) == 0.4
            && SkillsScore(t, react, Candidate(["Vue", "Angular"], ["Vue"])) == 0.5
  {
    var t := Taxonomy(s => 1.0, s => Some("frontend"), s => s, 0.4);
    assert ["Vue"][..0] == [] && ["Angular", "Vue"][..1] == ["Angular"] && ["Angular"][..0] == []
        && ["Vue", "Angular"][..1] == ["Vue"];
    assert Relative(t, ["Vue"], "frontend") == Some("Vue");
    assert Relative(t, ["Angular"], "frontend") == Some("Angular");
    assert "Vue" in ["Vue"] && Names(t, ["Vue"], "Vue");
    assert "Vue"[0] != "React"[0] && "Angular"[0] != "React"[0] && "Angular"[0] != "Vue"[0];
    assert Inserted([], "Angular", ["Vue"]) == ["Angular", "Vue"];
    OneDemand(t, Candidate(["Vue"], ["Vue"]), "React");
    OneDemand(t, Candidate(["Angular", "Vue"], ["Vue"]), "React");
    OneDemand(t, Candidate(["Vue", "Angular"], ["Vue"]), "React");
  }
}
