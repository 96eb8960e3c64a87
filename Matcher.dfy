/** Twin search and what is inferred from the twins (src/matcher.py): the
    nearest profiles by a given similarity matrix, an itemised explanation
    of a match, skill recommendations and next-role predictions. */
module Matcher {
  import opened Strings
  import opened Ranking
  import opened Keywords
  import opened Profiles

  // ---------------------------------------------------------------------
  // Sequence helpers

  /** `[x for x in xs if f(x)]` */
  function Filter<T>(xs: seq<T>, f: T -> bool): (r: seq<T>)
    ensures |r| <= |xs|
    ensures forall t :: 0 <= t < |r| ==> r[t] in xs && f(r[t])
  {
    if xs == [] then [] else (if f(xs[0]) then [xs[0]] else []) + Filter(xs[1..], f)
  }

  lemma {:induction false} FilterMembers<T>(xs: seq<T>, f: T -> bool, y: T)
    ensures y in Filter(xs, f) <==> y in xs && f(y)
  {
    if xs != [] {
      FilterMembers(xs[1..], f, y);
      assert y in xs <==> y == xs[0] || y in xs[1..];
    }
  }

  lemma {:induction false} FilterDistinct<T>(xs: seq<T>, f: T -> bool)
    requires Distinct(xs)
    ensures Distinct(Filter(xs, f))
  {
    if xs != [] {
      FilterDistinct(xs[1..], f);
      FilterMembers(xs[1..], f, xs[0]);
      var rest := Filter(xs[1..], f);
      assert xs[0] !in xs[1..];
      if f(xs[0]) {
        var r := [xs[0]] + rest;
        forall i, j | 0 <= i < j < |r| ensures r[i] != r[j] {
          if i == 0 {
            assert r[j] == rest[j - 1] && rest[j - 1] in rest;
          } else {
            assert r[i] == rest[i - 1] && r[j] == rest[j - 1];
          }
        }
      }
    }
  }

  function Unequal<T(==)>(x: T): T -> bool {
    y => y != x
  }

  function InList<T(==)>(xs: seq<T>): T -> bool {
    y => y in xs
  }

  /** The elements of `xs` other than `x`, in order. */
  function Without<T(==)>(xs: seq<T>, x: T): seq<T> {
    Filter(xs, Unequal(x))
  }

  lemma {:induction false} WithoutAbsent<T>(xs: seq<T>, x: T)
    requires x !in xs
    ensures Without(xs, x) == xs
  {
    if xs != [] {
      assert x !in xs[1..];
      WithoutAbsent(xs[1..], x);
    }
  }

  lemma WithoutMembers<T>(xs: seq<T>, x: T, y: T)
    ensures y in Without(xs, x) <==> y in xs && y != x
  {
    FilterMembers(xs, Unequal(x), y);
  }

  /** Dropping an element a duplicate-free list holds shortens it by one. */
  lemma {:induction false} WithoutLength<T>(xs: seq<T>, x: T)
    requires Distinct(xs) && x in xs
    ensures |Without(xs, x)| == |xs| - 1
  {
    if xs[0] == x {
      assert x !in xs[1..];
      WithoutAbsent(xs[1..], x);
    } else {
      assert x in xs[1..];
      WithoutLength(xs[1..], x);
    }
  }

  /** Scores do not increase along the list. */
  predicate Ordered<T>(xs: seq<T>, score: T -> real) {
    forall i, j :: 0 <= i < j < |xs| ==> score(xs[i]) >= score(xs[j])
  }

  /** In a non-increasing list, the head scores at least as much as
      anything kept from the tail. */
  lemma FilterHeadDominates<T>(xs: seq<T>, f: T -> bool, score: T -> real, y: T)
    requires xs != [] && Ordered(xs, score)
    requires y in Filter(xs[1..], f)
    ensures score(xs[0]) >= score(y)
  {
    var t :| 0 <= t < |Filter(xs[1..], f)| && Filter(xs[1..], f)[t] == y;
    assert y in xs[1..];
    var q :| 0 <= q < |xs[1..]| && xs[1..][q] == y;
    assert xs[q + 1] == y;
  }

  lemma OrderedTail<T>(xs: seq<T>, score: T -> real)
    requires xs != [] && Ordered(xs, score)
    ensures Ordered(xs[1..], score)
  {
    forall i, j | 0 <= i < j < |xs[1..]| ensures score(xs[1..][i]) >= score(xs[1..][j]) {
      assert xs[1..][i] == xs[i + 1] && xs[1..][j] == xs[j + 1];
    }
  }

  lemma OrderedCons<T>(x: T, rest: seq<T>, score: T -> real)
    requires Ordered(rest, score)
    requires forall y :: y in rest ==> score(x) >= score(y)
    ensures Ordered([x] + rest, score)
  {
    var r := [x] + rest;
    forall i, j | 0 <= i < j < |r| ensures score(r[i]) >= score(r[j]) {
      assert r[j] == rest[j - 1] && rest[j - 1] in rest;
      if i > 0 {
        assert r[i] == rest[i - 1];
      }
    }
  }

  /** Filtering keeps a non-increasing order. */
  lemma {:induction false} FilterOrdered<T>(xs: seq<T>, f: T -> bool, score: T -> real)
    requires Ordered(xs, score)
    ensures Ordered(Filter(xs, f), score)
  {
    if xs != [] {
      var rest := Filter(xs[1..], f);
      OrderedTail(xs, score);
      FilterOrdered(xs[1..], f, score);
      if f(xs[0]) {
        forall y | y in rest ensures score(xs[0]) >= score(y) {
          FilterHeadDominates(xs, f, score, y);
        }
        OrderedCons(xs[0], rest, score);
        assert Filter(xs, f) == [xs[0]] + rest;
      } else {
        assert Filter(xs, f) == rest;
      }
    }
  }

  /** `range(n)` */
  function Range(n: nat): (r: seq<nat>)
    ensures |r| == n && forall i :: 0 <= i < n ==> r[i] == i
  {
    seq(n, i requires 0 <= i < n => i)
  }

  function ElemSet<T>(s: seq<T>): set<T> {
    set x | x in s
  }

  /** A duplicate-free list has as many elements as the set of its elements. */
  lemma {:induction false} DistinctCard<T>(s: seq<T>)
    requires Distinct(s)
    ensures |ElemSet(s)| == |s|
  {
    if s != [] {
      DistinctCard(s[1..]);
      assert ElemSet(s) == {s[0]} + ElemSet(s[1..]);
      assert s[0] !in ElemSet(s[1..]);
    }
  }

  /** Two duplicate-free lists with the same elements have the same length. */
  lemma SameElementsSameLength<T>(s: seq<T>, t: seq<T>)
    requires Distinct(s) && Distinct(t)
    requires forall x :: x in s <==> x in t
    ensures |s| == |t|
  {
    DistinctCard(s);
    DistinctCard(t);
    assert ElemSet(s) == ElemSet(t);
  }

  // ---------------------------------------------------------------------
  // find_twins

  /** Row `i` of the similarity matrix as a score on profile indices. */
  function RowScore(row: seq<real>): nat -> real {
    (j: nat) => if j < |row| then row[j] else 0.0
  }

  /** All indices, most similar first. */
  function RankedIndices(row: seq<real>): (s: seq<nat>)
    ensures forall t :: 0 <= t < |s| ==> s[t] < |row|
  {
    var s := SortByScore(Range(|row|), RowScore(row));
    SortByScoreSpec(Range(|row|), RowScore(row));
    assert forall t :: 0 <= t < |s| ==> s[t] in Range(|row|);
    s
  }

  /** The `k` most similar indices other than `idx`. */
  function TwinIndices(row: seq<real>, idx: nat, k: nat): (r: seq<nat>)
    ensures forall t :: 0 <= t < |r| ==> r[t] < |row|
  {
    var w := Without(RankedIndices(row), idx);
    assert forall t :: 0 <= t < |w| ==> w[t] in RankedIndices(row);
    Take(w, k)
  }

  /** The twin records for the chosen indices. */
  function TwinsOf(profiles: seq<Profile>, row: seq<real>, ix: seq<nat>): (ts: seq<Twin>)
    requires |row| == |profiles| && forall t :: 0 <= t < |ix| ==> ix[t] < |row|
  {
    seq(|ix|, t requires 0 <= t < |ix| => Twin(profiles[ix[t]], row[ix[t]], ix[t]))
  }

  /** Ranking the indices lists every index once, most similar first. */
  lemma RankedIndicesSpec(row: seq<real>)
    ensures var s := RankedIndices(row);
      && |s| == |row| && Distinct(s)
      && (forall j: nat :: j < |row| ==> j in s)
      && Ordered(s, RowScore(row))
  {
    var n := |row|;
    var s := RankedIndices(row);
    SortByScoreSpec(Range(n), RowScore(row));
    SortByScoreDistinct(Range(n), RowScore(row));
    forall j: nat | j < n ensures j in s {
      assert Range(n)[j] == j;
      assert j in multiset(Range(n));
    }
  }

  /** The ranked indices without `idx`. */
  lemma WithoutRanked(row: seq<real>, idx: nat)
    requires idx < |row|
    ensures var w := Without(RankedIndices(row), idx);
      && |w| == |row| - 1 && Distinct(w) && idx !in w
      && (forall j: nat :: j < |row| && j != idx ==> j in w)
      && Ordered(w, RowScore(row))
  {
    var s := RankedIndices(row);
    var w := Without(s, idx);
    RankedIndicesSpec(row);
    WithoutLength(s, idx);
    FilterDistinct(s, Unequal(idx));
    WithoutMembers(s, idx, idx);
    forall j: nat | j < |row| && j != idx ensures j in w {
      WithoutMembers(s, idx, j);
    }
    FilterOrdered(s, Unequal(idx), RowScore(row));
  }

  /** `find_twins(idx, k)`: exactly min(k, N - 1) indices, never `idx`,
      none twice, in non-increasing similarity. */
  lemma TwinIndicesSpec(row: seq<real>, idx: nat, k: nat)
    requires idx < |row|
    ensures var r := TwinIndices(row, idx, k);
      && |r| == (if k < |row| - 1 then k else |row| - 1)
      && idx !in r && Distinct(r)
      && (forall i, j :: 0 <= i < j < |r| ==> row[r[i]] >= row[r[j]])
  {
    var w := Without(RankedIndices(row), idx);
    var r := TwinIndices(row, idx, k);
    WithoutRanked(row, idx);
    assert r == w[..|r|];
    forall i, j | 0 <= i < j < |r| ensures row[r[i]] >= row[r[j]] {
      assert r[i] == w[i] && r[j] == w[j];
      assert RowScore(row)(w[i]) >= RowScore(row)(w[j]);
    }
  }

  /** No index left out is more similar than the last twin, and one is
      left out only when all `k` places are taken. */
  lemma TwinIndicesTop(row: seq<real>, idx: nat, k: nat, j: nat)
    requires idx < |row| && j < |row| && j != idx
    requires j !in TwinIndices(row, idx, k)
    ensures var r := TwinIndices(row, idx, k);
      |r| == k && (k == 0 || row[j] <= row[r[k - 1]])
  {
    var w := Without(RankedIndices(row), idx);
    var r := TwinIndices(row, idx, k);
    WithoutRanked(row, idx);
    assert j in w;
    var q := IndexOf(w, j);
    assert r == w[..|r|];
    assert q >= |r|;
    if k > 0 {
      assert r[k - 1] == w[k - 1];
      if q > k - 1 {
        assert RowScore(row)(w[k - 1]) >= RowScore(row)(w[q]);
      }
    }
  }

  /** The twin records: min(k, N - 1) of them, none for `idx` itself, no
      index twice, each carrying the profile and the similarity at its
      index, in non-increasing similarity. */
  lemma TwinsSpec(profiles: seq<Profile>, row: seq<real>, idx: nat, k: nat)
    requires |row| == |profiles| && idx < |row|
    ensures var ts := TwinsOf(profiles, row, TwinIndices(row, idx, k));
      && |ts| == (if k < |row| - 1 then k else |row| - 1)
      && (forall t :: 0 <= t < |ts| ==>
            && ts[t].index != idx && ts[t].index < |profiles|
            && ts[t].profile == profiles[ts[t].index] && ts[t].similarity == row[ts[t].index])
      && (forall i, j :: 0 <= i < j < |ts| ==> ts[i].index != ts[j].index && ts[i].similarity >= ts[j].similarity)
  {
    var r := TwinIndices(row, idx, k);
    TwinIndicesSpec(row, idx, k);
    forall t | 0 <= t < |r| ensures r[t] != idx {
      assert r[t] in r;
    }
  }

  // ---------------------------------------------------------------------
  // explain_match_detailed

  /** One line of a match explanation; which rule produced it, with the
      values it names. */
  datatype Explanation =
    | StrongTechStack(shown: seq<string>)
    | SharedTechnologies(shared: seq<string>)
    | SameSpecialization(specialization: string)
    | SameLevel(levelName: Option<string>)
    | SimilarCompanyType(companyType: string)
    | BothRemote

  /** What each explanation adds to the match strength. */
  function Weight(e: Explanation): nat {
    match e
    case StrongTechStack(_) => 3
    case SharedTechnologies(_) => 2
    case SameSpecialization(_) => 2
    case SameLevel(_) => 1
    case SimilarCompanyType(_) => 1
    case BothRemote => 0
  }

  /** The position of the rule that produces an explanation. */
  function RuleIndex(e: Explanation): nat {
    match e
    case StrongTechStack(_) => 0
    case SharedTechnologies(_) => 0
    case SameSpecialization(_) => 1
    case SameLevel(_) => 2
    case SimilarCompanyType(_) => 3
    case BothRemote => 4
  }

  function TotalWeight(es: seq<Explanation>): nat {
    if es == [] then 0 else Weight(es[0]) + TotalWeight(es[1..])
  }

  /** The skills two profiles share, each once, in the order the first
      profile lists them. */
  function CommonSkills(a: seq<string>, b: seq<string>): seq<string> {
    Filter(FirstSeen(a), InList(b))
  }

  lemma CommonSkillsSpec(a: seq<string>, b: seq<string>)
    ensures var c := CommonSkills(a, b);
      && Distinct(c)
      && forall s :: s in c <==> s in a && s in b
  {
    FilterDistinct(FirstSeen(a), InList(b));
    forall s ensures s in CommonSkills(a, b) <==> s in a && s in b {
      FilterMembers(FirstSeen(a), InList(b), s);
      if s in a {
        var i :| 0 <= i < |a| && a[i] == s;
      }
    }
  }

  /** The number of shared skills does not depend on the order of the pair. */
  lemma CommonSkillsSymmetric(a: seq<string>, b: seq<string>)
    ensures |CommonSkills(a, b)| == |CommonSkills(b, a)|
  {
    CommonSkillsSpec(a, b);
    CommonSkillsSpec(b, a);
    SameElementsSameLength(CommonSkills(a, b), CommonSkills(b, a));
  }

  /** `level_names.get(level)` */
  function LevelName(level: int): Option<string> {
    if level == 1 then Some("Junior (0-2 years)")
    else if level == 2 then Some("Mid-level (2-5 years)")
    else if level == 3 then Some("Senior (5-8 years)")
    else if level == 4 then Some("Staff/Principal (8+ years)")
    else if level == 5 then Some("Management/Leadership")
    else None
  }

  /** Equal remote flags that are set and non-zero; a missing (NaN) flag is
      never equal to another. */
  predicate BothRemoteFriendly(p1: Profile, p2: Profile) {
    p1.remoteAllowed.Some? && p1.remoteAllowed == p2.remoteAllowed && p1.remoteAllowed.value != 0.0
  }

  /** The skill part of a match: at most one line, naming four shared skills
      when there are four or more, all of them when there are two or three. */
  function SkillExplanation(common: seq<string>): seq<Explanation> {
    if |common| >= 4 then [StrongTechStack(common[..4])]
    else if |common| >= 2 then [SharedTechnologies(common)]
    else []
  }

  /** A line that appears when its rule holds. */
  function Line(holds: bool, e: Explanation): (es: seq<Explanation>)
    ensures TotalWeight(es) == if holds then Weight(e) else 0
  {
    if holds then [e] else []
  }

  /** The explanation lines of a match, in rule order. */
  function Explanations(p1: Profile, p2: Profile): seq<Explanation> {
    SkillExplanation(CommonSkills(p1.skills, p2.skills))
    + Line(p1.specialization == p2.specialization, SameSpecialization(p1.specialization))
    + Line(p1.experienceLevel == p2.experienceLevel, SameLevel(LevelName(p1.experienceLevel)))
    + Line(p1.companyType == p2.companyType, SimilarCompanyType(p1.companyType))
    + Line(BothRemoteFriendly(p1, p2), BothRemote)
  }

  /** The skill bonus: 3 for four or more shared skills, 2 for two or three. */
  function SkillBonus(shared: nat): nat {
    if shared >= 4 then 3 else if shared >= 2 then 2 else 0
  }

  /** The match strength as a sum of independent bonuses. */
  function MatchStrength(p1: Profile, p2: Profile): int {
    SkillBonus(|CommonSkills(p1.skills, p2.skills)|)
    + (if p1.specialization == p2.specialization then 2 else 0)
    + (if p1.experienceLevel == p2.experienceLevel then 1 else 0)
    + (if p1.companyType == p2.companyType then 1 else 0)
  }

  lemma {:induction false} TotalWeightAppend(a: seq<Explanation>, b: seq<Explanation>)
    ensures TotalWeight(a + b) == TotalWeight(a) + TotalWeight(b)
  {
    if a == [] {
      assert a + b == b;
    } else {
      assert (a + b)[0] == a[0];
      assert (a + b)[1..] == a[1..] + b;
      TotalWeightAppend(a[1..], b);
    }
  }

  lemma SkillExplanationWeight(common: seq<string>)
    ensures TotalWeight(SkillExplanation(common)) == SkillBonus(|common|)
  {
  }

  lemma TotalWeightFive(a: seq<Explanation>, b: seq<Explanation>, c: seq<Explanation>, d: seq<Explanation>, e: seq<Explanation>)
    ensures TotalWeight(a + b + c + d + e) == TotalWeight(a) + TotalWeight(b) + TotalWeight(c) + TotalWeight(d) + TotalWeight(e)
  {
    TotalWeightAppend(a, b);
    TotalWeightAppend(a + b, c);
    TotalWeightAppend(a + b + c, d);
    TotalWeightAppend(a + b + c + d, e);
  }

  /** The strength is the total weight of the explanation lines; the
      remote line weighs nothing. */
  lemma StrengthIsTotalWeight(p1: Profile, p2: Profile)
    ensures MatchStrength(p1, p2) == TotalWeight(Explanations(p1, p2))
  {
    var a := SkillExplanation(CommonSkills(p1.skills, p2.skills));
    var b := Line(p1.specialization == p2.specialization, SameSpecialization(p1.specialization));
    var c := Line(p1.experienceLevel == p2.experienceLevel, SameLevel(LevelName(p1.experienceLevel)));
    var d := Line(p1.companyType == p2.companyType, SimilarCompanyType(p1.companyType));
    var e := Line(BothRemoteFriendly(p1, p2), BothRemote);
    SkillExplanationWeight(CommonSkills(p1.skills, p2.skills));
    TotalWeightFive(a, b, c, d, e);
  }

  /** The strength lies in 0..7 and does not depend on the order of the pair. */
  lemma StrengthRangeAndSymmetry(p1: Profile, p2: Profile)
    ensures 0 <= MatchStrength(p1, p2) <= 7
    ensures MatchStrength(p1, p2) == MatchStrength(p2, p1)
  {
    CommonSkillsSymmetric(p1.skills, p2.skills);
  }

  /** A profile matched with itself scores at least 4: same specialization,
      level and company type. */
  lemma SelfMatch(p: Profile)
    ensures MatchStrength(p, p) >= 4
    ensures SameSpecialization(p.specialization) in Explanations(p, p)
    ensures SameLevel(LevelName(p.experienceLevel)) in Explanations(p, p)
  {
    var a := SkillExplanation(CommonSkills(p.skills, p.skills));
    assert Explanations(p, p)[|a|] == SameSpecialization(p.specialization);
    assert Explanations(p, p)[|a| + 1] == SameLevel(LevelName(p.experienceLevel));
  }

  /** Each rule contributes at most one line, in rule order. */
  predicate RuleOrdered(es: seq<Explanation>) {
    forall i, j :: 0 <= i < j < |es| ==> RuleIndex(es[i]) < RuleIndex(es[j])
  }

  lemma AppendRuleOrdered(xs: seq<Explanation>, ys: seq<Explanation>, bound: nat)
    requires RuleOrdered(xs) && |ys| <= 1
    requires forall x :: x in xs ==> RuleIndex(x) < bound
    requires forall y :: y in ys ==> RuleIndex(y) == bound
    ensures RuleOrdered(xs + ys)
    ensures forall x :: x in xs + ys ==> RuleIndex(x) <= bound
  {
    var zs := xs + ys;
    forall i, j | 0 <= i < j < |zs| ensures RuleIndex(zs[i]) < RuleIndex(zs[j]) {
      if j < |xs| {
        assert zs[i] == xs[i] && zs[j] == xs[j];
      } else {
        assert zs[i] == xs[i] && xs[i] in xs;
        assert zs[j] == ys[j - |xs|] && ys[j - |xs|] in ys;
      }
    }
  }

  /** At most five lines, each rule at most once, in the fixed rule order. */
  lemma ExplanationsInRuleOrder(p1: Profile, p2: Profile)
    ensures |Explanations(p1, p2)| <= 5 && RuleOrdered(Explanations(p1, p2))
  {
    var a := SkillExplanation(CommonSkills(p1.skills, p2.skills));
    var b := Line(p1.specialization == p2.specialization, SameSpecialization(p1.specialization));
    var c := Line(p1.experienceLevel == p2.experienceLevel, SameLevel(LevelName(p1.experienceLevel)));
    var d := Line(p1.companyType == p2.companyType, SimilarCompanyType(p1.companyType));
    var e := Line(BothRemoteFriendly(p1, p2), BothRemote);
    AppendRuleOrdered(a, b, 1);
    AppendRuleOrdered(a + b, c, 2);
    AppendRuleOrdered(a + b + c, d, 3);
    AppendRuleOrdered(a + b + c + d, e, 4);
  }

  /** The lines that name skills come from the skill rule. */
  lemma SkillLinesFromSkillRule(p1: Profile, p2: Profile, x: Explanation)
    requires x in Explanations(p1, p2) && (x.StrongTechStack? || x.SharedTechnologies?)
    ensures x in SkillExplanation(CommonSkills(p1.skills, p2.skills))
  {
  }

  /** A line naming a strong tech stack shows four distinct skills both
      profiles have; a line naming shared technologies lists all of the
      two or three skills they share. */
  lemma SkillLinesShown(p1: Profile, p2: Profile, x: Explanation)
    requires x in Explanations(p1, p2)
    ensures x.StrongTechStack? ==>
      |x.shown| == 4 && Distinct(x.shown) && forall s :: s in x.shown ==> s in p1.skills && s in p2.skills
    ensures x.SharedTechnologies? ==>
      2 <= |x.shared| <= 3 && forall s :: s in p1.skills && s in p2.skills <==> s in x.shared
  {
    var common := CommonSkills(p1.skills, p2.skills);
    CommonSkillsSpec(p1.skills, p2.skills);
    if x.StrongTechStack? || x.SharedTechnologies? {
      SkillLinesFromSkillRule(p1, p2, x);
    }
    if x.StrongTechStack? {
      assert x.shown == common[..4];
      forall s | s in x.shown ensures s in common {
        var i :| 0 <= i < 4 && common[..4][i] == s;
        assert common[i] == s;
      }
    }
  }

  // ---------------------------------------------------------------------
  // _categorize_skill

  datatype SkillType = ProgrammingLanguage | Framework | Database | CloudDevOps | AiMl | ToolTechnology

  const LanguageWords: seq<string> := ["python", "java", "javascript", "typescript", "go", "rust"]

  /** The category tests after the language test, in order. */
  const LaterCategoryRules: seq<Rule<SkillType>> := [
    Rule(["react", "angular", "vue", "django", "spring", "express"], Framework),
    Rule(["sql", "mongodb", "redis", "postgresql"], Database),
    Rule(["aws", "azure", "gcp", "docker", "kubernetes"], CloudDevOps),
    Rule(["machine learning", "tensorflow", "pytorch"], AiMl)]

  /** The later tests never answer Programming Language. */
  lemma LaterRulesNotLanguage(text: string)
    ensures Cascade(text, LaterCategoryRules, ToolTechnology) != ProgrammingLanguage
  {
    CascadeLabel(text, LaterCategoryRules, ToolTechnology);
    assert Labels(LaterCategoryRules, ToolTechnology) == [Framework, Database, CloudDevOps, AiMl, ToolTechnology];
  }

  /** `_categorize_skill` as written: every keyword is a substring test on
      the lower-cased skill, so 'go' fires inside 'django' and 'mongodb'. A
      skill is a programming language exactly when a language keyword occurs
      in it; otherwise the first later test that holds decides. */
  function CategorizeSkillAsWritten(skill: string): (t: SkillType)
    ensures t == ProgrammingLanguage <==> AnyIn(Lower(skill), LanguageWords)
    ensures !AnyIn(Lower(skill), LanguageWords) ==> t == Cascade(Lower(skill), LaterCategoryRules, ToolTechnology)
  {
    var rules := [Rule(LanguageWords, ProgrammingLanguage)] + LaterCategoryRules;
    assert rules[1..] == LaterCategoryRules;
    LaterRulesNotLanguage(Lower(skill));
    Cascade(Lower(skill), rules, ToolTechnology)
  }

  /** The language keywords other than 'go'. */
  const OtherLanguageWords: seq<string> := ["python", "java", "javascript", "typescript", "rust"]

  /** A language name occurs in the skill; 'go' counts only as a whole word. */
  predicate NamesLanguage(text: string) {
    AnyIn(text, OtherLanguageWords) || "go" in Split(text)
  }

  /** `_categorize_skill` with the Go test on whole words. */
  function CategorizeSkill(skill: string): (t: SkillType)
    ensures t == ProgrammingLanguage <==> NamesLanguage(Lower(skill))
    ensures !NamesLanguage(Lower(skill)) ==> t == Cascade(Lower(skill), LaterCategoryRules, ToolTechnology)
  {
    var text := Lower(skill);
    LaterRulesNotLanguage(text);
    if NamesLanguage(text) then ProgrammingLanguage
    else Cascade(text, LaterCategoryRules, ToolTechnology)
  }

  lemma LowerDjango()
    ensures Lower("Django") == "django"
  {
  }

  lemma LowerMongodb()
    ensures Lower("Mongodb") == "mongodb"
  {
  }

  lemma GoInDjango()
    ensures OccursAt("django", "go", 4)
  {
    assert "django"[4..6] == "go";
  }

  lemma GoInMongodb()
    ensures OccursAt("mongodb", "go", 3)
  {
    assert "mongodb"[3..5] == "go";
  }

  /** As written, the extracted skills "Django" and "Mongodb" are filed as
      programming languages, so their own entries can never fire. */
  lemma DjangoAsWritten()
    ensures CategorizeSkillAsWritten("Django") == ProgrammingLanguage
    ensures CategorizeSkillAsWritten("Mongodb") == ProgrammingLanguage
  {
    LowerDjango();
    LowerMongodb();
    GoInDjango();
    GoInMongodb();
    var rules := [Rule(LanguageWords, ProgrammingLanguage)] + LaterCategoryRules;
    assert rules[0].words[4] == "go";
    assert AnyIn("django", rules[0].words);
    assert AnyIn("mongodb", rules[0].words);
  }

  lemma DjangoNoLanguage()
    ensures !NamesLanguage("django")
  {
    SplitWord("django");
    forall w | w in OtherLanguageWords
      ensures !Contains("django", w)
    {
      if w == "python" {
        AbsentElement("django", w, 'p');
      } else if w == "java" || w == "javascript" {
        AbsentElement("django", w, 'v');
      } else if w == "typescript" {
        AbsentElement("django", w, 'y');
      } else {
        AbsentElement("django", w, 'r');
      }
    }
  }

  lemma MongodbNoLanguage()
    ensures !NamesLanguage("mongodb")
  {
    SplitWord("mongodb");
    forall w | w in OtherLanguageWords
      ensures !Contains("mongodb", w)
    {
      if w == "python" || w == "typescript" {
        AbsentElement("mongodb", w, 'y');
      } else if w == "java" || w == "javascript" {
        AbsentElement("mongodb", w, 'a');
      } else {
        AbsentElement("mongodb", w, 'r');
      }
    }
  }

  lemma MongodbNoFramework()
    ensures !AnyIn("mongodb", LaterCategoryRules[0].words)
  {
    forall w | w in LaterCategoryRules[0].words ensures !Contains("mongodb", w) {
      if w == "react" || w == "angular" || w == "spring" || w == "express" {
        AbsentElement("mongodb", w, 'r');
      } else if w == "vue" {
        AbsentElement("mongodb", w, 'v');
      } else {
        AbsentElement("mongodb", w, 'j');
      }
    }
  }

  lemma DjangoIsFramework()
    ensures CategorizeSkill("Django") == Framework
  {
    LowerDjango();
    DjangoNoLanguage();
    assert AnyIn("django", LaterCategoryRules[0].words) by {
      assert LaterCategoryRules[0].words[3] == "django";
      assert OccursAt("django", "django", 0);
    }
    CascadeFirstMatch("django", LaterCategoryRules, ToolTechnology, 0);
  }

  lemma MongodbIsDatabase()
    ensures CategorizeSkill("Mongodb") == Database
  {
    LowerMongodb();
    MongodbNoLanguage();
    MongodbNoFramework();
    assert AnyIn("mongodb", LaterCategoryRules[1].words) by {
      assert LaterCategoryRules[1].words[1] == "mongodb";
      assert OccursAt("mongodb", "mongodb", 0);
    }
    CascadeFirstMatch("mongodb", LaterCategoryRules, ToolTechnology, 1);
  }

  /** With the whole-word Go test, "Django" is a framework and "Mongodb" a
      database, as their entries intend. */
  lemma DjangoCorrected()
    ensures CategorizeSkill("Django") == Framework
    ensures CategorizeSkill("Mongodb") == Database
  {
    DjangoIsFramework();
    MongodbIsDatabase();
  }

  /** The correction changes nothing for a skill without 'go' in it, and a
      skill whose words include "go" is a language either way. */
  lemma CategorizeCorrectionScope(skill: string)
    ensures !Contains(Lower(skill), "go") ==> CategorizeSkill(skill) == CategorizeSkillAsWritten(skill)
    ensures "go" in Split(Lower(skill)) ==>
      CategorizeSkill(skill) == ProgrammingLanguage && CategorizeSkillAsWritten(skill) == ProgrammingLanguage
  {
    var text := Lower(skill);
    var langs := OtherLanguageWords;
    var rules := [Rule(LanguageWords, ProgrammingLanguage)] + LaterCategoryRules;
    assert rules[1..] == LaterCategoryRules;
    if AnyIn(text, LanguageWords) && !Contains(text, "go") {
      var i :| 0 <= i < |LanguageWords| && Contains(text, LanguageWords[i]);
      var k := if i < 4 then i else 4;
      assert i != 4;
      assert langs[k] == LanguageWords[i];
      assert AnyIn(text, langs);
    }
    if AnyIn(text, langs) {
      var k :| 0 <= k < |langs| && Contains(text, langs[k]);
      var i := if k < 4 then k else 5;
      assert LanguageWords[i] == langs[k];
      assert AnyIn(text, LanguageWords);
    }
    if Contains(text, "go") {
      assert LanguageWords[4] == "go";
      assert AnyIn(text, LanguageWords);
    }
    if "go" in Split(text) {
      WordInText(text, "go");
      assert AnyIn(text, LanguageWords) by {
        assert LanguageWords[4] == "go";
      }
    }
  }

  /** A word of a text occurs in the text. */
  lemma {:induction false} WordInText(text: string, w: string)
    requires w in Split(text)
    ensures Contains(text, w)
    decreases |text|
  {
    if IsSpace(text[0]) {
      WordInText(text[1..], w);
      ContainsShift(text, w, 1);
    } else {
      var n := WordEnd(text, 0);
      if w == text[..n] {
        assert OccursAt(text, w, 0);
      } else {
        WordInText(text[n..], w);
        ContainsShift(text, w, n);
      }
    }
  }

  lemma ContainsShift(text: string, w: string, n: nat)
    requires n <= |text| && Contains(text[n..], w)
    ensures Contains(text, w)
  {
    var i :| 0 <= i <= |text[n..]| - |w| && OccursAt(text[n..], w, i);
    assert text[n..][i..i + |w|] == text[n + i..n + i + |w|];
    assert OccursAt(text, w, n + i);
  }

  // ---------------------------------------------------------------------
  // _generate_skill_reason and _calculate_priority

  /** `(frequency / total) * 100` */
  function AdoptionRate(frequency: nat, total: nat): real
    requires total > 0
  {
    (frequency as real / total as real) * 100.0
  }

  /** The adoption rate reaches `pct` percent exactly when `100 * frequency`
      reaches `pct * total`. */
  lemma AdoptionAtLeast(frequency: nat, total: nat, pct: int)
    requires total > 0
    ensures AdoptionRate(frequency, total) >= pct as real <==> 100 * frequency >= pct * total
  {
    var q := frequency as real / total as real;
    assert q * total as real == frequency as real;
    assert (q * 100.0) * total as real == 100.0 * frequency as real;
    if q * 100.0 >= pct as real {
      assert (q * 100.0) * total as real >= pct as real * total as real;
    } else {
      assert (q * 100.0) * total as real < pct as real * total as real;
    }
  }

  /** Why a skill is recommended, with the figures the message quotes. */
  datatype Reason =
    | Essential(adoption: real)
    | KeyForAdvancement(level: real, adoption: real)
    | CriticalCloud
    | HighGrowth
    | IncreasinglyImportant(adoption: real)
    | Emerging

  function SkillReason(frequency: nat, total: nat, avgLevel: real, currentLevel: int, t: SkillType): Reason
    requires total > 0
  {
    var adoption := AdoptionRate(frequency, total);
    if adoption >= 60.0 then Essential(adoption)
    else if avgLevel > currentLevel as real && adoption >= 40.0 then KeyForAdvancement(avgLevel, adoption)
    else if t == CloudDevOps && adoption >= 30.0 then CriticalCloud
    else if t == AiMl then HighGrowth
    else if adoption >= 30.0 then IncreasinglyImportant(adoption)
    else Emerging
  }

  /** The reason in terms of how many of the twins have the skill: essential
      exactly when at least three in five do; the advancement reason needs
      two in five and a typical level above the user's; the cloud and the
      peer reasons need three in ten; an emerging skill is held by fewer
      than three in ten and is not an AI/ML skill. */
  lemma ReasonThresholds(frequency: nat, total: nat, avgLevel: real, currentLevel: int, t: SkillType)
    requires total > 0
    ensures var r := SkillReason(frequency, total, avgLevel, currentLevel, t);
      && (r.Essential? <==> 5 * frequency >= 3 * total)
      && (r.KeyForAdvancement? ==> avgLevel > currentLevel as real && 5 * frequency >= 2 * total && 5 * frequency < 3 * total)
      && (r.CriticalCloud? ==> t == CloudDevOps && 10 * frequency >= 3 * total)
      && (r.HighGrowth? ==> t == AiMl)
      && (r.IncreasinglyImportant? ==> t != AiMl && 10 * frequency >= 3 * total)
      && (r.Emerging? <==> t != AiMl && 10 * frequency < 3 * total)
  {
    AdoptionAtLeast(frequency, total, 60);
    AdoptionAtLeast(frequency, total, 40);
    AdoptionAtLeast(frequency, total, 30);
  }

  /** `_calculate_priority`: the importance in percent, raised by 20% for a
      cloud skill or 15% for an AI/ML skill, then by 10% for a skill held
      by three or more twins. */
  function Priority(importance: real, frequency: nat, t: SkillType): real {
    var p := importance * 100.0;
    var p' := if t == CloudDevOps then p * 1.2 else if t == AiMl then p * 1.15 else p;
    if frequency >= 3 then p' * 1.1 else p'
  }

  function TypeBoost(t: SkillType): real {
    match t
    case CloudDevOps => 1.2
    case AiMl => 1.15
    case _ => 1.0
  }

  function FrequencyBoost(frequency: nat): real {
    if frequency >= 3 then 1.1 else 1.0
  }

  /** The priority is the importance scaled by two independent factors,
      so it never falls below the plain percentage and never exceeds it by
      more than 32% when the importance is not negative, and it grows
      with the importance. */
  lemma PriorityFactors(importance: real, frequency: nat, t: SkillType)
    ensures Priority(importance, frequency, t) == importance * 100.0 * TypeBoost(t) * FrequencyBoost(frequency)
    ensures importance >= 0.0 ==>
      importance * 100.0 <= Priority(importance, frequency, t) <= importance * 132.0
  {
  }

  lemma PriorityMonotone(i1: real, i2: real, f1: nat, f2: nat, t: SkillType)
    requires 0.0 <= i1 <= i2 && f1 <= f2
    ensures Priority(i1, f1, t) <= Priority(i2, f2, t)
  {
    PriorityFactors(i1, f1, t);
    PriorityFactors(i2, f2, t);
    var k1 := 100.0 * TypeBoost(t) * FrequencyBoost(f1);
    var k2 := 100.0 * TypeBoost(t) * FrequencyBoost(f2);
    assert 0.0 < k1 <= k2;
    assert i1 * k1 <= i2 * k1;
    assert i2 * k1 <= i2 * k2;
  }

  // ---------------------------------------------------------------------
  // get_skill_recommendations

  function NotIn<T(==)>(xs: seq<T>): T -> bool {
    y => y !in xs
  }

  /** `set(twin_skills) - set(current_skills)`, iterated in the order the
      twin lists its skills. */
  function MissingSkills(skills: seq<string>, current: seq<string>): seq<string> {
    Filter(FirstSeen(skills), NotIn(current))
  }

  lemma MissingSkillsSpec(skills: seq<string>, current: seq<string>)
    ensures Distinct(MissingSkills(skills, current))
    ensures forall s :: s in MissingSkills(skills, current) <==> s in skills && s !in current
  {
    FilterDistinct(FirstSeen(skills), NotIn(current));
    forall s ensures s in MissingSkills(skills, current) <==> s in skills && s !in current {
      FilterMembers(FirstSeen(skills), NotIn(current), s);
      if s in skills {
        var i :| 0 <= i < |skills| && skills[i] == s;
      }
    }
  }

  /** The running totals kept per missing skill: how many qualifying twins
      have it, the sum of their levels and the sum of their similarities. */
  datatype SkillStats = SkillStats(frequency: nat, levelSum: int, similaritySum: real)

  /** `skill_analysis`: its keys in insertion order, and their totals. */
  datatype SkillAnalysis = SkillAnalysis(order: seq<string>, stats: map<string, SkillStats>)

  predicate WellFormed(a: SkillAnalysis) {
    && Distinct(a.order)
    && (forall s :: s in a.stats ==> s in a.order)
    && (forall s :: s in a.order ==> s in a.stats)
  }

  const NoStats := SkillStats(0, 0, 0.0)

  /** The share of twins with the skill times their summed similarity. */
  function Importance(d: SkillStats, total: nat): real
    requires total > 0
  {
    (d.frequency as real / total as real) * d.similaritySum
  }

  /** The totals with one more twin of the given level and similarity. */
  function Added(d: SkillStats, level: int, similarity: real): SkillStats {
    SkillStats(d.frequency + 1, d.levelSum + level, d.similaritySum + similarity)
  }

  /** Counts one more twin with `skill`. */
  function Count(a: SkillAnalysis, skill: string, level: int, similarity: real): SkillAnalysis {
    var d := if skill in a.stats then a.stats[skill] else NoStats;
    SkillAnalysis(
      if skill in a.stats then a.order else a.order + [skill],
      a.stats[skill := Added(d, level, similarity)])
  }

  /** Counts one twin for each of `skills`, in order. */
  function CountAll(a: SkillAnalysis, skills: seq<string>, level: int, similarity: real): SkillAnalysis {
    if skills == [] then a
    else
      var n := |skills| - 1;
      Count(CountAll(a, skills[..n], level, similarity), skills[n], level, similarity)
  }

  /** A twin's skills are analysed when its level is at least the user's. */
  predicate Qualifies(t: Twin, level: int) {
    t.profile.experienceLevel >= level
  }

  /** The analysis after the first `|twins|` twins. */
  function AnalyzeTwins(twins: seq<Twin>, current: seq<string>, level: int): SkillAnalysis {
    if twins == [] then SkillAnalysis([], map[])
    else
      var n := |twins| - 1;
      var a := AnalyzeTwins(twins[..n], current, level);
      var t := twins[n];
      if Qualifies(t, level) then CountAll(a, MissingSkills(t.profile.skills, current), t.profile.experienceLevel, t.similarity)
      else a
  }

  /** Independent reference: the totals over the qualifying twins that
      have `s`. */
  function HolderStats(twins: seq<Twin>, s: string, level: int): SkillStats {
    if twins == [] then NoStats
    else
      var n := |twins| - 1;
      var h := HolderStats(twins[..n], s, level);
      if Qualifies(twins[n], level) && s in twins[n].profile.skills
      then Added(h, twins[n].profile.experienceLevel, twins[n].similarity)
      else h
  }

  /** The number of qualifying twins that have `s`. */
  function Holders(twins: seq<Twin>, s: string, level: int): nat {
    HolderStats(twins, s, level).frequency
  }

  lemma {:induction false} HoldersBound(twins: seq<Twin>, s: string, level: int)
    ensures Holders(twins, s, level) <= |twins|
    ensures Holders(twins, s, level) > 0 <==> exists i :: 0 <= i < |twins| && Qualifies(twins[i], level) && s in twins[i].profile.skills
  {
    if twins != [] {
      var n := |twins| - 1;
      HoldersBound(twins[..n], s, level);
      if exists i :: 0 <= i < n && Qualifies(twins[..n][i], level) && s in twins[..n][i].profile.skills {
        var i :| 0 <= i < n && Qualifies(twins[..n][i], level) && s in twins[..n][i].profile.skills;
        assert twins[..n][i] == twins[i];
      }
      if exists i :: 0 <= i < |twins| && Qualifies(twins[i], level) && s in twins[i].profile.skills {
        var i :| 0 <= i < |twins| && Qualifies(twins[i], level) && s in twins[i].profile.skills;
        if i < n {
          assert twins[..n][i] == twins[i];
        }
      }
    }
  }

  /** The priority the candidate for `s` would get. */
  function CandidatePriority(twins: seq<Twin>, s: string, level: int): real
    requires |twins| > 0
  {
    var h := HolderStats(twins, s, level);
    Priority(Importance(h, |twins|), h.frequency, CategorizeSkillAsWritten(s))
  }

  /** What the totals say: each counted skill is held by that many
      qualifying twins, all at the user's level or above. */
  predicate Counted(a: SkillAnalysis, level: int) {
    forall s :: s in a.stats ==>
      a.stats[s].frequency >= 1 && a.stats[s].levelSum >= a.stats[s].frequency * level
  }

  lemma CountSpec(a: SkillAnalysis, skill: string, level: int, similarity: real, minLevel: int)
    requires WellFormed(a) && Counted(a, minLevel) && level >= minLevel
    ensures var b := Count(a, skill, level, similarity);
      && WellFormed(b) && Counted(b, minLevel)
      && b.stats[skill] == Added(if skill in a.stats then a.stats[skill] else NoStats, level, similarity)
      && forall s :: s != skill ==> (s in b.stats <==> s in a.stats) && (s in a.stats ==> b.stats[s] == a.stats[s])
  {
    var b := Count(a, skill, level, similarity);
    if skill !in a.stats {
      forall i, j | 0 <= i < j < |b.order| ensures b.order[i] != b.order[j] {
        if j == |a.order| {
          assert b.order[i] == a.order[i] && a.order[i] in a.stats;
        }
      }
    }
    var d := if skill in a.stats then a.stats[skill] else NoStats;
    assert d.levelSum >= d.frequency * minLevel;
    assert d.levelSum + level >= (d.frequency + 1) * minLevel;
  }

  lemma {:induction false} CountAllSpec(a: SkillAnalysis, skills: seq<string>, level: int, similarity: real, minLevel: int)
    requires WellFormed(a) && Counted(a, minLevel) && level >= minLevel && Distinct(skills)
    ensures var b := CountAll(a, skills, level, similarity);
      && WellFormed(b) && Counted(b, minLevel)
      && (forall s :: s in skills ==> s in b.stats && b.stats[s] == Added(if s in a.stats then a.stats[s] else NoStats, level, similarity))
      && (forall s :: s !in skills ==> (s in b.stats <==> s in a.stats) && (s in a.stats ==> b.stats[s] == a.stats[s]))
  {
    if skills != [] {
      var n := |skills| - 1;
      var init := skills[..n];
      assert Distinct(init);
      CountAllSpec(a, init, level, similarity, minLevel);
      var c := CountAll(a, init, level, similarity);
      CountSpec(c, skills[n], level, similarity, minLevel);
      assert skills[n] !in init;
      forall s | s in skills ensures s in init || s == skills[n] {
        var i :| 0 <= i < |skills| && skills[i] == s;
        if i < n {
          assert init[i] == s;
        }
      }
    }
  }

  /** The analysis of the twins: its keys are exactly the skills the user
      lacks that some qualifying twin has, listed once each; each key's
      totals are those over the qualifying twins that have it; the
      typical level is never below the user's. */
  lemma {:induction false} AnalyzeTwinsSpec(twins: seq<Twin>, current: seq<string>, level: int)
    ensures var a := AnalyzeTwins(twins, current, level);
      && WellFormed(a) && Counted(a, level)
      && (forall s :: s in a.stats ==> s !in current)
      && (forall s :: s !in current ==>
            (s in a.stats <==> Holders(twins, s, level) > 0) &&
            (s in a.stats ==> a.stats[s] == HolderStats(twins, s, level)))
  {
    if twins != [] {
      var n := |twins| - 1;
      var t := twins[n];
      var a := AnalyzeTwins(twins[..n], current, level);
      AnalyzeTwinsSpec(twins[..n], current, level);
      if Qualifies(t, level) {
        var ms := MissingSkills(t.profile.skills, current);
        MissingSkillsSpec(t.profile.skills, current);
        CountAllSpec(a, ms, t.profile.experienceLevel, t.similarity, level);
        var b := AnalyzeTwins(twins, current, level);
        forall s | s !in current
          ensures (s in b.stats <==> Holders(twins, s, level) > 0)
          ensures s in b.stats ==> b.stats[s] == HolderStats(twins, s, level)
        {
          HolderStatsNone(twins[..n], s, level);
        }
      }
    }
  }

  /** No holder means no totals. */
  lemma {:induction false} HolderStatsNone(twins: seq<Twin>, s: string, level: int)
    ensures Holders(twins, s, level) == 0 ==> HolderStats(twins, s, level) == NoStats
  {
    if twins != [] {
      HolderStatsNone(twins[..|twins| - 1], s, level);
    }
  }

  /** One recommendation, with the figures it reports. */
  datatype Recommendation = Recommendation(
    skill: string,
    skillType: SkillType,
    importance: real,
    adoptionRate: real,
    typicalLevel: real,
    reason: Reason,
    priority: real)

  function PriorityOf(r: Recommendation): real {
    r.priority
  }

  function Recommend(skill: string, d: SkillStats, total: nat, currentLevel: int): Recommendation
    requires d.frequency > 0 && total > 0
  {
    var typicalLevel := d.levelSum as real / d.frequency as real;
    var importance := Importance(d, total);
    var t := CategorizeSkillAsWritten(skill);
    Recommendation(skill, t, importance, AdoptionRate(d.frequency, total), typicalLevel,
      SkillReason(d.frequency, total, typicalLevel, currentLevel, t), Priority(importance, d.frequency, t))
  }

  /** One recommendation per analysed skill with a positive frequency, in
      the analysis order. */
  function Candidates(order: seq<string>, stats: map<string, SkillStats>, total: nat, currentLevel: int): seq<Recommendation>
    requires forall s :: s in order ==> s in stats
    requires order != [] ==> total > 0
  {
    if order == [] then []
    else
      var n := |order| - 1;
      var d := stats[order[n]];
      Candidates(order[..n], stats, total, currentLevel)
      + (if d.frequency > 0 then [Recommend(order[n], d, total, currentLevel)] else [])
  }

  lemma {:induction false} CandidatesSpec(order: seq<string>, stats: map<string, SkillStats>, total: nat, currentLevel: int)
    requires forall s :: s in order ==> s in stats
    requires order != [] ==> total > 0
    ensures var cs := Candidates(order, stats, total, currentLevel);
      && (forall c :: c in cs ==>
            && c.skill in order && stats[c.skill].frequency > 0
            && c == Recommend(c.skill, stats[c.skill], total, currentLevel))
      && (forall s :: s in order && stats[s].frequency > 0 ==> exists c :: c in cs && c.skill == s)
      && (Distinct(order) ==> forall i, j :: 0 <= i < j < |cs| ==> cs[i].skill != cs[j].skill)
  {
    if order != [] {
      var n := |order| - 1;
      var init := order[..n];
      CandidatesSpec(init, stats, total, currentLevel);
      var rest := Candidates(init, stats, total, currentLevel);
      var cs := Candidates(order, stats, total, currentLevel);
      forall s | s in order ensures s in init || s == order[n] {
        var i :| 0 <= i < |order| && order[i] == s;
        if i < n {
          assert init[i] == s;
        }
      }
      if Distinct(order) {
        assert order[n] !in init;
        forall i, j | 0 <= i < j < |cs| ensures cs[i].skill != cs[j].skill {
          if j == |rest| {
            assert cs[i] == rest[i] && rest[i] in rest;
          }
        }
      }
    }
  }

  /** `get_skill_recommendations`: the candidates ranked by priority, at
      most six. */
  function SkillRecommendations(user: Profile, twins: seq<Twin>): seq<Recommendation> {
    var a := AnalyzeTwins(twins, user.skills, user.experienceLevel);
    AnalyzeTwinsSpec(twins, user.skills, user.experienceLevel);
    AnalysisNeedsTwins(twins, user.skills, user.experienceLevel);
    Take(SortByScore(Candidates(a.order, a.stats, |twins|, user.experienceLevel), PriorityOf), 6)
  }

  /** Nothing is analysed without twins. */
  lemma AnalysisNeedsTwins(twins: seq<Twin>, current: seq<string>, level: int)
    ensures twins == [] ==> AnalyzeTwins(twins, current, level) == SkillAnalysis([], map[])
  {
  }

  /** An element the first `n` of a ranking leave out means all `n`
      places are taken by elements scoring at least as much. */
  lemma TakeRankedOmitted<T>(xs: seq<T>, score: T -> real, n: nat, x: T)
    requires x in xs && x !in Take(SortByScore(xs, score), n)
    ensures var r := Take(SortByScore(xs, score), n);
      |r| == n && (n == 0 || score(x) <= score(r[n - 1]))
  {
    var s := SortByScore(xs, score);
    SortByScorePermutation(xs, score);
    assert x in multiset(s);
    var q :| 0 <= q < |s| && s[q] == x;
    var r := Take(s, n);
    assert q >= |r|;
    if n > 0 && q > n - 1 {
      SortByScoreOrderAt(xs, score, n - 1, q);
    }
  }

  /** The first `n` of a ranking: at most `n`, best first, and no key
      twice when the ranked elements have distinct keys. */
  lemma TopRanked<T, K>(xs: seq<T>, score: T -> real, key: T -> K, n: nat)
    requires forall i, j :: 0 <= i < j < |xs| ==> key(xs[i]) != key(xs[j])
    ensures var r := Take(SortByScore(xs, score), n);
      && |r| <= n && Ordered(r, score)
      && forall i, j :: 0 <= i < j < |r| ==> key(r[i]) != key(r[j])
  {
    var sorted := SortByScore(xs, score);
    SortByScoreSpec(xs, score);
    assert Distinct(xs);
    SortByScoreDistinct(xs, score);
    var r := Take(sorted, n);
    forall i, j | 0 <= i < j < |r| ensures score(r[i]) >= score(r[j]) && key(r[i]) != key(r[j]) {
      assert r[i] == sorted[i] && r[j] == sorted[j] && r[i] != r[j];
      var p :| 0 <= p < |xs| && xs[p] == r[i];
      var q :| 0 <= q < |xs| && xs[q] == r[j];
      assert p != q;
    }
  }

  lemma AdoptionRange(frequency: nat, total: nat)
    requires 1 <= frequency <= total
    ensures 0.0 < AdoptionRate(frequency, total) <= 100.0
  {
    var q := frequency as real / total as real;
    assert q * total as real == frequency as real;
    assert q > 0.0;
    if q > 1.0 {
      assert q * total as real > 1.0 * total as real;
    }
  }

  lemma AverageAtLeast(sum: int, count: nat, level: int)
    requires count >= 1 && sum >= count * level
    ensures sum as real / count as real >= level as real
  {
    var q := sum as real / count as real;
    assert q * count as real == sum as real;
    if q < level as real {
      assert q * count as real < level as real * count as real;
    }
  }

  /** At most six recommendations, highest priority first, no skill twice. */
  lemma RecommendationsRanked(user: Profile, twins: seq<Twin>)
    ensures var r := SkillRecommendations(user, twins);
      && |r| <= 6 && Ordered(r, PriorityOf)
      && forall i, j :: 0 <= i < j < |r| ==> r[i].skill != r[j].skill
  {
    var a := AnalyzeTwins(twins, user.skills, user.experienceLevel);
    AnalyzeTwinsSpec(twins, user.skills, user.experienceLevel);
    var cs := Candidates(a.order, a.stats, |twins|, user.experienceLevel);
    CandidatesSpec(a.order, a.stats, |twins|, user.experienceLevel);
    TopRanked(cs, PriorityOf, (c: Recommendation) => c.skill, 6);
  }

  /** Each recommendation is the candidate built from the analysis of its
      skill. */
  lemma RecommendationFromAnalysis(user: Profile, twins: seq<Twin>, rec: Recommendation)
    requires rec in SkillRecommendations(user, twins)
    ensures var a := AnalyzeTwins(twins, user.skills, user.experienceLevel);
      && rec.skill in a.stats && rec.skill !in user.skills && |twins| > 0
      && a.stats[rec.skill] == HolderStats(twins, rec.skill, user.experienceLevel)
      && a.stats[rec.skill].frequency >= 1
      && a.stats[rec.skill].levelSum >= a.stats[rec.skill].frequency * user.experienceLevel
      && rec == Recommend(rec.skill, HolderStats(twins, rec.skill, user.experienceLevel), |twins|, user.experienceLevel)
  {
    var level := user.experienceLevel;
    var a := AnalyzeTwins(twins, user.skills, level);
    AnalyzeTwinsSpec(twins, user.skills, level);
    var cs := Candidates(a.order, a.stats, |twins|, level);
    CandidatesSpec(a.order, a.stats, |twins|, level);
    var sorted := SortByScore(cs, PriorityOf);
    SortByScoreSpec(cs, PriorityOf);
    assert rec in sorted;
    assert rec in cs;
  }

  /** Each recommended skill is one the user lacks and some qualifying twin
      has; its type is that of the skill. */
  lemma RecommendationSource(user: Profile, twins: seq<Twin>, rec: Recommendation)
    requires rec in SkillRecommendations(user, twins)
    ensures rec.skill !in user.skills
    ensures exists i :: 0 <= i < |twins| && Qualifies(twins[i], user.experienceLevel) && rec.skill in twins[i].profile.skills
    ensures rec.skillType == CategorizeSkillAsWritten(rec.skill)
  {
    RecommendationFromAnalysis(user, twins, rec);
    HoldersBound(twins, rec.skill, user.experienceLevel);
  }

  /** The figures of one recommendation, from the totals of its skill. */
  lemma RecommendFigures(skill: string, d: SkillStats, total: nat, level: int)
    requires d.frequency > 0 && total > 0
    ensures var rec := Recommend(skill, d, total, level);
      && rec.skill == skill
      && rec.skillType == CategorizeSkillAsWritten(skill)
      && rec.adoptionRate == AdoptionRate(d.frequency, total)
      && rec.importance == Importance(d, total)
      && rec.typicalLevel == d.levelSum as real / d.frequency as real
      && rec.priority == Priority(rec.importance, d.frequency, rec.skillType)
  {
  }

  /** The adoption rate is the share of twins that have the skill; the
      importance is that share times the summed similarity of those twins;
      the typical level is their mean level; the priority is the one the
      importance and the frequency give. */
  lemma RecommendationFigures(user: Profile, twins: seq<Twin>, rec: Recommendation)
    requires rec in SkillRecommendations(user, twins)
    ensures var h := HolderStats(twins, rec.skill, user.experienceLevel);
      && 1 <= h.frequency <= |twins|
      && rec.adoptionRate == AdoptionRate(h.frequency, |twins|)
      && rec.importance == Importance(h, |twins|)
      && rec.typicalLevel == h.levelSum as real / h.frequency as real
      && rec.priority == Priority(rec.importance, h.frequency, rec.skillType)
      && rec.priority == CandidatePriority(twins, rec.skill, user.experienceLevel)
  {
    var level := user.experienceLevel;
    RecommendationFromAnalysis(user, twins, rec);
    var h := HolderStats(twins, rec.skill, level);
    HoldersBound(twins, rec.skill, level);
    RecommendFigures(rec.skill, h, |twins|, level);
  }

  /** The adoption rate lies in (0, 100] and the typical level is at least
      the user's. */
  lemma RecommendationBounds(user: Profile, twins: seq<Twin>, rec: Recommendation)
    requires rec in SkillRecommendations(user, twins)
    ensures 0.0 < rec.adoptionRate <= 100.0
    ensures rec.typicalLevel >= user.experienceLevel as real
  {
    var level := user.experienceLevel;
    RecommendationFromAnalysis(user, twins, rec);
    RecommendationFigures(user, twins, rec);
    var h := HolderStats(twins, rec.skill, level);
    AdoptionRange(h.frequency, |twins|);
    AverageAtLeast(h.levelSum, h.frequency, level);
  }

  /** No recommendations exactly when no qualifying twin has a skill the
      user lacks. */
  lemma RecommendationsEmpty(user: Profile, twins: seq<Twin>)
    ensures SkillRecommendations(user, twins) == [] <==>
      forall i, s :: 0 <= i < |twins| && Qualifies(twins[i], user.experienceLevel) && s in twins[i].profile.skills ==> s in user.skills
  {
    var level := user.experienceLevel;
    var a := AnalyzeTwins(twins, user.skills, level);
    AnalyzeTwinsSpec(twins, user.skills, level);
    var cs := Candidates(a.order, a.stats, |twins|, level);
    CandidatesSpec(a.order, a.stats, |twins|, level);
    var r := SkillRecommendations(user, twins);
    assert |r| == if 6 < |cs| then 6 else |cs|;
    if r == [] {
      forall i, s | 0 <= i < |twins| && Qualifies(twins[i], level) && s in twins[i].profile.skills
        ensures s in user.skills
      {
        if s !in user.skills {
          HoldersBound(twins, s, level);
          assert false;
        }
      }
    } else {
      var rec := r[0];
      RecommendationSource(user, twins, rec);
    }
  }

  /** A lacking skill that is left out is outranked: all six places are
      taken by skills of at least its priority. */
  lemma RecommendationsTop(user: Profile, twins: seq<Twin>, s: string)
    requires s !in user.skills
    requires exists i :: 0 <= i < |twins| && Qualifies(twins[i], user.experienceLevel) && s in twins[i].profile.skills
    requires forall rec :: rec in SkillRecommendations(user, twins) ==> rec.skill != s
    ensures var r := SkillRecommendations(user, twins);
      |r| == 6 && |twins| > 0 && CandidatePriority(twins, s, user.experienceLevel) <= r[5].priority
  {
    var level := user.experienceLevel;
    var a := AnalyzeTwins(twins, user.skills, level);
    AnalyzeTwinsSpec(twins, user.skills, level);
    var cs := Candidates(a.order, a.stats, |twins|, level);
    CandidatesSpec(a.order, a.stats, |twins|, level);
    HoldersBound(twins, s, level);
    var c :| c in cs && c.skill == s;
    assert c == Recommend(s, HolderStats(twins, s, level), |twins|, level);
    RecommendFigures(s, HolderStats(twins, s, level), |twins|, level);
    var r := SkillRecommendations(user, twins);
    assert c !in r;
    TakeRankedOmitted(cs, PriorityOf, 6, c);
  }

  // ---------------------------------------------------------------------
  // predict_next_roles

  /** A twin's role is considered when its level is one above the user's. */
  predicate Promoted(t: Twin, level: int) {
    t.profile.experienceLevel == level + 1
  }

  /** The running totals kept per role: how many twins hold it, their
      summed similarity, their skills one after another and their company
      types. */
  datatype RoleStats = RoleStats(count: nat, similaritySum: real, requiredSkills: seq<string>, companyTypes: seq<string>)

  /** `role_predictions`: its keys in insertion order, and their totals. */
  datatype RoleGroups = RoleGroups(order: seq<string>, stats: map<string, RoleStats>)

  predicate GroupsWellFormed(g: RoleGroups) {
    && Distinct(g.order)
    && (forall r :: r in g.stats ==> r in g.order)
    && (forall r :: r in g.order ==> r in g.stats)
  }

  const NoRole := RoleStats(0, 0.0, [], [])

  /** The totals with one more twin. */
  function Joined(d: RoleStats, t: Twin): RoleStats {
    RoleStats(d.count + 1, d.similaritySum + t.similarity, d.requiredSkills + t.profile.skills, d.companyTypes + [t.profile.companyType])
  }

  /** Adds a twin to the group of its current role. */
  function AddToGroup(g: RoleGroups, t: Twin): RoleGroups {
    var role := t.profile.currentRole;
    var d := if role in g.stats then g.stats[role] else NoRole;
    RoleGroups(if role in g.stats then g.order else g.order + [role], g.stats[role := Joined(d, t)])
  }

  /** The groups after the first `|twins|` twins. */
  function GroupTwins(twins: seq<Twin>, level: int): RoleGroups {
    if twins == [] then RoleGroups([], map[])
    else
      var n := |twins| - 1;
      var g := GroupTwins(twins[..n], level);
      if Promoted(twins[n], level) then AddToGroup(g, twins[n]) else g
  }

  /** Independent reference: the totals over the promoted twins in `role`. */
  function RoleTotals(twins: seq<Twin>, role: string, level: int): RoleStats {
    if twins == [] then NoRole
    else
      var n := |twins| - 1;
      var d := RoleTotals(twins[..n], role, level);
      if Promoted(twins[n], level) && twins[n].profile.currentRole == role then Joined(d, twins[n]) else d
  }

  /** The number of promoted twins. */
  function PromotedCount(twins: seq<Twin>, level: int): nat {
    if twins == [] then 0
    else
      var n := |twins| - 1;
      PromotedCount(twins[..n], level) + (if Promoted(twins[n], level) then 1 else 0)
  }

  lemma {:induction false} RoleTotalsNone(twins: seq<Twin>, role: string, level: int)
    ensures RoleTotals(twins, role, level).count == 0 ==> RoleTotals(twins, role, level) == NoRole
  {
    if twins != [] {
      RoleTotalsNone(twins[..|twins| - 1], role, level);
    }
  }

  /** A role's count is the number of promoted twins in it, and its skill
      pool holds only their skills. */
  lemma {:induction false} RoleTotalsSpec(twins: seq<Twin>, role: string, level: int)
    ensures RoleTotals(twins, role, level).count <= PromotedCount(twins, level) <= |twins|
    ensures RoleTotals(twins, role, level).count > 0 <==>
      exists i :: 0 <= i < |twins| && Promoted(twins[i], level) && twins[i].profile.currentRole == role
    ensures forall s :: s in RoleTotals(twins, role, level).requiredSkills ==>
      exists i :: 0 <= i < |twins| && Promoted(twins[i], level) && twins[i].profile.currentRole == role && s in twins[i].profile.skills
    ensures forall c :: c in RoleTotals(twins, role, level).companyTypes ==>
      exists i :: 0 <= i < |twins| && Promoted(twins[i], level) && twins[i].profile.currentRole == role && c == twins[i].profile.companyType
  {
    if twins != [] {
      var n := |twins| - 1;
      var init := twins[..n];
      RoleTotalsSpec(init, role, level);
      forall i | 0 <= i < n ensures init[i] == twins[i] {
      }
    }
  }

  /** Sum of the counts of the groups listed in `order`. */
  function CountSum(order: seq<string>, stats: map<string, RoleStats>): int
    requires forall r :: r in order ==> r in stats
  {
    if order == [] then 0
    else
      var n := |order| - 1;
      CountSum(order[..n], stats) + stats[order[n]].count
  }

  lemma {:induction false} CountSumElsewhere(order: seq<string>, stats: map<string, RoleStats>, role: string, d: RoleStats)
    requires forall r :: r in order ==> r in stats
    requires role !in order
    ensures CountSum(order, stats[role := d]) == CountSum(order, stats)
  {
    if order != [] {
      var n := |order| - 1;
      assert role !in order[..n];
      CountSumElsewhere(order[..n], stats, role, d);
    }
  }

  lemma {:induction false} CountSumBump(order: seq<string>, stats: map<string, RoleStats>, role: string, d: RoleStats)
    requires forall r :: r in order ==> r in stats
    requires Distinct(order) && role in order && d.count == stats[role].count + 1
    ensures CountSum(order, stats[role := d]) == CountSum(order, stats) + 1
  {
    var n := |order| - 1;
    var init := order[..n];
    assert Distinct(init);
    if order[n] == role {
      assert role !in init;
      CountSumElsewhere(init, stats, role, d);
    } else {
      assert role in init by {
        var i :| 0 <= i < |order| && order[i] == role;
        assert i < n && init[i] == role;
      }
      CountSumBump(init, stats, role, d);
    }
  }

  /** `g` holds exactly the groups of the promoted twins among `twins`. */
  ghost predicate GroupsMatch(g: RoleGroups, twins: seq<Twin>, level: int) {
    && GroupsWellFormed(g)
    && (forall r :: r in g.stats <==> RoleTotals(twins, r, level).count > 0)
    && (forall r :: r in g.stats ==> g.stats[r] == RoleTotals(twins, r, level))
    && CountSum(g.order, g.stats) == PromotedCount(twins, level)
  }

  lemma AppendDistinct(order: seq<string>, role: string)
    requires Distinct(order) && role !in order
    ensures Distinct(order + [role])
  {
    var o := order + [role];
    forall i, j | 0 <= i < j < |o| ensures o[i] != o[j] {
      if j == |order| {
        assert o[i] == order[i];
      }
    }
  }

  /** The totals of a role after the last twin, from those before it. */
  lemma RoleTotalsLast(twins: seq<Twin>, role: string, level: int)
    requires twins != [] && Promoted(twins[|twins| - 1], level)
    ensures var t := twins[|twins| - 1];
      RoleTotals(twins, role, level) ==
        if t.profile.currentRole == role then Joined(RoleTotals(twins[..|twins| - 1], role, level), t)
        else RoleTotals(twins[..|twins| - 1], role, level)
  {
  }

  /** A promoted twin whose role already has a group bumps that group. */
  lemma GroupKnownRole(g: RoleGroups, twins: seq<Twin>, level: int)
    requires twins != [] && Promoted(twins[|twins| - 1], level)
    requires twins[|twins| - 1].profile.currentRole in g.stats
    requires GroupsMatch(g, twins[..|twins| - 1], level)
    ensures GroupsMatch(AddToGroup(g, twins[|twins| - 1]), twins, level)
  {
    var n := |twins| - 1;
    var t := twins[n];
    var role := t.profile.currentRole;
    var h := AddToGroup(g, t);
    assert h.order == g.order;
    CountSumBump(g.order, g.stats, role, Joined(g.stats[role], t));
    RoleTotalsLast(twins, role, level);
    forall r | r != role
      ensures (r in h.stats <==> RoleTotals(twins, r, level).count > 0)
      ensures r in h.stats ==> h.stats[r] == RoleTotals(twins, r, level)
    {
      RoleTotalsLast(twins, r, level);
    }
  }

  /** A promoted twin in a role not yet grouped opens a group at the end. */
  lemma GroupNewRole(g: RoleGroups, twins: seq<Twin>, level: int)
    requires twins != [] && Promoted(twins[|twins| - 1], level)
    requires twins[|twins| - 1].profile.currentRole !in g.stats
    requires GroupsMatch(g, twins[..|twins| - 1], level)
    ensures GroupsMatch(AddToGroup(g, twins[|twins| - 1]), twins, level)
  {
    var n := |twins| - 1;
    var t := twins[n];
    var role := t.profile.currentRole;
    var h := AddToGroup(g, t);
    assert h.order == g.order + [role];
    AppendDistinct(g.order, role);
    RoleTotalsNone(twins[..n], role, level);
    RoleTotalsLast(twins, role, level);
    CountSumElsewhere(g.order, g.stats, role, Joined(NoRole, t));
    assert CountSum(h.order, h.stats) == CountSum(g.order, g.stats) + 1;
    forall r | r != role
      ensures (r in h.stats <==> RoleTotals(twins, r, level).count > 0)
      ensures r in h.stats ==> h.stats[r] == RoleTotals(twins, r, level)
    {
      RoleTotalsLast(twins, r, level);
    }
  }

  /** The groups of the twins: one per role some promoted twin holds, listed
      once each, with exactly that role's totals; the counts add up to the
      number of promoted twins. */
  lemma {:induction false} GroupTwinsSpec(twins: seq<Twin>, level: int)
    ensures var g := GroupTwins(twins, level);
      && GroupsWellFormed(g)
      && (forall r :: r in g.stats <==> RoleTotals(twins, r, level).count > 0)
      && (forall r :: r in g.stats ==> g.stats[r] == RoleTotals(twins, r, level))
      && CountSum(g.order, g.stats) == PromotedCount(twins, level)
  {
    if twins != [] {
      var n := |twins| - 1;
      var t := twins[n];
      var g := GroupTwins(twins[..n], level);
      GroupTwinsSpec(twins[..n], level);
      if !Promoted(t, level) {
        assert GroupsMatch(g, twins, level);
      } else if t.profile.currentRole in g.stats {
        GroupKnownRole(g, twins, level);
      } else {
        GroupNewRole(g, twins, level);
      }
      assert GroupsMatch(GroupTwins(twins, level), twins, level);
    }
  }

  /** One predicted next role, with the figures it reports. */
  datatype Prediction = Prediction(
    role: string,
    probability: real,
    confidence: real,
    requiredSkills: seq<string>,
    typicalCompanies: seq<string>,
    basedOnCount: nat)

  function ProbabilityOf(p: Prediction): real {
    p.probability
  }

  function BasedOn(p: Prediction): int {
    p.basedOnCount
  }

  /** `count >= data['count'] * 0.5` */
  function HeldByHalf(count: nat): Tally<string> -> bool {
    (t: Tally<string>) => t.count as real >= count as real * 0.5
  }

  /** `if comp`: a non-empty name. */
  function IsNamed(c: string): bool {
    c != []
  }

  /** The five commonest skills of the group that at least half of its
      twins list, commonest first. */
  function TopSkills(d: RoleStats): seq<string> {
    TallyKeys(Filter(MostCommon(d.requiredSkills, 5), HeldByHalf(d.count)))
  }

  /** The non-empty names among the two commonest company types. */
  function TypicalCompanies(d: RoleStats): seq<string> {
    Filter(TallyKeys(MostCommon(d.companyTypes, 2)), IsNamed)
  }

  function Predict(role: string, d: RoleStats, total: nat): Prediction
    requires total > 0
  {
    Prediction(role, (d.similaritySum / total as real) * 100.0, AdoptionRate(d.count, total),
      Take(TopSkills(d), 3), TypicalCompanies(d), d.count)
  }

  /** One prediction per group with a positive count, in group order. */
  function PredictionCandidates(order: seq<string>, stats: map<string, RoleStats>, total: nat): seq<Prediction>
    requires forall r :: r in order ==> r in stats
    requires order != [] ==> total > 0
  {
    if order == [] then []
    else
      var n := |order| - 1;
      var d := stats[order[n]];
      PredictionCandidates(order[..n], stats, total)
      + (if d.count > 0 then [Predict(order[n], d, total)] else [])
  }

  lemma {:induction false} SumByAppend<T>(xs: seq<T>, ys: seq<T>, f: T -> int)
    ensures SumBy(xs + ys, f) == SumBy(xs, f) + SumBy(ys, f)
  {
    if xs == [] {
      assert xs + ys == ys;
    } else {
      assert (xs + ys)[0] == xs[0];
      assert (xs + ys)[1..] == xs[1..] + ys;
      SumByAppend(xs[1..], ys, f);
    }
  }

  /** Every candidate is the prediction for a listed group that has twins. */
  lemma {:induction false} PredictionCandidatesSpec(order: seq<string>, stats: map<string, RoleStats>, total: nat)
    requires forall r :: r in order ==> r in stats
    requires order != [] ==> total > 0
    ensures forall p :: p in PredictionCandidates(order, stats, total) ==>
      p.role in order && stats[p.role].count > 0 && p == Predict(p.role, stats[p.role], total)
  {
    if order != [] {
      var n := |order| - 1;
      PredictionCandidatesSpec(order[..n], stats, total);
    }
  }

  /** Every listed group that has twins gives a candidate. */
  lemma {:induction false} PredictionCandidatesComplete(order: seq<string>, stats: map<string, RoleStats>, total: nat, r: string)
    requires forall r :: r in order ==> r in stats
    requires order != [] ==> total > 0
    requires r in order && stats[r].count > 0
    ensures exists p :: p in PredictionCandidates(order, stats, total) && p.role == r
  {
    var n := |order| - 1;
    var ps := PredictionCandidates(order, stats, total);
    if order[n] == r {
      assert ps[|ps| - 1].role == r;
    } else {
      var i :| 0 <= i < |order| && order[i] == r;
      assert i < n && order[..n][i] == r;
      PredictionCandidatesComplete(order[..n], stats, total, r);
      var p :| p in PredictionCandidates(order[..n], stats, total) && p.role == r;
      assert p in ps;
    }
  }

  /** No role is predicted twice. */
  predicate DistinctRoles(ps: seq<Prediction>) {
    forall i, j :: 0 <= i < j < |ps| ==> ps[i].role != ps[j].role
  }

  /** Distinct groups give candidates with distinct roles. */
  lemma {:induction false} PredictionCandidatesDistinct(order: seq<string>, stats: map<string, RoleStats>, total: nat)
    requires forall r :: r in order ==> r in stats
    requires order != [] ==> total > 0
    requires Distinct(order)
    ensures DistinctRoles(PredictionCandidates(order, stats, total))
  {
    if order != [] {
      var n := |order| - 1;
      var init := order[..n];
      PredictionCandidatesDistinct(init, stats, total);
      var rest := PredictionCandidates(init, stats, total);
      var ps := PredictionCandidates(order, stats, total);
      var d := stats[order[n]];
      if d.count > 0 {
        var q := Predict(order[n], d, total);
        assert ps == rest + [q];
        assert order[n] !in init;
        forall i, j | 0 <= i < j < |ps| ensures ps[i].role != ps[j].role {
          if j == |rest| {
            PredictionCandidatesSpec(init, stats, total);
            assert rest[i] in rest;
          } else {
            assert ps[i] == rest[i] && ps[j] == rest[j];
          }
        }
      } else {
        assert ps == rest;
      }
    }
  }

  /** The candidates' counts add up to the groups' counts. */
  lemma {:induction false} PredictionCandidatesSum(order: seq<string>, stats: map<string, RoleStats>, total: nat)
    requires forall r :: r in order ==> r in stats
    requires order != [] ==> total > 0
    ensures SumBy(PredictionCandidates(order, stats, total), BasedOn) == CountSum(order, stats)
  {
    if order != [] {
      var n := |order| - 1;
      var d := stats[order[n]];
      var last := if d.count > 0 then [Predict(order[n], d, total)] else [];
      PredictionCandidatesSum(order[..n], stats, total);
      SumByAppend(PredictionCandidates(order[..n], stats, total), last, BasedOn);
    }
  }

  /** Nothing is grouped without twins. */
  lemma GroupsNeedTwins(twins: seq<Twin>, level: int)
    ensures twins == [] ==> GroupTwins(twins, level) == RoleGroups([], map[])
  {
  }

  /** `predict_next_roles`: the candidates ranked by probability, at most
      three. */
  function NextRolePredictions(user: Profile, twins: seq<Twin>): seq<Prediction> {
    var g := GroupTwins(twins, user.experienceLevel);
    GroupTwinsSpec(twins, user.experienceLevel);
    GroupsNeedTwins(twins, user.experienceLevel);
    Take(SortByScore(PredictionCandidates(g.order, g.stats, |twins|), ProbabilityOf), 3)
  }

  /** The required skills of a group: at most three distinct skills of its
      pool, commonest first, each listed by at least half of its twins'
      skill entries' count. */
  lemma TopSkillsSpec(d: RoleStats)
    ensures var ks := Take(TopSkills(d), 3);
      && |ks| <= 3 && Distinct(ks)
      && (forall s :: s in ks ==> s in d.requiredSkills && Occurrences(d.requiredSkills, s) as real >= d.count as real * 0.5)
      && forall i, j :: 0 <= i < j < |ks| ==> Occurrences(d.requiredSkills, ks[i]) >= Occurrences(d.requiredSkills, ks[j])
  {
    var pool := d.requiredSkills;
    var mc := MostCommon(pool, 5);
    MostCommonEntries(pool, 5);
    MostCommonDistinct(pool, 5);
    MostCommonOrdered(pool, 5);
    assert Distinct(mc) by {
      forall i, j | 0 <= i < j < |mc| ensures mc[i] != mc[j] {
        assert TallyKeys(mc)[i] == mc[i].key && TallyKeys(mc)[j] == mc[j].key;
      }
    }
    assert Ordered(mc, TallyScore);
    var f := Filter(mc, HeldByHalf(d.count));
    FilterDistinct(mc, HeldByHalf(d.count));
    FilterOrdered(mc, HeldByHalf(d.count), TallyScore);
    var keys := TallyKeys(f);
    var ks := Take(keys, 3);
    assert ks == keys[..|ks|];
    forall i | 0 <= i < |ks| ensures ks[i] in pool && Occurrences(pool, ks[i]) as real >= d.count as real * 0.5 {
      assert ks[i] == f[i].key && f[i] in mc;
    }
    forall i, j | 0 <= i < j < |ks|
      ensures ks[i] != ks[j] && Occurrences(pool, ks[i]) >= Occurrences(pool, ks[j])
    {
      assert ks[i] == f[i].key && ks[j] == f[j].key && f[i] in mc && f[j] in mc;
      assert TallyScore(f[i]) >= TallyScore(f[j]);
    }
  }

  /** The typical company types of a group: at most two distinct, non-empty
      names from its pool. */
  lemma TypicalCompaniesSpec(d: RoleStats)
    ensures var cs := TypicalCompanies(d);
      && |cs| <= 2 && Distinct(cs)
      && forall c :: c in cs ==> c != [] && c in d.companyTypes
  {
    var mc := MostCommon(d.companyTypes, 2);
    MostCommonLength(d.companyTypes, 2);
    MostCommonEntries(d.companyTypes, 2);
    MostCommonDistinct(d.companyTypes, 2);
    FilterDistinct(TallyKeys(mc), IsNamed);
    forall c | c in TypicalCompanies(d) ensures c != [] && c in d.companyTypes {
      FilterMembers(TallyKeys(mc), IsNamed, c);
      var i :| 0 <= i < |mc| && TallyKeys(mc)[i] == c;
      assert mc[i] in mc;
    }
  }

  lemma DistinctRolesSame(ps: seq<Prediction>, x: Prediction, y: Prediction)
    requires DistinctRoles(ps) && x in ps && y in ps && x.role == y.role
    ensures x == y
  {
    var a :| 0 <= a < |ps| && ps[a] == x;
    var b :| 0 <= b < |ps| && ps[b] == y;
    assert a == b;
  }

  /** At most three predictions, highest probability first, no role twice. */
  lemma PredictionsRanked(user: Profile, twins: seq<Twin>)
    ensures var r := NextRolePredictions(user, twins);
      |r| <= 3 && Ordered(r, ProbabilityOf) && DistinctRoles(r)
  {
    var level := user.experienceLevel;
    var g := GroupTwins(twins, level);
    GroupTwinsSpec(twins, level);
    var cs := PredictionCandidates(g.order, g.stats, |twins|);
    PredictionCandidatesDistinct(g.order, g.stats, |twins|);
    TopRanked(cs, ProbabilityOf, (p: Prediction) => p.role, 3);
  }

  /** Each prediction is the one built from the totals of its role over the
      promoted twins, and some promoted twin holds that role. */
  lemma PredictionFromGroups(user: Profile, twins: seq<Twin>, p: Prediction)
    requires p in NextRolePredictions(user, twins)
    ensures var d := RoleTotals(twins, p.role, user.experienceLevel);
      && |twins| > 0 && d.count > 0
      && p == Predict(p.role, d, |twins|)
  {
    var level := user.experienceLevel;
    var g := GroupTwins(twins, level);
    GroupTwinsSpec(twins, level);
    var cs := PredictionCandidates(g.order, g.stats, |twins|);
    PredictionCandidatesSpec(g.order, g.stats, |twins|);
    var sorted := SortByScore(cs, ProbabilityOf);
    SortByScoreSpec(cs, ProbabilityOf);
    assert p in sorted;
    assert p in cs;
  }

  /** The figures of a prediction: it rests on the role's promoted twins,
      at least one and at most all twins; its confidence is their share of
      the twins, in (0, 100]; its required skills and typical companies come
      from those twins. */
  lemma PredictionFigures(user: Profile, twins: seq<Twin>, p: Prediction)
    requires p in NextRolePredictions(user, twins)
    ensures var level := user.experienceLevel;
      && 1 <= p.basedOnCount == RoleTotals(twins, p.role, level).count <= |twins|
      && p.confidence == AdoptionRate(p.basedOnCount, |twins|)
      && 0.0 < p.confidence <= 100.0
      && (exists i :: 0 <= i < |twins| && Promoted(twins[i], level) && twins[i].profile.currentRole == p.role)
      && (forall s :: s in p.requiredSkills ==>
            exists i :: 0 <= i < |twins| && Promoted(twins[i], level) && twins[i].profile.currentRole == p.role && s in twins[i].profile.skills)
      && (forall c :: c in p.typicalCompanies ==>
            exists i :: 0 <= i < |twins| && Promoted(twins[i], level) && twins[i].profile.currentRole == p.role && c == twins[i].profile.companyType)
  {
    var level := user.experienceLevel;
    PredictionFromGroups(user, twins, p);
    var d := RoleTotals(twins, p.role, level);
    RoleTotalsSpec(twins, p.role, level);
    AdoptionRange(d.count, |twins|);
    TopSkillsSpec(d);
    TypicalCompaniesSpec(d);
  }

  /** Each required skill appears in the pool of the role's twins at least
      half as often as there are such twins; the list has at most three
      distinct skills, commonest first. The typical companies are at most two
      distinct non-empty names. */
  lemma PredictionLists(user: Profile, twins: seq<Twin>, p: Prediction)
    requires p in NextRolePredictions(user, twins)
    ensures var d := RoleTotals(twins, p.role, user.experienceLevel);
      && |p.requiredSkills| <= 3 && Distinct(p.requiredSkills)
      && (forall s :: s in p.requiredSkills ==> Occurrences(d.requiredSkills, s) as real >= p.basedOnCount as real * 0.5)
      && (forall i, j :: 0 <= i < j < |p.requiredSkills| ==>
            Occurrences(d.requiredSkills, p.requiredSkills[i]) >= Occurrences(d.requiredSkills, p.requiredSkills[j]))
      && |p.typicalCompanies| <= 2 && Distinct(p.typicalCompanies)
      && forall c :: c in p.typicalCompanies ==> c != []
  {
    PredictionFromGroups(user, twins, p);
    var d := RoleTotals(twins, p.role, user.experienceLevel);
    TopSkillsSpec(d);
    TypicalCompaniesSpec(d);
  }

  lemma {:induction false} RoleSimilarityBound(twins: seq<Twin>, role: string, level: int)
    requires forall i :: 0 <= i < |twins| ==> twins[i].similarity <= 1.0
    ensures RoleTotals(twins, role, level).similaritySum <= RoleTotals(twins, role, level).count as real
  {
    if twins != [] {
      var n := |twins| - 1;
      RoleSimilarityBound(twins[..n], role, level);
    }
  }

  /** With similarities of at most 1 (as cosine similarities are), a role's
      probability never exceeds its confidence. */
  lemma ProbabilityBelowConfidence(user: Profile, twins: seq<Twin>, p: Prediction)
    requires p in NextRolePredictions(user, twins)
    requires forall i :: 0 <= i < |twins| ==> twins[i].similarity <= 1.0
    ensures p.probability <= p.confidence
  {
    PredictionFromGroups(user, twins, p);
    var d := RoleTotals(twins, p.role, user.experienceLevel);
    RoleSimilarityBound(twins, p.role, user.experienceLevel);
    PercentMonotone(d.similaritySum, d.count as real, |twins| as real);
  }

  lemma PercentMonotone(x: real, y: real, t: real)
    requires t > 0.0 && x <= y
    ensures (x / t) * 100.0 <= (y / t) * 100.0
  {
    var a, b := x / t, y / t;
    assert a * t == x && b * t == y;
  }

  /** The predictions together rest on no more twins than were promoted. */
  lemma PredictionsCountTotal(user: Profile, twins: seq<Twin>)
    ensures SumBy(NextRolePredictions(user, twins), BasedOn) <= PromotedCount(twins, user.experienceLevel) <= |twins|
  {
    var level := user.experienceLevel;
    var g := GroupTwins(twins, level);
    GroupTwinsSpec(twins, level);
    RoleTotalsSpec(twins, [], level);
    var cs := PredictionCandidates(g.order, g.stats, |twins|);
    PredictionCandidatesSum(g.order, g.stats, |twins|);
    var sorted := SortByScore(cs, ProbabilityOf);
    SumBySortByScore(cs, ProbabilityOf, BasedOn);
    var r := Take(sorted, 3);
    SumByPrefix(sorted, |r|, BasedOn);
  }

  /** No prediction exactly when no twin is one level above the user. */
  lemma PredictionsEmpty(user: Profile, twins: seq<Twin>)
    ensures NextRolePredictions(user, twins) == [] <==>
      forall i :: 0 <= i < |twins| ==> !Promoted(twins[i], user.experienceLevel)
  {
    var level := user.experienceLevel;
    var r := NextRolePredictions(user, twins);
    if r != [] {
      PredictionFigures(user, twins, r[0]);
    } else if i :| 0 <= i < |twins| && Promoted(twins[i], level) {
      var role := twins[i].profile.currentRole;
      var g := GroupTwins(twins, level);
      GroupTwinsSpec(twins, level);
      RoleTotalsSpec(twins, role, level);
      PredictionCandidatesComplete(g.order, g.stats, |twins|, role);
      assert false;
    }
  }

  /** A role of a promoted twin that is left out is outranked: all three
      places are taken by roles of at least its probability. */
  lemma PredictionsTop(user: Profile, twins: seq<Twin>, role: string)
    requires exists i :: 0 <= i < |twins| && Promoted(twins[i], user.experienceLevel) && twins[i].profile.currentRole == role
    requires forall p :: p in NextRolePredictions(user, twins) ==> p.role != role
    ensures var r := NextRolePredictions(user, twins);
      |r| == 3 && |twins| > 0 && Predict(role, RoleTotals(twins, role, user.experienceLevel), |twins|).probability <= r[2].probability
  {
    var level := user.experienceLevel;
    var g := GroupTwins(twins, level);
    GroupTwinsSpec(twins, level);
    RoleTotalsSpec(twins, role, level);
    var cs := PredictionCandidates(g.order, g.stats, |twins|);
    PredictionCandidatesSpec(g.order, g.stats, |twins|);
    PredictionCandidatesComplete(g.order, g.stats, |twins|, role);
    var c :| c in cs && c.role == role;
    assert c == Predict(role, RoleTotals(twins, role, level), |twins|);
    assert c !in NextRolePredictions(user, twins);
    TakeRankedOmitted(cs, ProbabilityOf, 3, c);
  }

  /** The grouping loop of `predict_next_roles`: twin by twin, the
      promoted ones are added to the group of their role. */
  method GroupByRole(twins: seq<Twin>, level: int) returns (g: RoleGroups)
    ensures g == GroupTwins(twins, level)
  {
    var order: seq<string> := [];
    var stats: map<string, RoleStats> := map[];
    for i := 0 to |twins|
      invariant RoleGroups(order, stats) == GroupTwins(twins[..i], level)
    {
      var t := twins[i];
      assert twins[..i + 1][..i] == twins[..i];
      if t.profile.experienceLevel == level + 1 {
        var role := t.profile.currentRole;
        if role !in stats {
          order := order + [role];
          stats := stats[role := RoleStats(0, 0.0, [], [])];
        }
        var d := stats[role];
        stats := stats[role := RoleStats(d.count + 1, d.similaritySum + t.similarity,
          d.requiredSkills + t.profile.skills, d.companyTypes + [t.profile.companyType])];
      }
    }
    assert twins[..|twins|] == twins;
    g := RoleGroups(order, stats);
  }

  /** The prediction loop of `predict_next_roles`: one candidate per
      group, in the groups' order. */
  method CollectPredictions(order: seq<string>, stats: map<string, RoleStats>, total: nat) returns (preds: seq<Prediction>)
    requires forall r :: r in order ==> r in stats
    requires order != [] ==> total > 0
    ensures preds == PredictionCandidates(order, stats, total)
  {
    preds := [];
    for k := 0 to |order|
      invariant preds == PredictionCandidates(order[..k], stats, total)
    {
      assert order[..k + 1][..k] == order[..k];
      var role := order[k];
      var d := stats[role];
      if d.count > 0 {
        preds := preds + [Predict(role, d, total)];
      }
    }
    assert order[..|order|] == order;
  }

  // ---------------------------------------------------------------------
  // The matcher object

  /** `CareerMatcher`: the profiles, their feature matrix and the similarity
      matrix, which is computed on first use. `cosine` stands for what
      `cosine_similarity` gives on the feature matrix: one row and one
      column per profile. */
  class CareerMatcher {
    const profiles: seq<Profile>
    const featureMatrix: seq<seq<real>>
    const cosine: seq<seq<real>>
    var similarityMatrix: Option<seq<seq<real>>>

    /** The similarity matrix is either not yet computed or the cosine
        matrix, which is square over the profiles. */
    ghost predicate Valid()
      reads this
    {
      && |cosine| == |profiles| == |featureMatrix|
      && (forall i :: 0 <= i < |cosine| ==> |cosine[i]| == |profiles|)
      && (similarityMatrix.Some? ==> similarityMatrix.value == cosine)
    }

    constructor (profiles: seq<Profile>, featureMatrix: seq<seq<real>>, cosine: seq<seq<real>>)
      requires |cosine| == |profiles| == |featureMatrix|
      requires forall i :: 0 <= i < |cosine| ==> |cosine[i]| == |profiles|
      ensures Valid()
      ensures this.profiles == profiles && this.featureMatrix == featureMatrix && this.cosine == cosine
      ensures similarityMatrix == None
    {
      this.profiles := profiles;
      this.featureMatrix := featureMatrix;
      this.cosine := cosine;
      similarityMatrix := None;
    }

    /** `compute_similarities`: stores the cosine matrix and returns it. */
    method ComputeSimilarities() returns (m: seq<seq<real>>)
      requires Valid()
      modifies this
      ensures Valid() && similarityMatrix == Some(cosine) && m == cosine
    {
      similarityMatrix := Some(cosine);
      m := cosine;
    }

    /** `find_twins`: the `k` profiles most similar to profile `idx`, other
        than itself, most similar first; the matrix is computed if it was
        not yet. */
    method FindTwins(idx: nat, k: nat) returns (twins: seq<Twin>)
      requires Valid() && idx < |profiles|
      modifies this
      ensures Valid() && similarityMatrix == Some(cosine)
      ensures old(similarityMatrix).Some? ==> similarityMatrix == old(similarityMatrix)
      ensures twins == TwinsOf(profiles, cosine[idx], TwinIndices(cosine[idx], idx, k))
    {
      if similarityMatrix.None? {
        var _ := ComputeSimilarities();
      }
      var row := similarityMatrix.value[idx];
      var ix := TwinIndices(row, idx, k);
      twins := [];
      for t := 0 to |ix|
        invariant |twins| == t
        invariant forall j :: 0 <= j < t ==> twins[j] == Twin(profiles[ix[j]], row[ix[j]], ix[j])
      {
        twins := twins + [Twin(profiles[ix[t]], row[ix[t]], ix[t])];
      }
    }

    /** `explain_match_detailed`: the explanation lines and the match
        strength of two profiles; the strength is the weight of the lines. */
    method ExplainMatchDetailed(i1: nat, i2: nat) returns (explanations: seq<Explanation>, strength: int)
      requires i1 < |profiles| && i2 < |profiles|
      ensures explanations == Explanations(profiles[i1], profiles[i2])
      ensures strength == MatchStrength(profiles[i1], profiles[i2]) == TotalWeight(explanations)
    {
      var p1, p2 := profiles[i1], profiles[i2];
      explanations := [];
      strength := 0;
      var common := CommonSkills(p1.skills, p2.skills);
      if |common| >= 4 {
        explanations := explanations + [StrongTechStack(common[..4])];
        strength := strength + 3;
      } else if |common| >= 2 {
        explanations := explanations + [SharedTechnologies(common)];
        strength := strength + 2;
      }
      assert explanations == SkillExplanation(common) && strength == SkillBonus(|common|);
      if p1.specialization == p2.specialization {
        explanations := explanations + [SameSpecialization(p1.specialization)];
        strength := strength + 2;
      }
      assert explanations == SkillExplanation(common) + Line(p1.specialization == p2.specialization, SameSpecialization(p1.specialization));
      if p1.experienceLevel == p2.experienceLevel {
        explanations := explanations + [SameLevel(LevelName(p1.experienceLevel))];
        strength := strength + 1;
      }
      assert explanations == SkillExplanation(common)
        + Line(p1.specialization == p2.specialization, SameSpecialization(p1.specialization))
        + Line(p1.experienceLevel == p2.experienceLevel, SameLevel(LevelName(p1.experienceLevel)));
      if p1.companyType == p2.companyType {
        explanations := explanations + [SimilarCompanyType(p1.companyType)];
        strength := strength + 1;
      }
      if BothRemoteFriendly(p1, p2) {
        explanations := explanations + [BothRemote];
      }
      StrengthIsTotalWeight(p1, p2);
    }

    /** One twin's share of the tally: a count for each of `skills`, with the
        twin's level and similarity. */
    method CountSkills(order0: seq<string>, stats0: map<string, SkillStats>, skills: seq<string>, level: int, similarity: real)
      returns (order: seq<string>, stats: map<string, SkillStats>)
      ensures SkillAnalysis(order, stats) == CountAll(SkillAnalysis(order0, stats0), skills, level, similarity)
    {
      order, stats := order0, stats0;
      for j := 0 to |skills|
        invariant SkillAnalysis(order, stats) == CountAll(SkillAnalysis(order0, stats0), skills[..j], level, similarity)
      {
        var skill := skills[j];
        assert skills[..j + 1][..j] == skills[..j];
        ghost var prev := SkillAnalysis(order, stats);
        if skill !in stats {
          order := order + [skill];
          stats := stats[skill := NoStats];
        }
        var d := stats[skill];
        stats := stats[skill := SkillStats(d.frequency + 1, d.levelSum + level, d.similaritySum + similarity)];
        assert SkillAnalysis(order, stats) == Count(prev, skill, level, similarity);
      }
      assert skills[..|skills|] == skills;
    }

    /** The tally of `get_skill_recommendations`: for each twin at the
        user's level or above, one count for each skill it has that the user
        lacks. */
    method TallySkills(user: Profile, twins: seq<Twin>) returns (order: seq<string>, stats: map<string, SkillStats>)
      ensures SkillAnalysis(order, stats) == AnalyzeTwins(twins, user.skills, user.experienceLevel)
    {
      var level := user.experienceLevel;
      order, stats := [], map[];
      for i := 0 to |twins|
        invariant SkillAnalysis(order, stats) == AnalyzeTwins(twins[..i], user.skills, level)
      {
        var t := twins[i];
        assert twins[..i + 1][..i] == twins[..i];
        if t.profile.experienceLevel >= level {
          order, stats := CountSkills(order, stats, MissingSkills(t.profile.skills, user.skills),
            t.profile.experienceLevel, t.similarity);
        }
      }
      assert twins[..|twins|] == twins;
    }

    /** `get_skill_recommendations`: the skills the twins suggest to profile
        `idx`: one candidate per tallied skill, ranked by priority, at most
        six. */
    method GetSkillRecommendations(idx: nat, twins: seq<Twin>) returns (recs: seq<Recommendation>)
      requires idx < |profiles|
      ensures recs == SkillRecommendations(profiles[idx], twins)
    {
      var user := profiles[idx];
      var level := user.experienceLevel;
      var order, stats := TallySkills(user, twins);
      AnalyzeTwinsSpec(twins, user.skills, level);
      AnalysisNeedsTwins(twins, user.skills, level);
      recs := [];
      for k := 0 to |order|
        invariant recs == Candidates(order[..k], stats, |twins|, level)
      {
        assert order[..k + 1][..k] == order[..k];
        var skill := order[k];
        var d := stats[skill];
        if d.frequency > 0 {
          recs := recs + [Recommend(skill, d, |twins|, level)];
        }
      }
      assert order[..|order|] == order;
      recs := Take(SortByScore(recs, PriorityOf), 6);
    }

    /** `predict_next_roles`: the roles the twins one level up hold,
        grouped twin by twin. */
    method PredictNextRoles(idx: nat, twins: seq<Twin>) returns (preds: seq<Prediction>)
      requires idx < |profiles|
      ensures preds == NextRolePredictions(profiles[idx], twins)
    {
      var level := profiles[idx].experienceLevel;
      var g := GroupByRole(twins, level);
      GroupTwinsSpec(twins, level);
      GroupsNeedTwins(twins, level);
      preds := CollectPredictions(g.order, g.stats, |twins|);
      preds := Take(SortByScore(preds, ProbabilityOf), 3);
    }
  }
}
