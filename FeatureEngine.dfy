/** The numeric view of a tech profile (src/feature_engine.py): vocabularies
    fitted on a corpus, the thirty most common skills, and a vector of fifty
    reals per profile. Vocabulary codes are positions in the fitted
    vocabulary, which lists the distinct values in order of first
    occurrence. */
module FeatureEngine {
  import opened Strings
  import opened Ranking
  import opened Profiles

  /** Every feature vector has this many slots. */
  const Width := 50

  /** How many of the most common skills get an indicator slot. */
  const TopSkillCount := 30

  /** Slots before the skill indicators. */
  const BaseWidth := 13

  // ---------------------------------------------------------------------
  // fit

  /** The fitted state: one vocabulary per encoded field and the top skills. */
  datatype Encoders = Encoders(
    roles: seq<string>,
    companies: seq<Option<string>>,
    locations: seq<Option<string>>,
    specializations: seq<string>,
    companyTypes: seq<string>,
    allSkills: seq<string>)

  function Roles(ps: seq<Profile>): seq<string>
  {
    seq(|ps|, i requires 0 <= i < |ps| => ps[i].currentRole)
  }

  function Companies(ps: seq<Profile>): seq<Option<string>>
  {
    seq(|ps|, i requires 0 <= i < |ps| => ps[i].currentCompany)
  }

  function Locations(ps: seq<Profile>): seq<Option<string>>
  {
    seq(|ps|, i requires 0 <= i < |ps| => ps[i].location)
  }

  function Specializations(ps: seq<Profile>): seq<string>
  {
    seq(|ps|, i requires 0 <= i < |ps| => ps[i].specialization)
  }

  function CompanyTypes(ps: seq<Profile>): seq<string>
  {
    seq(|ps|, i requires 0 <= i < |ps| => ps[i].companyType)
  }

  /** The skills of all profiles, one profile after the other. */
  function SkillPool(ps: seq<Profile>): seq<string> {
    if ps == [] then [] else SkillPool(ps[..|ps| - 1]) + ps[|ps| - 1].skills
  }

  /** The thirty most common skills of the corpus, most common first. */
  function TopSkills(ps: seq<Profile>): seq<string> {
    TallyKeys(MostCommon(SkillPool(ps), TopSkillCount))
  }

  /** What `fit` leaves behind: each vocabulary holds the corpus values and
      the fallback tokens. */
  function Fitted(ps: seq<Profile>): Encoders {
    Encoders(
      FirstSeen(Roles(ps) + ["Unknown"]),
      FirstSeen(Companies(ps) + [Some("Unknown")]),
      FirstSeen(Locations(ps) + [Some("Unknown")]),
      FirstSeen(Specializations(ps) + ["General", "Unknown"]),
      FirstSeen(CompanyTypes(ps) + ["Unknown"]),
      TopSkills(ps))
  }

  /** The vocabularies whose size divides a code are non-empty. */
  predicate Ready(e: Encoders) {
    |e.roles| > 0 && |e.companies| > 0 && |e.locations| > 0
  }

  lemma SkillPoolStep(ps: seq<Profile>, i: int)
    requires 0 <= i < |ps|
    ensures SkillPool(ps[..i + 1]) == SkillPool(ps[..i]) + ps[i].skills
  {
    assert ps[..i + 1][..i] == ps[..i];
  }

  /** A skill is in the pool exactly when some profile has it. */
  lemma {:induction false} SkillPoolMembers(ps: seq<Profile>, s: string)
    ensures s in SkillPool(ps) <==> exists i :: 0 <= i < |ps| && s in ps[i].skills
  {
    if ps != [] {
      var n := |ps| - 1;
      SkillPoolMembers(ps[..n], s);
      if s in SkillPool(ps[..n]) {
        var i :| 0 <= i < n && s in ps[..n][i].skills;
        assert s in ps[i].skills;
      }
      if exists i :: 0 <= i < |ps| && s in ps[i].skills {
        var i :| 0 <= i < |ps| && s in ps[i].skills;
        if i < n {
          assert s in ps[..n][i].skills;
        }
      }
    }
  }

  /** A sequence's elements all survive de-duplication. */
  lemma FirstSeenKeeps<T>(xs: seq<T>, x: T)
    requires x in xs
    ensures x in FirstSeen(xs)
  {
    var i :| 0 <= i < |xs| && xs[i] == x;
  }

  /** After `fit` every vocabulary is duplicate-free and holds its fallback
      tokens and every value of the corpus, so no lookup of a corpus value
      falls back. */
  lemma FittedVocabularies(ps: seq<Profile>)
    ensures var e := Fitted(ps);
      && Ready(e)
      && "Unknown" in e.roles && Some("Unknown") in e.companies && Some("Unknown") in e.locations
      && "General" in e.specializations && "Unknown" in e.specializations && "Unknown" in e.companyTypes
      && Distinct(e.roles) && Distinct(e.companies) && Distinct(e.locations)
      && Distinct(e.specializations) && Distinct(e.companyTypes)
      && forall i :: 0 <= i < |ps| ==>
        && ps[i].currentRole in e.roles && ps[i].currentCompany in e.companies
        && ps[i].location in e.locations && ps[i].specialization in e.specializations
        && ps[i].companyType in e.companyTypes
  {
    var n := |ps|;
    FirstSeenKeeps(Roles(ps) + ["Unknown"], "Unknown");
    FirstSeenKeeps(Companies(ps) + [Some("Unknown")], Some("Unknown"));
    FirstSeenKeeps(Locations(ps) + [Some("Unknown")], Some("Unknown"));
    FirstSeenKeeps(Specializations(ps) + ["General", "Unknown"], "General");
    FirstSeenKeeps(Specializations(ps) + ["General", "Unknown"], "Unknown");
    FirstSeenKeeps(CompanyTypes(ps) + ["Unknown"], "Unknown");
    forall i | 0 <= i < n
      ensures var e := Fitted(ps);
        && ps[i].currentRole in e.roles && ps[i].currentCompany in e.companies
        && ps[i].location in e.locations && ps[i].specialization in e.specializations
        && ps[i].companyType in e.companyTypes
    {
      assert (Roles(ps) + ["Unknown"])[i] == ps[i].currentRole;
      assert (Companies(ps) + [Some("Unknown")])[i] == ps[i].currentCompany;
      assert (Locations(ps) + [Some("Unknown")])[i] == ps[i].location;
      assert (Specializations(ps) + ["General", "Unknown"])[i] == ps[i].specialization;
      assert (CompanyTypes(ps) + ["Unknown"])[i] == ps[i].companyType;
    }
  }

  /** At most thirty skills, none twice, each held by some profile. */
  lemma TopSkillsDistinct(ps: seq<Profile>)
    ensures var pool, r := SkillPool(ps), TopSkills(ps);
      && |r| <= TopSkillCount && Distinct(r)
      && forall i :: 0 <= i < |r| ==> r[i] in pool
  {
    var pool := SkillPool(ps);
    var t := MostCommon(pool, TopSkillCount);
    MostCommonLength(pool, TopSkillCount);
    MostCommonDistinct(pool, TopSkillCount);
    MostCommonTies(pool, TopSkillCount);
  }

  /** Most frequent first; equally frequent skills in order of first appearance. */
  lemma TopSkillsOrdered(ps: seq<Profile>)
    ensures var pool, r := SkillPool(ps), TopSkills(ps);
      && (forall i :: 0 <= i < |r| ==> r[i] in pool)
      && (forall i, j :: 0 <= i < j < |r| ==> Occurrences(pool, r[i]) >= Occurrences(pool, r[j]))
      && (forall i, j :: 0 <= i < j < |r| && Occurrences(pool, r[i]) == Occurrences(pool, r[j]) ==>
            IndexOf(pool, r[i]) < IndexOf(pool, r[j]))
  {
    var pool := SkillPool(ps);
    var t := MostCommon(pool, TopSkillCount);
    var r := TopSkills(ps);
    MostCommonEntries(pool, TopSkillCount);
    MostCommonOrdered(pool, TopSkillCount);
    MostCommonTies(pool, TopSkillCount);
    forall i | 0 <= i < |r| ensures Occurrences(pool, r[i]) == t[i].count {
      assert t[i] in t;
    }
  }

  /** A skill left out of the top list is no more frequent than the last
      one kept, and it is only left out when the list is full. */
  lemma TopSkillsComplete(ps: seq<Profile>, s: string)
    requires exists i :: 0 <= i < |ps| && s in ps[i].skills
    requires s !in TopSkills(ps)
    ensures var pool, r := SkillPool(ps), TopSkills(ps);
      |r| == TopSkillCount && Occurrences(pool, s) <= Occurrences(pool, r[TopSkillCount - 1])
  {
    var pool := SkillPool(ps);
    SkillPoolMembers(ps, s);
    MostCommonOmitted(pool, TopSkillCount, s);
    MostCommonEntries(pool, TopSkillCount);
    var t := MostCommon(pool, TopSkillCount);
    assert t[TopSkillCount - 1] in t;
  }

  // ---------------------------------------------------------------------
  // _extract_features

  /** Average years per career step; 2.0 for an empty path. */
  function AvgTenure(path: seq<CareerStep>): real {
    if path == [] then 2.0 else TotalYears(path) as real / |path| as real
  }

  /** The remote flag as a number; a missing flag counts as 0.0. */
  function RemoteFlag(r: Option<real>): real {
    match r
    case None => 0.0
    case Some(x) => x
  }

  /** The median salary capped at 500000 and scaled to 0..10; 5.0 without one. */
  function SalarySignal(s: Option<map<SalaryKey, real>>): real {
    if s.Some? && Median in s.value then
      var m := s.value[Median];
      (if m <= 500000.0 then m else 500000.0) / 500000.0 * 10.0
    else 5.0
  }

  /** The work-type weight table; anything not listed, a missing value
      included, weighs as full time. */
  function WorkTypeWeight(w: Option<string>): real {
    if w == Some("Full-time") then 1.0
    else if w == Some("Part-time") then 0.5
    else if w == Some("Contract") then 0.7
    else if w == Some("Internship") then 0.2
    else if w == Some("Freelance") then 0.6
    else 1.0
  }

  /** A company or location as the vocabulary test sees it: a missing (NaN)
      value equals nothing, not even itself, so it is never found and is
      looked up as the fallback. */
  function Present(x: Option<string>, fallback: Option<string>): Option<string> {
    if x.None? then fallback else x
  }

  /** `encoder.transform([x])[0]`, looking up `fallback` for an unseen
      value; 0 when the fallback is unseen too (the `except` branch). */
  function Code<T(==)>(vocab: seq<T>, x: T, fallback: T): (c: nat)
    ensures vocab != [] ==> c < |vocab|
    ensures x in vocab ==> vocab[c] == x
    ensures x !in vocab && fallback in vocab ==> vocab[c] == fallback
  {
    if x in vocab then IndexOf(vocab, x)
    else if fallback in vocab then IndexOf(vocab, fallback)
    else 0
  }

  /** A code divided by the vocabulary size. */
  function Normalized<T(==)>(vocab: seq<T>, x: T, fallback: T): real
    requires vocab != []
  {
    Code(vocab, x, fallback) as real / |vocab| as real
  }

  /** The thirteen slots before the skill indicators. */
  function Base(e: Encoders, p: Profile): (r: seq<real>)
    requires Ready(e)
    ensures |r| == BaseWidth
  {
    [ p.experienceLevel as real,
      |p.skills| as real,
      |p.careerPath| as real,
      TotalYears(p.careerPath) as real,
      AvgTenure(p.careerPath),
      RemoteFlag(p.remoteAllowed),
      SalarySignal(p.salaryInfo),
      WorkTypeWeight(p.workType),
      Code(e.specializations, p.specialization, "General") as real,
      Code(e.companyTypes, p.companyType, "Unknown") as real,
      Normalized(e.roles, p.currentRole, "Unknown"),
      Normalized(e.companies, Present(p.currentCompany, Some("Unknown")), Some("Unknown")),
      Normalized(e.locations, Present(p.location, Some("Unknown")), Some("Unknown")) ]
  }

  /** One slot per top skill: 1.0 when the profile has it, else 0.0. */
  function Indicators(top: seq<string>, skills: seq<string>): (r: seq<real>)
    ensures |r| == |top|
  {
    seq(|top|, i requires 0 <= i < |top| => if top[i] in skills then 1.0 else 0.0)
  }

  /** A skill category: its member skills and the count that scales to 1.0. */
  datatype Category = Category(members: seq<string>, scale: real)

  const SkillCategories: seq<Category> := [
    Category(["Python", "Java", "JavaScript", "TypeScript", "C++", "Go", "Rust", "Ruby"], 5.0),
    Category(["React", "Angular", "Vue", "HTML", "CSS", "Redux"], 3.0),
    Category(["Node.Js", "Django", "Flask", "Spring", "Express"], 3.0),
    Category(["AWS", "Azure", "GCP", "Docker", "Kubernetes"], 3.0),
    Category(["SQL", "MongoDB", "PostgreSQL", "MySQL", "Redis"], 3.0),
    Category(["Machine Learning", "TensorFlow", "PyTorch", "Scikit-Learn"], 2.0)]

  /** How many entries of `members` the profile has. */
  function CountIn(members: seq<string>, skills: seq<string>): (n: nat)
    ensures n <= |members|
  {
    if members == [] then 0
    else (if members[0] in skills then 1 else 0) + CountIn(members[1..], skills)
  }

  /** The number of categories with at least one skill of the profile. */
  function NonEmptyCategories(cats: seq<Category>, skills: seq<string>): (n: nat)
    ensures n <= |cats|
  {
    if cats == [] then 0
    else (if CountIn(cats[0].members, skills) > 0 then 1 else 0) + NonEmptyCategories(cats[1..], skills)
  }

  /** The six scaled category counts, then the diversity ratio. */
  function CategoryFeatures(skills: seq<string>): (r: seq<real>)
    ensures |r| == |SkillCategories| + 1
  {
    seq(|SkillCategories|, k requires 0 <= k < |SkillCategories| =>
      CountIn(SkillCategories[k].members, skills) as real / SkillCategories[k].scale)
    + [NonEmptyCategories(SkillCategories, skills) as real / 6.0]
  }

  /** The slots in the order they are appended, before padding. */
  function RawFeatures(e: Encoders, p: Profile): (r: seq<real>)
    requires Ready(e)
    ensures |r| == BaseWidth + |e.allSkills| + |SkillCategories| + 1
  {
    Base(e, p) + Indicators(e.allSkills, p.skills) + CategoryFeatures(p.skills)
  }

  /** `xs` followed by zeros up to length `n`. */
  function Pad(xs: seq<real>, n: nat): (r: seq<real>)
    ensures |r| == if |xs| < n then n else |xs|
  {
    if |xs| < n then xs + Repeat(0.0, n - |xs|) else xs
  }

  /** The feature vector of a profile. */
  function FeatureVector(e: Encoders, p: Profile): (v: seq<real>)
    requires Ready(e)
    ensures |v| == Width
  {
    Take(Pad(RawFeatures(e, p), Width), Width)
  }

  /** A slot holds the value appended at its position, or padding. */
  lemma SlotValue(e: Encoders, p: Profile, i: int)
    requires Ready(e) && 0 <= i < Width
    ensures var raw := RawFeatures(e, p);
      FeatureVector(e, p)[i] == if i < |raw| then raw[i] else 0.0
  {
    var raw := RawFeatures(e, p);
    var padded := Pad(raw, Width);
    assert FeatureVector(e, p)[i] == padded[i];
    if |raw| < Width && i >= |raw| {
      assert padded[i] == Repeat(0.0, Width - |raw|)[i - |raw|];
    }
  }

  lemma BaseSlot(e: Encoders, p: Profile, i: int)
    requires Ready(e) && 0 <= i < BaseWidth
    ensures FeatureVector(e, p)[i] == Base(e, p)[i]
  {
    SlotValue(e, p, i);
  }

  /** Slots 3 and 4: the years along the career path, and the years per
      step, which times the number of steps gives the total back. */
  lemma TenureSlots(e: Encoders, p: Profile)
    requires Ready(e)
    ensures var v := FeatureVector(e, p);
      && v[2] == |p.careerPath| as real
      && v[3] == TotalYears(p.careerPath) as real
      && (p.careerPath != [] ==> v[4] * v[2] == v[3])
      && (p.careerPath == [] ==> v[3] == 0.0 && v[4] == 2.0)
  {
    BaseSlot(e, p, 2);
    BaseSlot(e, p, 3);
    BaseSlot(e, p, 4);
  }

  /** Slot 6: the capped, scaled median salary, 5.0 without a median. */
  lemma SalarySlot(e: Encoders, p: Profile)
    requires Ready(e)
    ensures var v := FeatureVector(e, p);
      && (p.salaryInfo.None? || Median !in p.salaryInfo.value ==> v[6] == 5.0)
      && (p.salaryInfo.Some? && Median in p.salaryInfo.value ==>
          var m := p.salaryInfo.value[Median];
          && (0.0 <= m ==> 0.0 <= v[6] <= 10.0)
          && (m <= 500000.0 ==> v[6] * 50000.0 == m)
          && (m >= 500000.0 ==> v[6] == 10.0))
  {
    BaseSlot(e, p, 6);
  }

  /** Slot 7: a weight below full time only for the four listed work types. */
  lemma WorkTypeSlot(e: Encoders, p: Profile)
    requires Ready(e)
    ensures var v := FeatureVector(e, p);
      && (v[7] == 1.0 || v[7] == 0.5 || v[7] == 0.7 || v[7] == 0.2 || v[7] == 0.6)
      && (v[7] != 1.0 <==>
          p.workType in {Some("Part-time"), Some("Contract"), Some("Internship"), Some("Freelance")})
  {
    BaseSlot(e, p, 7);
  }

  /** A normalized code lies in [0, 1). */
  lemma NormalizedRange<T>(vocab: seq<T>, x: T, fallback: T)
    requires vocab != []
    ensures 0.0 <= Normalized(vocab, x, fallback) < 1.0
  {
    FractionBelowOne(Code(vocab, x, fallback) as real, |vocab| as real);
  }

  lemma FractionBelowOne(c: real, n: real)
    requires 0.0 <= c < n
    ensures 0.0 <= c / n < 1.0
  {
    assert c / n * n == c;
  }

  /** Slots 10 to 12 lie in [0, 1). */
  lemma CodeSlotsInRange(e: Encoders, p: Profile)
    requires Ready(e)
    ensures var v := FeatureVector(e, p);
      0.0 <= v[10] < 1.0 && 0.0 <= v[11] < 1.0 && 0.0 <= v[12] < 1.0
  {
    BaseSlot(e, p, 10);
    BaseSlot(e, p, 11);
    BaseSlot(e, p, 12);
    NormalizedRange(e.roles, p.currentRole, "Unknown");
    NormalizedRange(e.companies, Present(p.currentCompany, Some("Unknown")), Some("Unknown"));
    NormalizedRange(e.locations, Present(p.location, Some("Unknown")), Some("Unknown"));
  }

  /** A missing company or location is encoded as 'Unknown' is. */
  lemma MissingPlaceIsUnknown(e: Encoders, p: Profile)
    requires Ready(e)
    ensures p.currentCompany.None? ==>
      FeatureVector(e, p)[11] == FeatureVector(e, p.(currentCompany := Some("Unknown")))[11]
    ensures p.location.None? ==>
      FeatureVector(e, p)[12] == FeatureVector(e, p.(location := Some("Unknown")))[12]
  {
    BaseSlot(e, p, 11);
    BaseSlot(e, p, 12);
    BaseSlot(e, p.(currentCompany := Some("Unknown")), 11);
    BaseSlot(e, p.(location := Some("Unknown")), 12);
  }

  /** Slots 8 and 9 are positions in their vocabularies. */
  lemma CategoricalCodeSlots(e: Encoders, p: Profile)
    requires Ready(e)
    ensures var v := FeatureVector(e, p);
      && 0.0 <= v[8] && (e.specializations != [] ==> v[8] < |e.specializations| as real)
      && 0.0 <= v[9] && (e.companyTypes != [] ==> v[9] < |e.companyTypes| as real)
  {
    BaseSlot(e, p, 8);
    BaseSlot(e, p, 9);
  }

  lemma ShareInjective(a: nat, b: nat, n: nat)
    requires n > 0 && a != b
    ensures a as real / n as real != b as real / n as real
  {
    var x := a as real / n as real;
    var y := b as real / n as real;
    assert x * n as real == a as real && y * n as real == b as real;
  }

  /** Two roles the vocabulary knows get the same code exactly when they are
      the same role. */
  lemma RoleCodesSeparate(e: Encoders, p: Profile, q: Profile)
    requires Ready(e) && Distinct(e.roles)
    requires p.currentRole in e.roles && q.currentRole in e.roles
    ensures FeatureVector(e, p)[10] == FeatureVector(e, q)[10] <==> p.currentRole == q.currentRole
  {
    BaseSlot(e, p, 10);
    BaseSlot(e, q, 10);
    var a := Code(e.roles, p.currentRole, "Unknown");
    var b := Code(e.roles, q.currentRole, "Unknown");
    if a == b {
      assert e.roles[a] == p.currentRole && e.roles[b] == q.currentRole;
    }
    if p.currentRole != q.currentRole {
      assert a != b;
      ShareInjective(a, b, |e.roles|);
    }
  }

  /** Slot 13 + i says whether the profile has the i-th top skill. */
  lemma SkillIndicatorSlot(e: Encoders, p: Profile, i: int)
    requires Ready(e) && 0 <= i < |e.allSkills| && BaseWidth + i < Width
    ensures var v := FeatureVector(e, p);
      && (v[BaseWidth + i] == 1.0 <==> e.allSkills[i] in p.skills)
      && (v[BaseWidth + i] == 0.0 <==> e.allSkills[i] !in p.skills)
  {
    SlotValue(e, p, BaseWidth + i);
    var raw := RawFeatures(e, p);
    assert raw[BaseWidth + i] == Indicators(e.allSkills, p.skills)[i];
  }

  /** The category count is positive exactly when the profile has a member. */
  lemma {:induction false} CountInPositive(members: seq<string>, skills: seq<string>)
    ensures CountIn(members, skills) > 0 <==> exists j :: 0 <= j < |members| && members[j] in skills
  {
    if members != [] {
      CountInPositive(members[1..], skills);
      if exists j :: 0 <= j < |members| && members[j] in skills {
        var j :| 0 <= j < |members| && members[j] in skills;
        if j > 0 {
          assert members[1..][j - 1] in skills;
        }
      }
      if exists j :: 0 <= j < |members[1..]| && members[1..][j] in skills {
        var j :| 0 <= j < |members[1..]| && members[1..][j] in skills;
        assert members[j + 1] in skills;
      }
    }
  }

  /** With at most thirty top skills, category k sits right after the
      indicators: it is positive exactly when the profile has a skill of
      that category, and at most the category size over its scale. */
  lemma CategorySlot(e: Encoders, p: Profile, k: int)
    requires Ready(e) && |e.allSkills| <= TopSkillCount && 0 <= k < |SkillCategories|
    ensures var v, c := FeatureVector(e, p), SkillCategories[k];
      && 0.0 <= v[BaseWidth + |e.allSkills| + k] <= |c.members| as real / c.scale
      && (v[BaseWidth + |e.allSkills| + k] > 0.0 <==>
          exists j :: 0 <= j < |c.members| && c.members[j] in p.skills)
  {
    var i := BaseWidth + |e.allSkills| + k;
    SlotValue(e, p, i);
    assert RawFeatures(e, p)[i] == CategoryFeatures(p.skills)[k];
    CategoryFeature(p.skills, k);
    CategoryRatio(SkillCategories[k], p.skills);
  }

  lemma CategoryFeature(skills: seq<string>, k: int)
    requires 0 <= k < |SkillCategories|
    ensures SkillCategories[k].scale > 0.0
    ensures CategoryFeatures(skills)[k] == CountIn(SkillCategories[k].members, skills) as real / SkillCategories[k].scale
  {
  }

  /** A scaled category count lies between 0 and the category size over the
      scale, and is positive exactly when the profile has a member. */
  lemma CategoryRatio(c: Category, skills: seq<string>)
    requires c.scale > 0.0
    ensures var x := CountIn(c.members, skills) as real / c.scale;
      && 0.0 <= x <= |c.members| as real / c.scale
      && (x > 0.0 <==> exists j :: 0 <= j < |c.members| && c.members[j] in skills)
  {
    CountInPositive(c.members, skills);
    ScaleDown(CountIn(c.members, skills) as real, |c.members| as real, c.scale);
  }

  /** Dividing by a positive scale keeps order and sign. */
  lemma ScaleDown(a: real, b: real, s: real)
    requires 0.0 <= a <= b && s > 0.0
    ensures 0.0 <= a / s <= b / s && (a / s > 0.0 <==> a > 0.0)
  {
    assert (b / s - a / s) * s == b - a;
    assert (a / s) * s == a;
  }

  /** The number of categories with a member present is positive exactly
      when some category has one. */
  lemma {:induction false} NonEmptyCategoriesPositive(cats: seq<Category>, skills: seq<string>)
    ensures NonEmptyCategories(cats, skills) > 0 <==>
      exists k :: 0 <= k < |cats| && CountIn(cats[k].members, skills) > 0
  {
    if cats != [] {
      NonEmptyCategoriesPositive(cats[1..], skills);
      if exists k :: 0 <= k < |cats| && CountIn(cats[k].members, skills) > 0 {
        var k :| 0 <= k < |cats| && CountIn(cats[k].members, skills) > 0;
        if k > 0 {
          assert CountIn(cats[1..][k - 1].members, skills) > 0;
        }
      }
      if exists k :: 0 <= k < |cats[1..]| && CountIn(cats[1..][k].members, skills) > 0 {
        var k :| 0 <= k < |cats[1..]| && CountIn(cats[1..][k].members, skills) > 0;
        assert CountIn(cats[k + 1].members, skills) > 0;
      }
    }
  }

  /** The diversity slot lies in [0, 1] and is zero exactly when no
      category has a skill of the profile. */
  lemma DiversitySlot(e: Encoders, p: Profile)
    requires Ready(e) && |e.allSkills| <= TopSkillCount
    ensures var v := FeatureVector(e, p);
      var d := v[BaseWidth + |e.allSkills| + |SkillCategories|];
      && 0.0 <= d <= 1.0
      && (d == 0.0 <==> forall k :: 0 <= k < |SkillCategories| ==> CountIn(SkillCategories[k].members, p.skills) == 0)
  {
    var i := BaseWidth + |e.allSkills| + |SkillCategories|;
    SlotValue(e, p, i);
    var raw := RawFeatures(e, p);
    assert raw[i] == CategoryFeatures(p.skills)[|SkillCategories|];
    NonEmptyCategoriesPositive(SkillCategories, p.skills);
  }

  /** Everything after the diversity slot is zero padding. */
  lemma PaddingSlots(e: Encoders, p: Profile)
    requires Ready(e)
    ensures var v := FeatureVector(e, p);
      forall i :: BaseWidth + |e.allSkills| + |SkillCategories| + 1 <= i < Width ==> v[i] == 0.0
  {
    forall i | BaseWidth + |e.allSkills| + |SkillCategories| + 1 <= i < Width
      ensures FeatureVector(e, p)[i] == 0.0
    {
      SlotValue(e, p, i);
    }
  }

  // ---------------------------------------------------------------------
  // get_feature_importance

  const BaseNames: seq<string> := [
    "experience_level", "num_skills", "career_path_length", "total_years", "avg_tenure",
    "remote_allowed", "salary_normalized", "work_type", "specialization", "company_type",
    "role_encoded", "company_encoded", "location_encoded"]

  const CategoryNames: seq<string> := [
    "prog_lang_count", "frontend_count", "backend_count", "cloud_count",
    "database_count", "ml_count", "skill_diversity"]

  function SkillNames(top: seq<string>): (r: seq<string>)
    ensures |r| == |top|
  {
    seq(|top|, i requires 0 <= i < |top| => "skill_" + top[i])
  }

  /** The name of each feature slot, cut at fifty. */
  function FeatureNames(top: seq<string>): seq<string> {
    Take(BaseNames + SkillNames(top) + CategoryNames, Width)
  }

  /** At most fifty names; with at most thirty top skills there is one name
      per slot before the padding, and the names line up with the slots:
      "skill_" + the i-th top skill names slot 13 + i, and the category
      names follow the indicators. */
  lemma FeatureNamesAligned(top: seq<string>)
    ensures |FeatureNames(top)| <= Width
    ensures |top| <= TopSkillCount ==>
      var r := FeatureNames(top);
      && |r| == BaseWidth + |top| + |CategoryNames|
      && (forall i :: 0 <= i < |top| ==> r[BaseWidth + i] == "skill_" + top[i])
      && (forall k :: 0 <= k < |CategoryNames| ==> r[BaseWidth + |top| + k] == CategoryNames[k])
  {
    var all := BaseNames + SkillNames(top) + CategoryNames;
    if |top| <= TopSkillCount {
      assert FeatureNames(top) == all;
      forall i | 0 <= i < |top| ensures all[BaseWidth + i] == "skill_" + top[i] {
        assert all[BaseWidth + i] == SkillNames(top)[i];
      }
    }
  }

  // ---------------------------------------------------------------------
  // The engine

  class FeatureEngine {
    var roles: seq<string>
    var companies: seq<Option<string>>
    var locations: seq<Option<string>>
    var specializations: seq<string>
    var companyTypes: seq<string>
    var allSkills: seq<string>

    function State(): Encoders
      reads this
    {
      Encoders(roles, companies, locations, specializations, companyTypes, allSkills)
    }

    /** An engine with nothing fitted yet. */
    constructor()
      ensures State() == Encoders([], [], [], [], [], [])
    {
      roles, companies, locations := [], [], [];
      specializations, companyTypes, allSkills := [], [], [];
    }

    /** Fits every vocabulary and the top skills on `profiles`. */
    method Fit(profiles: seq<Profile>)
      modifies this
      ensures State() == Fitted(profiles)
    {
      var e := FitEncoders(profiles);
      roles, companies, locations := e.roles, e.companies, e.locations;
      specializations, companyTypes, allSkills := e.specializations, e.companyTypes, e.allSkills;
      assert State() == e;
    }

    /** The feature vector of `p` under the fitted state. */
    method ExtractFeatures(p: Profile) returns (features: seq<real>)
      requires Ready(State())
      ensures features == FeatureVector(State(), p)
    {
      features := BaseFeatures(State(), p);
      features := AppendIndicators(features, allSkills, p.skills);
      features := features + CategoryFeatures(p.skills);
      features := PadTo(features, Width);
    }

    /** The raw feature rows of `profiles`, one per profile. */
    method Transform(profiles: seq<Profile>) returns (rows: seq<seq<real>>)
      requires Ready(State())
      ensures |rows| == |profiles|
      ensures forall i :: 0 <= i < |profiles| ==> rows[i] == FeatureVector(State(), profiles[i])
    {
      rows := [];
      for i := 0 to |profiles|
        invariant |rows| == i
        invariant forall j :: 0 <= j < i ==> rows[j] == FeatureVector(State(), profiles[j])
      {
        var row := ExtractFeatures(profiles[i]);
        rows := rows + [row];
      }
    }

    /** The name of each feature slot. */
    method FeatureImportance() returns (names: seq<string>)
      ensures names == FeatureNames(allSkills)
    {
      names := BaseNames;
      for i := 0 to |allSkills|
        invariant names == BaseNames + SkillNames(allSkills[..i])
      {
        assert SkillNames(allSkills[..i + 1]) == SkillNames(allSkills[..i]) + ["skill_" + allSkills[i]];
        names := names + ["skill_" + allSkills[i]];
      }
      assert allSkills[..|allSkills|] == allSkills;
      names := names + CategoryNames;
      names := Take(names, Width);
    }
  }

  /** The vocabularies with their fallback tokens, and the thirty most
      common skills of the pooled skill lists. */
  method FitEncoders(profiles: seq<Profile>) returns (e: Encoders)
    ensures e == Fitted(profiles)
  {
    var pool := PoolSkills(profiles);
    e := Encoders(
      FirstSeen(Roles(profiles) + ["Unknown"]),
      FirstSeen(Companies(profiles) + [Some("Unknown")]),
      FirstSeen(Locations(profiles) + [Some("Unknown")]),
      FirstSeen(Specializations(profiles) + ["General", "Unknown"]),
      FirstSeen(CompanyTypes(profiles) + ["Unknown"]),
      TallyKeys(MostCommon(pool, TopSkillCount)));
  }

  /** Every profile's skills, concatenated in order. */
  method PoolSkills(profiles: seq<Profile>) returns (pool: seq<string>)
    ensures pool == SkillPool(profiles)
  {
    pool := [];
    for i := 0 to |profiles|
      invariant pool == SkillPool(profiles[..i])
    {
      SkillPoolStep(profiles, i);
      pool := pool + profiles[i].skills;
    }
    assert profiles[..|profiles|] == profiles;
  }

  /** The thirteen base slots, appended one by one. */
  method BaseFeatures(e: Encoders, p: Profile) returns (features: seq<real>)
    requires Ready(e)
    ensures features == Base(e, p)
  {
    features := [];
    features := features + [p.experienceLevel as real];
    features := features + [|p.skills| as real];
    features := features + [|p.careerPath| as real];
    var total := TotalYears(p.careerPath);
    features := features + [total as real];
    var avg := if p.careerPath != [] then total as real / |p.careerPath| as real else 2.0;
    features := features + [avg];
    features := features + [RemoteFlag(p.remoteAllowed)];
    features := features + [SalarySignal(p.salaryInfo)];
    features := features + [WorkTypeWeight(p.workType)];
    features := features + [Code(e.specializations, p.specialization, "General") as real];
    features := features + [Code(e.companyTypes, p.companyType, "Unknown") as real];
    features := features + [Code(e.roles, p.currentRole, "Unknown") as real / |e.roles| as real];
    features := features + [Code(e.companies, Present(p.currentCompany, Some("Unknown")), Some("Unknown")) as real / |e.companies| as real];
    features := features + [Code(e.locations, Present(p.location, Some("Unknown")), Some("Unknown")) as real / |e.locations| as real];
  }

  /** One 1.0/0.0 slot per top skill, appended in order. */
  method AppendIndicators(start: seq<real>, top: seq<string>, skills: seq<string>) returns (features: seq<real>)
    ensures features == start + Indicators(top, skills)
  {
    features := start;
    for i := 0 to |top|
      invariant features == start + Indicators(top[..i], skills)
    {
      IndicatorsStep(top, skills, i);
      features := features + [if top[i] in skills then 1.0 else 0.0];
    }
    assert top[..|top|] == top;
  }

  /** Zeros appended up to length `n`, then the first `n` slots kept. */
  method PadTo(raw: seq<real>, n: nat) returns (features: seq<real>)
    ensures features == Take(Pad(raw, n), n)
  {
    features := raw;
    while |features| < n
      invariant |raw| <= |features| <= if |raw| < n then n else |raw|
      invariant features == raw + Repeat(0.0, |features| - |raw|)
      decreases n - |features|
    {
      features := features + [0.0];
    }
    features := features[..n];
  }

  lemma IndicatorsStep(top: seq<string>, skills: seq<string>, i: int)
    requires 0 <= i < |top|
    ensures Indicators(top[..i + 1], skills) == Indicators(top[..i], skills) + [if top[i] in skills then 1.0 else 0.0]
  {
  }
}
