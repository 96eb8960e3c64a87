/** The helpers that turn a job posting row into a tech profile: the tech
    filter, title standardisation, skill extraction, experience level,
    career path, specialization, company type and salary. */
module DataProcessor {
  import opened Strings
  import opened Ranking
  import opened Keywords
  import opened Profiles

  // ---------------------------------------------------------------------
  // _is_tech_job

  const TechIndicators: seq<string> := [
    "software", "engineer", "developer", "programmer",
    "frontend", "backend", "fullstack", "full-stack", "full stack",
    "devops", "cloud", "database", "api", "web",
    "python", "java", "javascript", "react", "node",
    "data", "machine learning", "ai", "analytics",
    "technical", "coding", "programming", "development",
    "architect", "system", "network", "security",
    "qa", "quality assurance", "test", "automation"]

  /** The lower-cased text the tech test searches: title, company and the
      first 500 characters of the description. */
  function TechJobText(row: JobRow): string {
    Lower(PyStr(row.title) + " " + PyStr(row.companyName) + " " + Take(PyStr(row.description), 500))
  }

  predicate IsTechJob(row: JobRow) {
    MatchCount(TechJobText(row), TechIndicators) >= 2
  }

  /** A posting is a tech job exactly when two different indicator keywords
      occur in its text. */
  lemma IsTechJobIff(row: JobRow)
    ensures IsTechJob(row) <==>
      exists i, j :: 0 <= i < j < |TechIndicators| &&
        Contains(TechJobText(row), TechIndicators[i]) && Contains(TechJobText(row), TechIndicators[j])
  {
    MatchCountTwo(TechJobText(row), TechIndicators);
  }

  /** Only the first 500 characters of the description are read. */
  lemma IsTechJobReadsPrefix(row: JobRow, d: string)
    requires row.description == Some(d)
    ensures IsTechJob(row) == IsTechJob(row.(description := Some(Take(d, 500))))
  {
    assert Take(Take(d, 500), 500) == Take(d, 500);
  }

  lemma SoftwareEngineerIsTech(row: JobRow)
    requires row.title == Some("Software Engineer")
    ensures IsTechJob(row)
  {
    SoftwareEngineerText(row);
    assert OccursAt(TechJobText(row), TechIndicators[0], 0);
    assert OccursAt(TechJobText(row), TechIndicators[1], 9);
    IsTechJobIff(row);
  }

  /** The searched text of such a posting starts with "software engineer". */
  lemma SoftwareEngineerText(row: JobRow)
    requires row.title == Some("Software Engineer")
    ensures OccursAt(TechJobText(row), "software", 0) && OccursAt(TechJobText(row), "engineer", 9)
  {
    var text := TechJobText(row);
    var s := PyStr(row.title) + " " + PyStr(row.companyName) + " " + Take(PyStr(row.description), 500);
    assert s == "Software Engineer" + s[17..];
    LowerPrefix("Software Engineer", s[17..]);
    LowerSoftwareTitles();
    assert text[..17] == "software engineer";
    assert text[..8] == "software";
    assert text[9..17] == "engineer";
  }

  // ---------------------------------------------------------------------
  // _extract_tech_experience_level

  /** Keyword tiers in the order they are tried: junior, mid, senior,
      staff/principal, management. */
  const LevelRules: seq<Rule<int>> := [
    Rule(["intern", "entry", "junior", "associate"], 1),
    Rule(["mid-level", "mid level", "2-5 years", "3-5 years"], 2),
    Rule(["senior", "lead", "sr.", "5+ years", "7+ years"], 3),
    Rule(["staff", "principal", "architect"], 4),
    Rule(["manager", "director", "vp", "cto"], 5)]

  /** Year hints tried when no tier keyword occurs. */
  const YearRules: seq<Rule<int>> := [
    Rule(["0-2", "1-3"], 1),
    Rule(["10+", "15+"], 4)]

  function ExperienceText(title: string, expStr: string, description: string): string {
    Lower(title + " " + expStr + " " + Take(description, 500))
  }

  function TechExperienceLevel(title: string, expStr: string, description: string): (level: int)
    ensures 1 <= level <= 5
  {
    var text := ExperienceText(title, expStr, description);
    var fallback := Cascade(text, YearRules, 2);
    CascadeLabel(text, YearRules, 2);
    CascadeLabel(text, LevelRules, fallback);
    Cascade(text, LevelRules, fallback)
  }

  /** The first tier whose keyword occurs decides the level. */
  lemma LevelFromKeyword(title: string, expStr: string, description: string, k: nat)
    requires k < |LevelRules|
    requires AnyIn(ExperienceText(title, expStr, description), LevelRules[k].words)
    requires forall j :: 0 <= j < k ==> !AnyIn(ExperienceText(title, expStr, description), LevelRules[j].words)
    ensures TechExperienceLevel(title, expStr, description) == k + 1
  {
    var text := ExperienceText(title, expStr, description);
    CascadeFirstMatch(text, LevelRules, Cascade(text, YearRules, 2), k);
  }

  /** Without a tier keyword, the year hints decide: '0-2'/'1-3' give 1,
      '10+'/'15+' give 4, and anything else gives 2. */
  lemma LevelFromYears(title: string, expStr: string, description: string)
    requires forall j :: 0 <= j < |LevelRules| ==> !AnyIn(ExperienceText(title, expStr, description), LevelRules[j].words)
    ensures var text := ExperienceText(title, expStr, description);
      TechExperienceLevel(title, expStr, description) ==
        if AnyIn(text, ["0-2", "1-3"]) then 1 else if AnyIn(text, ["10+", "15+"]) then 4 else 2
  {
    var text := ExperienceText(title, expStr, description);
    CascadeNoMatch(text, LevelRules, Cascade(text, YearRules, 2));
    if AnyIn(text, ["0-2", "1-3"]) {
      CascadeFirstMatch(text, YearRules, 2, 0);
    } else if AnyIn(text, ["10+", "15+"]) {
      CascadeFirstMatch(text, YearRules, 2, 1);
    } else {
      CascadeNoMatch(text, YearRules, 2);
    }
  }

  /** Levels 3 and 5 come only from their own keywords, never from a hint. */
  lemma LevelThreeOrFiveNeedsKeyword(title: string, expStr: string, description: string)
    ensures var text := ExperienceText(title, expStr, description);
      var level := TechExperienceLevel(title, expStr, description);
      (level == 3 ==> AnyIn(text, LevelRules[2].words)) &&
      (level == 5 ==> AnyIn(text, LevelRules[4].words))
  {
    var text := ExperienceText(title, expStr, description);
    var fallback := Cascade(text, YearRules, 2);
    CascadeLabel(text, YearRules, 2);
    CascadeOutcome(text, LevelRules, fallback);
  }

  /** A junior keyword wins over a senior one. */
  lemma SeniorInternIsJunior()
    ensures TechExperienceLevel("Senior Intern", "", "") == 1
  {
    var text := ExperienceText("Senior Intern", "", "");
    assert text == "senior intern  ";
    assert OccursAt(text, LevelRules[0].words[0], 7);
    LevelFromKeyword("Senior Intern", "", "", 0);
  }

  // ---------------------------------------------------------------------
  // _generate_tech_career_path

  function TechCareerPath(title: string, level: int): (path: seq<CareerStep>)
    ensures |path| >= 2 && path[|path| - 1].role == title
  {
    match level
    case 1 => [CareerStep("Intern/Entry Level", 1), CareerStep(title, 1)]
    case 3 => [CareerStep("Junior Developer", 2), CareerStep("Software Engineer", 3), CareerStep(title, 2)]
    case 4 => [CareerStep("Software Engineer", 3), CareerStep("Senior Software Engineer", 3), CareerStep(title, 2)]
    case 5 => [CareerStep("Senior Engineer", 4), CareerStep("Tech Lead", 3), CareerStep(title, 2)]
    case _ => [CareerStep("Junior Developer", 2), CareerStep(title, 2)]
  }

  /** The paths take 2, 4, 7, 8 and 9 years for levels 1 to 5; any other
      level gets the mid-level path. */
  lemma CareerPathYears(title: string, level: int)
    ensures TotalYears(TechCareerPath(title, level)) ==
      if level == 1 then 2 else if level == 3 then 7 else if level == 4 then 8 else if level == 5 then 9 else 4
    ensures !(1 <= level <= 5) ==> TechCareerPath(title, level) == TechCareerPath(title, 2)
  {
    var p := TechCareerPath(title, level);
    assert p[1..][1..] == p[2..];
    if |p| == 3 {
      assert p[2..][1..] == [];
      assert TotalYears(p[2..]) == p[2].duration;
    } else {
      assert p[2..] == [];
    }
    assert TotalYears(p) == p[0].duration + p[1].duration + TotalYears(p[2..]);
  }

  // ---------------------------------------------------------------------
  // _get_tech_specialization

  const TitleAreaRules: seq<Rule<string>> := [
    Rule(["frontend", "ui", "ux"], "Frontend"),
    Rule(["backend", "api", "server"], "Backend"),
    Rule(["full stack", "fullstack"], "Full Stack"),
    Rule(["data", "ml", "ai", "machine learning"], "Data/ML"),
    Rule(["devops", "sre", "infrastructure"], "DevOps/Infrastructure"),
    Rule(["mobile", "ios", "android"], "Mobile")]

  const SkillAreaRules: seq<Rule<string>> := [
    Rule(["react", "vue"], "Frontend"),
    Rule(["django", "spring"], "Backend")]

  const SpecializationLabels: seq<string> := [
    "Frontend", "Backend", "Full Stack", "Data/ML", "DevOps/Infrastructure", "Mobile", "General Software"]

  function SkillsText(skills: seq<string>): string {
    Lower(Join(skills, " "))
  }

  function TechSpecialization(title: string, skills: seq<string>): (area: string)
    ensures area in SpecializationLabels
  {
    var fromSkills := Cascade(SkillsText(skills), SkillAreaRules, "General Software");
    CascadeLabel(SkillsText(skills), SkillAreaRules, "General Software");
    CascadeLabel(Lower(title), TitleAreaRules, fromSkills);
    Cascade(Lower(title), TitleAreaRules, fromSkills)
  }

  predicate TitleNamesArea(title: string) {
    exists k :: 0 <= k < |TitleAreaRules| && AnyIn(Lower(title), TitleAreaRules[k].words)
  }

  /** A title keyword decides the area whatever the skills are. */
  lemma TitleBeforeSkills(title: string, skills1: seq<string>, skills2: seq<string>)
    requires TitleNamesArea(title)
    ensures TechSpecialization(title, skills1) == TechSpecialization(title, skills2)
  {
    var k :| 0 <= k < |TitleAreaRules| && AnyIn(Lower(title), TitleAreaRules[k].words);
    CascadeIgnoresFallback(Lower(title), TitleAreaRules,
      Cascade(SkillsText(skills1), SkillAreaRules, "General Software"),
      Cascade(SkillsText(skills2), SkillAreaRules, "General Software"), k);
  }

  /** 'General Software' exactly when neither the title nor the skills name an area. */
  lemma GeneralSoftwareIff(title: string, skills: seq<string>)
    ensures TechSpecialization(title, skills) == "General Software" <==>
      !TitleNamesArea(title) &&
      forall j :: 0 <= j < |SkillAreaRules| ==> !AnyIn(SkillsText(skills), SkillAreaRules[j].words)
  {
    var text := Lower(title);
    var fromSkills := Cascade(SkillsText(skills), SkillAreaRules, "General Software");
    CascadeOutcome(SkillsText(skills), SkillAreaRules, "General Software");
    CascadeOutcome(text, TitleAreaRules, fromSkills);
    if TitleNamesArea(title) {
      var k :| 0 <= k < |TitleAreaRules| && AnyIn(text, TitleAreaRules[k].words);
      assert !forall j :: 0 <= j < |TitleAreaRules| ==> !AnyIn(text, TitleAreaRules[j].words);
    }
  }

  // ---------------------------------------------------------------------
  // _classify_tech_company

  const CompanyRules: seq<Rule<string>> := [
    Rule(["google", "amazon", "meta", "facebook", "apple", "microsoft", "netflix"], "FAANG"),
    Rule(["uber", "airbnb", "stripe", "databricks", "spacex"], "Unicorn"),
    Rule(["ibm", "oracle", "cisco", "intel", "hp"], "Enterprise"),
    Rule(["startup", "labs"], "Startup")]

  function TechCompanyType(company: Option<string>): (kind: string)
    ensures kind == "Unknown" <==> company.None?
    ensures kind in ["FAANG", "Unicorn", "Enterprise", "Startup", "Mid-size Tech", "Unknown"]
  {
    match company
    case None => "Unknown"
    case Some(name) =>
      CascadeLabel(Lower(name), CompanyRules, "Mid-size Tech");
      Cascade(Lower(name), CompanyRules, "Mid-size Tech")
  }

  /** The first tier (FAANG, Unicorn, Enterprise, Startup) whose name
      fragment occurs decides. */
  lemma CompanyTypeFirstMatch(name: string, k: nat)
    requires k < |CompanyRules| && AnyIn(Lower(name), CompanyRules[k].words)
    requires forall j :: 0 <= j < k ==> !AnyIn(Lower(name), CompanyRules[j].words)
    ensures TechCompanyType(Some(name)) == CompanyRules[k].answer
  {
    CascadeFirstMatch(Lower(name), CompanyRules, "Mid-size Tech", k);
  }

  lemma GoogleLabsIsFaang()
    ensures TechCompanyType(Some("Google Labs")) == "FAANG"
  {
    assert Lower("Google Labs") == "google labs";
    assert OccursAt(Lower("Google Labs"), CompanyRules[0].words[0], 0);
    CompanyTypeFirstMatch("Google Labs", 0);
  }

  // ---------------------------------------------------------------------
  // _standardize_tech_title

  /** Abbreviations and their expansions, in the order they are applied. */
  const TitleMapping: seq<(string, string)> := [
    ("swe", "Software Engineer"),
    ("sw engineer", "Software Engineer"),
    ("programmer", "Software Developer"),
    ("coder", "Software Developer"),
    ("front end", "Frontend"),
    ("back end", "Backend"),
    ("full-stack", "Full Stack"),
    ("sr", "Senior"),
    ("jr", "Junior"),
    ("dev", "Developer"),
    ("eng", "Engineer")]

  /** Every abbreviation of a replacement table is non-empty. */
  predicate KeysNonEmpty<K, V>(table: seq<(seq<K>, V)>) {
    forall i :: 0 <= i < |table| ==> table[i].0 != []
  }

  /** Each mapping entry in turn, as a substring replacement on the text. */
  function ReplaceAll(s: string, table: seq<(string, string)>): string
    requires KeysNonEmpty(table)
    decreases |table|
  {
    if table == [] then s
    else ReplaceAll(Replace(s, table[0].0, Lower(table[0].1)), table[1..])
  }

  /** The title as the source standardises it: every entry of the mapping
      replaces substrings, so an abbreviation is also rewritten inside a
      longer word. */
  function StandardizeTitleAsWritten(title: Option<string>): string {
    match title
    case None => "Software Engineer"
    case Some(t) =>
      TitleMappingKeys();
      Join(CapitalizeAll(Split(ReplaceAll(Lower(Strip(t)), TitleMapping))), " ")
  }

  /** The replacement loop: each mapping entry in turn replaces every
      occurrence of its abbreviation in the text left by the entries before
      it with the lower-cased expansion. */
  method ReplaceEach(s: string, table: seq<(string, string)>) returns (text: string)
    requires KeysNonEmpty(table)
    ensures text == ReplaceAll(s, table)
  {
    text := s;
    for i := 0 to |table|
      invariant ReplaceAll(text, table[i..]) == ReplaceAll(s, table)
    {
      var (abbreviation, expansion) := table[i];
      assert table[i..][1..] == table[i + 1..];
      text := Replace(text, abbreviation, Lower(expansion));
    }
  }

  /** `_standardize_tech_title`: 'Software Engineer' for a missing title;
      otherwise the stripped, lower-cased title through the replacement
      loop, its words capitalised and joined by single spaces. */
  method StandardizeTechTitle(title: Option<string>) returns (r: string)
    ensures r == StandardizeTitleAsWritten(title)
  {
    if title.None? {
      return "Software Engineer";
    }
    TitleMappingKeys();
    var lowered := ReplaceEach(Lower(Strip(title.value)), TitleMapping);
    r := Join(CapitalizeAll(Split(lowered)), " ");
  }

  /** Every word of a standardised title is non-empty, free of whitespace
      and capitalised. */
  lemma TitleWordsCapitalized(t: string)
    ensures forall w :: w in Split(StandardizeTitleAsWritten(Some(t))) ==> IsWord(w) && Capitalize(w) == w
  {
    TitleMappingKeys();
    var raw := Split(ReplaceAll(Lower(Strip(t)), TitleMapping));
    var ws := CapitalizeAll(raw);
    assert StandardizeTitleAsWritten(Some(t)) == Join(ws, " ");
    CapitalizedWords(raw);
    SplitJoin(ws);
  }

  /** A standardised title is its words joined by single spaces, with no
      space before the first word or after the last. */
  lemma StandardTitleSplits(t: string)
    ensures Join(Split(StandardizeTitleAsWritten(Some(t))), " ") == StandardizeTitleAsWritten(Some(t))
  {
    TitleMappingKeys();
    var raw := Split(ReplaceAll(Lower(Strip(t)), TitleMapping));
    var ws := CapitalizeAll(raw);
    assert StandardizeTitleAsWritten(Some(t)) == Join(ws, " ");
    CapitalizedWords(raw);
    SplitJoin(ws);
  }

  /** Entries whose abbreviation does not occur leave the text unchanged. */
  lemma {:induction false} ReplaceAllAbsent(s: string, table: seq<(string, string)>)
    requires KeysNonEmpty(table)
    requires forall i :: 0 <= i < |table| ==> !Contains(s, table[i].0)
    ensures ReplaceAll(s, table) == s
    decreases |table|
  {
    if table != [] {
      ReplaceAbsent(s, table[0].0, Lower(table[0].1));
      ReplaceAllAbsent(s, table[1..]);
    }
  }

  /** A title in which no abbreviation occurs, not even inside a word, keeps
      its words; they are only capitalised. */
  lemma NoAbbreviationTitleWords(t: string)
    requires forall i :: 0 <= i < |TitleMapping| ==> !Contains(Lower(Strip(t)), TitleMapping[i].0)
    ensures Split(StandardizeTitleAsWritten(Some(t))) == CapitalizeAll(Split(Lower(Strip(t))))
  {
    TitleMappingKeys();
    ReplaceAllAbsent(Lower(Strip(t)), TitleMapping);
    CapitalizedWords(Split(Lower(Strip(t))));
    SplitJoin(CapitalizeAll(Split(Lower(Strip(t)))));
  }

  /** The mapping in word form: each abbreviation and its lower-cased
      expansion as sequences of words. */
  const WordMapping: seq<(seq<string>, seq<string>)> := [
    (["swe"], ["software", "engineer"]),
    (["sw", "engineer"], ["software", "engineer"]),
    (["programmer"], ["software", "developer"]),
    (["coder"], ["software", "developer"]),
    (["front", "end"], ["frontend"]),
    (["back", "end"], ["backend"]),
    (["full-stack"], ["full", "stack"]),
    (["sr"], ["senior"]),
    (["jr"], ["junior"]),
    (["dev"], ["developer"]),
    (["eng"], ["engineer"])]

  /** The word form says the same as the mapping: joining its words with
      spaces gives back each abbreviation and its lower-cased expansion. */
  lemma WordMappingKeys()
    ensures |WordMapping| == |TitleMapping|
    ensures forall i :: 0 <= i < |TitleMapping| ==> Join(WordMapping[i].0, " ") == TitleMapping[i].0
  {
  }

  lemma WordMappingExpansions()
    ensures forall i :: 0 <= i < |TitleMapping| ==> Join(WordMapping[i].1, " ") == Lower(TitleMapping[i].1)
  {
    FirstExpansions();
    LastExpansions();
  }

  lemma FirstExpansions()
    ensures forall i :: 0 <= i < 6 ==> Join(WordMapping[i].1, " ") == Lower(TitleMapping[i].1)
  {
    LowerSoftwareTitles();
    LowerAreas();
  }

  lemma LastExpansions()
    ensures forall i :: 6 <= i < 11 ==> Join(WordMapping[i].1, " ") == Lower(TitleMapping[i].1)
  {
    LowerAreas();
    LowerRanks();
  }

  lemma LowerExpansions()
    ensures Lower("Software Engineer") == "software engineer"
    ensures Lower("Software Developer") == "software developer"
    ensures Lower("Frontend") == "frontend" && Lower("Backend") == "backend"
    ensures Lower("Full Stack") == "full stack"
    ensures Lower("Senior") == "senior" && Lower("Junior") == "junior"
    ensures Lower("Developer") == "developer" && Lower("Engineer") == "engineer"
  {
    LowerSoftwareTitles();
    LowerAreas();
    LowerRanks();
  }

  lemma LowerSoftwareTitles()
    ensures Lower("Software Engineer") == "software engineer"
    ensures Lower("Software Developer") == "software developer"
  {
  }

  lemma LowerAreas()
    ensures Lower("Frontend") == "frontend" && Lower("Backend") == "backend"
    ensures Lower("Full Stack") == "full stack"
  {
  }

  lemma LowerRanks()
    ensures Lower("Senior") == "senior" && Lower("Junior") == "junior"
    ensures Lower("Developer") == "developer" && Lower("Engineer") == "engineer"
  {
  }

  /** Each mapping entry in turn, as a replacement of whole words. */
  function ReplaceWords(ws: seq<string>, table: seq<(seq<string>, seq<string>)>): seq<string>
    requires KeysNonEmpty(table)
    decreases |table|
  {
    if table == [] then ws
    else ReplaceWords(Replace(ws, table[0].0, table[0].1), table[1..])
  }

  /** The words of the standardised title. */
  function TitleWords(t: string): seq<string> {
    ExpansionsAreWords();
    CapitalizeAll(ReplaceWords(Split(Lower(Strip(t))), WordMapping))
  }

  /** The title with the abbreviations expanded as whole words and each word
      capitalised. */
  function StandardizeTitle(title: Option<string>): string {
    match title
    case None => "Software Engineer"
    case Some(t) => Join(TitleWords(t), " ")
  }

  lemma {:induction false} ReplaceWordsAreWords(ws: seq<string>, table: seq<(seq<string>, seq<string>)>)
    requires KeysNonEmpty(table)
    requires forall w :: w in ws ==> IsWord(w)
    requires forall i, w :: 0 <= i < |table| && w in table[i].1 ==> IsWord(w)
    ensures forall w :: w in ReplaceWords(ws, table) ==> IsWord(w)
    decreases |table|
  {
    if table != [] {
      var next := Replace(ws, table[0].0, table[0].1);
      forall w | w in next ensures IsWord(w) {
        ReplaceElements(ws, table[0].0, table[0].1, w);
      }
      ReplaceWordsAreWords(next, table[1..]);
    }
  }

  lemma ExpansionsAreWords()
    ensures KeysNonEmpty(WordMapping)
    ensures forall i, w :: 0 <= i < |WordMapping| && w in WordMapping[i].1 ==> IsWord(w)
  {
    forall i, w | 0 <= i < |WordMapping| && w in WordMapping[i].1 ensures IsWord(w) {
      var k :| 0 <= k < |WordMapping[i].1| && WordMapping[i].1[k] == w;
    }
  }

  /** Every word of the corrected title is non-empty, free of whitespace
      and capitalised. */
  lemma CorrectedWordsCapitalized(t: string)
    ensures forall w :: w in TitleWords(t) ==> IsWord(w) && Capitalize(w) == w
  {
    ExpansionsAreWords();
    var ws := ReplaceWords(Split(Lower(Strip(t))), WordMapping);
    ReplaceWordsAreWords(Split(Lower(Strip(t))), WordMapping);
    CapitalizedWords(ws);
  }

  /** The corrected title is its words joined by single spaces: splitting
      it gives them back. */
  lemma CorrectedTitleSplits(t: string)
    ensures Split(StandardizeTitle(Some(t))) == TitleWords(t)
  {
    CorrectedWordsCapitalized(t);
    SplitJoin(TitleWords(t));
  }

  lemma {:induction false} ReplaceWordsAbsent(ws: seq<string>, table: seq<(seq<string>, seq<string>)>)
    requires KeysNonEmpty(table)
    requires forall i :: 0 <= i < |table| ==> !Contains(ws, table[i].0)
    ensures ReplaceWords(ws, table) == ws
    decreases |table|
  {
    if table != [] {
      ReplaceAbsent(ws, table[0].0, table[0].1);
      ReplaceWordsAbsent(ws, table[1..]);
    }
  }

  /** A title without any abbreviation among its words keeps its words; they
      are only capitalised. */
  lemma NoAbbreviationKeepsWords(t: string)
    requires forall i :: 0 <= i < |WordMapping| ==> !Contains(Split(Lower(Strip(t))), WordMapping[i].0)
    ensures TitleWords(t) == CapitalizeAll(Split(Lower(Strip(t))))
  {
    ExpansionsAreWords();
    ReplaceWordsAbsent(Split(Lower(Strip(t))), WordMapping);
  }

  /** The one-word title "Engineer" holds no abbreviation among its words,
      yet the substring mapping rewrites it to "Engineerineer": 'eng' is
      found at the start of "engineer". */
  lemma EngineerAsWritten()
    ensures forall i :: 0 <= i < |WordMapping| ==> !Contains(Split(Lower(Strip("Engineer"))), WordMapping[i].0)
    ensures StandardizeTitleAsWritten(Some("Engineer")) == "Engineerineer"
  {
    EngineerWords();
    EngineerSubstitutedTitle();
  }

  lemma EngineerSubstitutedTitle()
    ensures StandardizeTitleAsWritten(Some("Engineer")) == "Engineerineer"
  {
    EngineerLowered();
    EngineerSubstitution();
    EngineerineerWord();
  }

  lemma EngineerLowered()
    ensures Lower(Strip("Engineer")) == "engineer"
  {
    LowerRanks();
    assert Strip("Engineer") == "Engineer";
  }

  /** With whole-word replacement, "Engineer" stays "Engineer". */
  lemma EngineerCorrected()
    ensures StandardizeTitle(Some("Engineer")) == "Engineer"
  {
    EngineerKeepsWords("Engineer");
  }

  lemma EngineerKeepsWords(t: string)
    requires t == "Engineer"
    ensures StandardizeTitle(Some(t)) == t
  {
    EngineerTitleWords(t);
    EngineerCapitalized();
    assert Join([t], " ") == t;
  }

  lemma EngineerCapitalized()
    ensures CapitalizeAll(["engineer"]) == ["Engineer"]
  {
    CapitalizeEngineer();
  }

  lemma EngineerTitleWords(t: string)
    requires t == "Engineer"
    ensures TitleWords(t) == CapitalizeAll(["engineer"])
  {
    EngineerWords();
    NoAbbreviationKeepsWords(t);
  }

  lemma CapitalizeEngineer()
    ensures Capitalize("engineer") == "Engineer"
  {
    assert "engineer"[1..] == "ngineer";
    LowerNoUpper("ngineer");
  }

  lemma EngineerineerWord()
    ensures Split("engineerineer") == ["engineerineer"]
    ensures Capitalize("engineerineer") == "Engineerineer"
  {
    SplitWord("engineerineer");
  }

  lemma TitleMappingKeys()
    ensures KeysNonEmpty(TitleMapping)
  {
  }

  /** The substring mapping applied to "engineer". */
  lemma EngineerSubstitution()
    ensures KeysNonEmpty(TitleMapping) && ReplaceAll("engineer", TitleMapping) == "engineerineer"
  {
    EngineerSkipsTen();
    LastMappingEntry();
    EngineerLastStep();
  }

  /** The first ten entries leave "engineer" alone. */
  lemma EngineerSkipsTen()
    ensures KeysNonEmpty(TitleMapping) && |TitleMapping| == 11
    ensures ReplaceAll("engineer", TitleMapping) == ReplaceAll("engineer", TitleMapping[10..])
  {
    TitleMappingKeys();
    EngineerUntouched();
    ReplaceAllPrefix("engineer", TitleMapping, 10);
  }

  lemma LastMappingEntry()
    ensures TitleMapping[10..] == [("eng", "Engineer")]
  {
  }

  /** The last entry, 'eng', rewrites the start of "engineer". */
  lemma EngineerLastStep()
    ensures ReplaceAll("engineer", [("eng", "Engineer")]) == "engineerineer"
  {
    LowerRanks();
    EngineerLastEntry();
  }

  lemma EngineerLastEntry()
    ensures Replace("engineer", "eng", "engineer") == "engineerineer"
  {
    ReplaceAtFront("engineer", "eng", "engineer");
    assert "engineer"[3..] == "ineer";
    AbsentElement("ineer", "eng", 'g');
    ReplaceAbsent("ineer", "eng", "engineer");
  }

  lemma EngineerWords()
    ensures Strip("Engineer") == "Engineer" && Lower("Engineer") == "engineer"
    ensures Split(Lower(Strip("Engineer"))) == ["engineer"]
    ensures forall i :: 0 <= i < |WordMapping| ==> !Contains(["engineer"], WordMapping[i].0)
  {
    LowerExpansions();
    SplitWord("engineer");
    ExpansionsAreWords();
    forall i | 0 <= i < |WordMapping| ensures !Contains(["engineer"], WordMapping[i].0) {
      AbsentElement(["engineer"], WordMapping[i].0, WordMapping[i].0[0]);
    }
  }

  /** The first ten entries of the mapping leave "engineer" alone. */
  lemma EngineerUntouched()
    ensures forall i :: 0 <= i < 10 ==>
      TitleMapping[i].0 != [] && Replace("engineer", TitleMapping[i].0, Lower(TitleMapping[i].1)) == "engineer"
  {
    TitleMappingKeys();
    var m := TitleMapping;
    var absent: seq<char> := "swpcfbfsjd";
    forall i | 0 <= i < 10
      ensures m[i].0 != [] && Replace("engineer", m[i].0, Lower(m[i].1)) == "engineer"
    {
      AbsentElement("engineer", m[i].0, absent[i]);
      ReplaceAbsent("engineer", m[i].0, Lower(m[i].1));
    }
  }

  /** Entries that leave the text alone can be skipped. */
  lemma {:induction false} ReplaceAllPrefix(s: string, table: seq<(string, string)>, n: nat)
    requires n <= |table| && KeysNonEmpty(table)
    requires forall i :: 0 <= i < n ==> Replace(s, table[i].0, Lower(table[i].1)) == s
    ensures ReplaceAll(s, table) == ReplaceAll(s, table[n..])
  {
    if n > 0 {
      ReplaceAllPrefix(s, table[1..], n - 1);
      assert table[1..][n - 1..] == table[n..];
    }
  }

  // ---------------------------------------------------------------------
  // _extract_tech_skills

  /** A skill pattern: the regular expression as written and the literal
      texts it matches. */
  datatype SkillPattern = SkillPattern(regex: string, literals: seq<string>)

  /** A pattern without metacharacters matches only itself. */
  function Plain(w: string): SkillPattern {
    SkillPattern(w, [w])
  }

  /** The patterns by category: languages, frontend, backend, database,
      cloud, data. */
  const SkillTable: seq<seq<SkillPattern>> := [
    [Plain("PYTHON"), Plain("JAVA"), Plain("JAVASCRIPT"), Plain("TYPESCRIPT"), SkillPattern("C\\+\\+", ["C++"]),
     Plain("C#"), Plain("GO"), Plain("RUST"), Plain("KOTLIN"), Plain("SWIFT"), Plain("RUBY"), Plain("PHP"), Plain("SCALA")],
    [Plain("REACT"), Plain("ANGULAR"), Plain("VUE"), SkillPattern("NEXT\\.?JS", ["NEXTJS", "NEXT.JS"]), Plain("NUXT"),
     Plain("SVELTE"), Plain("HTML"), Plain("CSS"), Plain("SASS"), Plain("WEBPACK"), Plain("REDUX"), Plain("MOBX")],
    [SkillPattern("NODE\\.?JS", ["NODEJS", "NODE.JS"]), Plain("EXPRESS"), Plain("DJANGO"), Plain("FLASK"), Plain("SPRING"),
     Plain("FASTAPI"), Plain("RAILS"), Plain("LARAVEL"), Plain("NET CORE"), Plain("GRAPHQL")],
    [Plain("SQL"), Plain("POSTGRESQL"), Plain("MYSQL"), Plain("MONGODB"), Plain("REDIS"),
     Plain("ELASTICSEARCH"), Plain("CASSANDRA"), Plain("DYNAMODB"), Plain("ORACLE")],
    [Plain("AWS"), Plain("AZURE"), Plain("GCP"), Plain("DOCKER"), Plain("KUBERNETES"),
     Plain("TERRAFORM"), Plain("CI/CD"), Plain("JENKINS"), Plain("GITLAB")],
    [Plain("MACHINE LEARNING"), Plain("TENSORFLOW"), Plain("PYTORCH"), Plain("SCIKIT-LEARN"),
     Plain("PANDAS"), Plain("NUMPY"), Plain("SPARK"), Plain("HADOOP"), Plain("TABLEAU")]]

  /** The reported name of a pattern: backslashes and '.?' removed, then title-cased. */
  function SkillName(p: SkillPattern): string {
    Title(Replace(Replace(p.regex, "\\", ""), ".?", ""))
  }

  /** The search succeeds when one of the pattern's literal texts occurs. */
  predicate Matches(text: string, p: SkillPattern) {
    AnyIn(text, p.literals)
  }

  /** All categories' patterns in order. */
  function Flatten(table: seq<seq<SkillPattern>>): seq<SkillPattern> {
    if table == [] then [] else Flatten(table[..|table| - 1]) + table[|table| - 1]
  }

  /** The names of the patterns that match, in pattern order. */
  function Found(text: string, ps: seq<SkillPattern>): seq<string> {
    if ps == [] then []
    else
      var last := ps[|ps| - 1];
      Found(text, ps[..|ps| - 1]) + (if Matches(text, last) then [SkillName(last)] else [])
  }

  /** The skills reported for a text: distinct names of matching patterns,
      at most ten. */
  function ExtractedSkills(text: Option<string>): seq<string> {
    match text
    case None => []
    case Some(t) => Take(FirstSeen(Found(Upper(t), Flatten(SkillTable))), 10)
  }

  method ExtractTechSkills(text: Option<string>) returns (skills: seq<string>)
    ensures skills == ExtractedSkills(text)
  {
    if text.None? {
      return [];
    }
    var upper := Upper(text.value);
    var found: seq<string> := [];
    for c := 0 to |SkillTable|
      invariant found == Found(upper, Flatten(SkillTable[..c]))
    {
      var patterns := SkillTable[c];
      var done := Flatten(SkillTable[..c]);
      FoundStart(upper, done, patterns);
      for j := 0 to |patterns|
        invariant found == Found(upper, done + patterns[..j])
      {
        FoundStep(upper, done, patterns, j);
        if Matches(upper, patterns[j]) {
          found := found + [SkillName(patterns[j])];
        }
      }
      FlattenStep(SkillTable, c);
    }
    FlattenAll(SkillTable);
    skills := Take(FirstSeen(found), 10);
  }

  lemma FoundStart(text: string, done: seq<SkillPattern>, patterns: seq<SkillPattern>)
    ensures Found(text, done + patterns[..0]) == Found(text, done)
  {
    assert done + patterns[..0] == done;
  }

  lemma FoundStep(text: string, done: seq<SkillPattern>, patterns: seq<SkillPattern>, j: nat)
    requires j < |patterns|
    ensures Found(text, done + patterns[..j + 1]) ==
      Found(text, done + patterns[..j]) + (if Matches(text, patterns[j]) then [SkillName(patterns[j])] else [])
  {
    var next := done + patterns[..j + 1];
    assert next[..|next| - 1] == done + patterns[..j];
  }

  lemma FlattenStep(table: seq<seq<SkillPattern>>, c: nat)
    requires c < |table|
    ensures Flatten(table[..c + 1]) == Flatten(table[..c]) + table[c][..|table[c]|]
  {
    assert table[..c + 1][..c] == table[..c];
    assert table[c][..|table[c]|] == table[c];
  }

  lemma FlattenAll(table: seq<seq<SkillPattern>>)
    ensures Flatten(table[..|table|]) == Flatten(table)
  {
    assert table[..|table|] == table;
  }

  /** Every found name is the name of a pattern that matched. */
  lemma {:induction false} FoundSound(text: string, ps: seq<SkillPattern>, k: int)
    requires 0 <= k < |Found(text, ps)|
    ensures exists p :: p in ps && Matches(text, p) && Found(text, ps)[k] == SkillName(p)
  {
    var init := ps[..|ps| - 1];
    var last := ps[|ps| - 1];
    if k < |Found(text, init)| {
      FoundSound(text, init, k);
      var p :| p in init && Matches(text, p) && Found(text, init)[k] == SkillName(p);
      assert p in ps;
    } else {
      assert last in ps;
    }
  }

  /** Every pattern that matched has its name found. */
  lemma {:induction false} FoundComplete(text: string, ps: seq<SkillPattern>, p: SkillPattern)
    requires p in ps && Matches(text, p)
    ensures SkillName(p) in Found(text, ps)
  {
    var init := ps[..|ps| - 1];
    if p != ps[|ps| - 1] {
      assert p in init;
      FoundComplete(text, init, p);
    }
  }

  /** `name` is the reported name of a pattern of the table found in `text`. */
  ghost predicate NamedMatch(text: string, name: string) {
    exists p :: p in Flatten(SkillTable) && Matches(text, p) && name == SkillName(p)
  }

  /** At most ten distinct skills, each the name of a pattern that occurs in
      the upper-cased text. */
  lemma ExtractedSkillsSound(t: string)
    ensures |ExtractedSkills(Some(t))| <= 10 && Distinct(ExtractedSkills(Some(t)))
    ensures forall i :: 0 <= i < |ExtractedSkills(Some(t))| ==> NamedMatch(Upper(t), ExtractedSkills(Some(t))[i])
  {
    var found := Found(Upper(t), Flatten(SkillTable));
    var r := ExtractedSkills(Some(t));
    FirstTenSeen(found);
    assert r == Take(FirstSeen(found), 10);
    forall i | 0 <= i < |r| ensures NamedMatch(Upper(t), r[i]) {
      var k :| 0 <= k < |found| && found[k] == r[i];
      FoundSound(Upper(t), Flatten(SkillTable), k);
    }
  }

  /** The first ten distinct names: at most ten, none twice, all found. */
  lemma FirstTenSeen(found: seq<string>)
    ensures var r := Take(FirstSeen(found), 10);
      |r| <= 10 && Distinct(r) && forall i :: 0 <= i < |r| ==> exists k :: 0 <= k < |found| && found[k] == r[i]
  {
    var d := FirstSeen(found);
    var r := Take(d, 10);
    assert r == d[..|r|];
    forall i, j | 0 <= i < j < |r| ensures r[i] != r[j] {
      assert r[i] == d[i] && r[j] == d[j];
    }
    forall i | 0 <= i < |r| ensures exists k :: 0 <= k < |found| && found[k] == r[i] {
      assert r[i] == d[i] && d[i] in found;
    }
  }

  /** Nothing that matched is dropped unless ten skills are already reported. */
  lemma ExtractedSkillsComplete(t: string, p: SkillPattern)
    requires p in Flatten(SkillTable) && Matches(Upper(t), p)
    ensures var r := ExtractedSkills(Some(t));
      SkillName(p) in r || |r| == 10
  {
    var found := Found(Upper(t), Flatten(SkillTable));
    FoundComplete(Upper(t), Flatten(SkillTable), p);
    var k :| 0 <= k < |found| && found[k] == SkillName(p);
    var d := FirstSeen(found);
    assert SkillName(p) in d;
    if |d| <= 10 {
      assert ExtractedSkills(Some(t)) == d;
    }
  }

  // ---------------------------------------------------------------------
  // _extract_salary

  /** The salary figure a row gives for a key, before annualisation. */
  function RawSalary(row: JobRow, k: SalaryKey): Option<real> {
    match k
    case Min => row.minSalary
    case Max => row.maxSalary
    case Median => row.medSalary
  }

  /** Hourly figures are annualised at 2080 hours a year. */
  function PayFactor(row: JobRow): real {
    if row.payPeriod == Some("HOURLY") then 2080.0 else 1.0
  }

  /** The salary dictionary: the figures present, annualised; `None` when
      the row has no figure at all. */
  function SalaryInfo(row: JobRow): Option<map<SalaryKey, real>> {
    if row.minSalary.None? && row.maxSalary.None? && row.medSalary.None? then None
    else Some(map k | k in {Min, Max, Median} && RawSalary(row, k).Some? :: RawSalary(row, k).value * PayFactor(row))
  }

  /** The salary dictionary is absent exactly when the row has no figure;
      otherwise it holds a key for each figure present, annualised. */
  lemma SalaryInfoSpec(row: JobRow)
    ensures SalaryInfo(row).None? <==> row.minSalary.None? && row.maxSalary.None? && row.medSalary.None?
    ensures SalaryInfo(row).Some? ==> forall k :: k in SalaryInfo(row).value <==> RawSalary(row, k).Some?
    ensures SalaryInfo(row).Some? ==> forall k :: k in SalaryInfo(row).value ==>
      SalaryInfo(row).value[k] == RawSalary(row, k).value * PayFactor(row)
  {
  }

  /** A dictionary with exactly the keys and values the row calls for is the
      salary dictionary. */
  lemma SalaryInfoUnique(row: JobRow, info: map<SalaryKey, real>)
    requires forall k :: k in info <==> RawSalary(row, k).Some?
    requires forall k :: k in info ==> info[k] == RawSalary(row, k).value * PayFactor(row)
    ensures info == map[] <==> SalaryInfo(row).None?
    ensures info != map[] ==> info == SalaryInfo(row).value
  {
    if info == map[] {
      assert RawSalary(row, Min).None? && RawSalary(row, Max).None? && RawSalary(row, Median).None?;
    } else {
      var k :| k in info;
      assert RawSalary(row, k).Some?;
    }
  }

  /** The figures present, copied as they are. */
  method CollectSalary(row: JobRow) returns (info: map<SalaryKey, real>)
    ensures forall k :: k in info <==> RawSalary(row, k).Some?
    ensures forall k :: k in info ==> info[k] == RawSalary(row, k).value
  {
    info := map[];
    if row.minSalary.Some? {
      info := info[Min := row.minSalary.value];
    }
    if row.maxSalary.Some? {
      info := info[Max := row.maxSalary.value];
    }
    if row.medSalary.Some? {
      info := info[Median := row.medSalary.value];
    }
  }

  /** Every figure present multiplied by 2080 hours, key by key. */
  method Annualize(row: JobRow, raw: map<SalaryKey, real>) returns (info: map<SalaryKey, real>)
    requires forall k :: k in raw <==> RawSalary(row, k).Some?
    requires forall k :: k in raw ==> raw[k] == RawSalary(row, k).value
    ensures forall k :: k in info <==> RawSalary(row, k).Some?
    ensures forall k :: k in info ==> info[k] == RawSalary(row, k).value * 2080.0
  {
    info := raw;
    var keys := [Min, Max, Median];
    for i := 0 to |keys|
      invariant forall k :: k in info <==> RawSalary(row, k).Some?
      invariant forall k :: k in info ==>
        info[k] == RawSalary(row, k).value * (if k in keys[..i] then 2080.0 else 1.0)
    {
      if keys[i] in info {
        info := info[keys[i] := info[keys[i]] * 2080.0];
      }
    }
    assert keys[..|keys|] == keys;
    assert forall k :: k in keys;
  }

  method ExtractSalary(row: JobRow) returns (salary: Option<map<SalaryKey, real>>)
    ensures salary == SalaryInfo(row)
  {
    var info := CollectSalary(row);
    if row.payPeriod == Some("HOURLY") && info != map[] {
      info := Annualize(row, info);
    }
    SalaryInfoUnique(row, info);
    if info == map[] {
      salary := None;
    } else {
      salary := Some(info);
    }
  }

  // ---------------------------------------------------------------------
  // _create_tech_profile

  function DigitChar(d: nat): (c: char)
    requires d < 10
    ensures '0' <= c <= '9'
  {
    ('0' as int + d) as char
  }

  predicate AllDigits(s: string) {
    forall i :: 0 <= i < |s| ==> '0' <= s[i] <= '9'
  }

  /** The decimal numeral of `n`, without leading zeros. */
  function Decimal(n: nat): (s: string)
    ensures |s| >= 1 && AllDigits(s)
  {
    if n < 10 then [DigitChar(n)] else Decimal(n / 10) + [DigitChar(n % 10)]
  }

  /** The number a string of decimal digits denotes. */
  function DecimalValue(s: string): nat
    requires AllDigits(s)
  {
    if s == [] then 0 else DecimalValue(s[..|s| - 1]) * 10 + (s[|s| - 1] as int - '0' as int)
  }

  lemma {:induction false} DecimalRoundTrip(n: nat)
    ensures DecimalValue(Decimal(n)) == n
  {
    if n >= 10 {
      DecimalRoundTrip(n / 10);
      var s := Decimal(n);
      assert s[..|s| - 1] == Decimal(n / 10);
    }
  }

  lemma {:induction false} ZerosValue(z: nat)
    ensures AllDigits(Repeat('0', z)) && DecimalValue(Repeat('0', z)) == 0
  {
    if z > 0 {
      var r := Repeat('0', z);
      assert r[..z - 1] == Repeat('0', z - 1);
      ZerosValue(z - 1);
    }
  }

  /** Leading zeros do not change the value. */
  lemma {:induction false} LeadingZerosValue(z: nat, s: string)
    requires AllDigits(s)
    ensures AllDigits(Repeat('0', z) + s)
    ensures DecimalValue(Repeat('0', z) + s) == DecimalValue(s)
  {
    var t := Repeat('0', z) + s;
    if s == [] {
      assert t == Repeat('0', z);
      ZerosValue(z);
    } else {
      LeadingZerosValue(z, s[..|s| - 1]);
      assert t[..|t| - 1] == Repeat('0', z) + s[..|s| - 1];
    }
  }

  /** `format(n, '06d')`: the numeral padded with zeros to six digits. */
  function ZeroPad6(n: nat): (s: string)
    ensures AllDigits(s)
  {
    var d := Decimal(n);
    LeadingZerosValue(if |d| < 6 then 6 - |d| else 0, d);
    Repeat('0', if |d| < 6 then 6 - |d| else 0) + d
  }

  function ProfileId(idx: nat): string {
    "tech_profile_" + ZeroPad6(idx)
  }

  /** The number at the end of a profile id is the row index it was made from. */
  lemma ProfileIdRoundTrip(idx: nat)
    ensures |ProfileId(idx)| >= 19 && AllDigits(ProfileId(idx)[13..])
    ensures DecimalValue(ProfileId(idx)[13..]) == idx
  {
    var d := Decimal(idx);
    var z := if |d| < 6 then 6 - |d| else 0;
    assert ProfileId(idx)[13..] == ZeroPad6(idx);
    LeadingZerosValue(z, d);
    DecimalRoundTrip(idx);
  }

  /** Different rows get different ids. */
  lemma ProfileIdInjective(a: nat, b: nat)
    requires ProfileId(a) == ProfileId(b)
    ensures a == b
  {
    ProfileIdRoundTrip(a);
    ProfileIdRoundTrip(b);
  }

  /** The fields of the profile made from a row. */
  function TechProfile(row: JobRow, idx: nat): Profile {
    var title := StandardizeTitleAsWritten(row.title);
    var skills := ExtractedSkills(Some(PyStr(row.skillsDesc) + " " + Take(PyStr(row.description), 1000)));
    var level := TechExperienceLevel(title, PyStr(row.formattedExperienceLevel), PyStr(row.description));
    Profile(
      ProfileId(idx), title, row.companyName, row.location, skills, level,
      TechCareerPath(title, level), SalaryInfo(row), row.formattedWorkType, row.remoteAllowed,
      "Technology", TechSpecialization(title, skills), TechCompanyType(row.companyName))
  }

  method CreateTechProfile(row: JobRow, idx: nat) returns (p: Profile)
    ensures p == TechProfile(row, idx)
  {
    var title := StandardizeTechTitle(row.title);
    var skills := ExtractTechSkills(Some(PyStr(row.skillsDesc) + " " + Take(PyStr(row.description), 1000)));
    var level := TechExperienceLevel(title, PyStr(row.formattedExperienceLevel), PyStr(row.description));
    var salary := ExtractSalary(row);
    p := Profile(
      ProfileId(idx), title, row.companyName, row.location, skills, level,
      TechCareerPath(title, level), salary, row.formattedWorkType, row.remoteAllowed,
      "Technology", TechSpecialization(title, skills), TechCompanyType(row.companyName));
  }

  /** What every assembled profile satisfies: its id encodes the row index,
      the level is 1 to 5, the career path ends at the standardised title,
      at most ten distinct skills, a known specialization, and the company
      type 'Unknown' exactly when the company is missing. */
  lemma TechProfileShape(row: JobRow, idx: nat)
    ensures var p := TechProfile(row, idx);
      && DecimalValue(p.profileId[13..]) == idx
      && p.currentRole == StandardizeTitleAsWritten(row.title)
      && 1 <= p.experienceLevel <= 5
      && p.careerPath[|p.careerPath| - 1].role == p.currentRole
      && |p.skills| <= 10 && Distinct(p.skills)
      && p.specialization in SpecializationLabels
      && (p.companyType == "Unknown" <==> p.currentCompany.None?)
      && (p.salaryInfo.None? <==> row.minSalary.None? && row.maxSalary.None? && row.medSalary.None?)
  {
    ProfileIdField(row, idx);
    ProfileDerivedFields(row, idx);
    ProfileSkillsField(row, idx);
    ProfileSalaryField(row, idx);
  }

  lemma ProfileDerivedFields(row: JobRow, idx: nat)
    ensures var p := TechProfile(row, idx);
      && 1 <= p.experienceLevel <= 5
      && p.careerPath[|p.careerPath| - 1].role == p.currentRole
      && p.specialization in SpecializationLabels
      && (p.companyType == "Unknown" <==> p.currentCompany.None?)
  {
    var p := TechProfile(row, idx);
    assert p.careerPath == TechCareerPath(p.currentRole, p.experienceLevel);
    assert p.specialization == TechSpecialization(p.currentRole, p.skills);
    assert p.companyType == TechCompanyType(p.currentCompany);
  }

  lemma ProfileIdField(row: JobRow, idx: nat)
    ensures |TechProfile(row, idx).profileId| >= 13
    ensures DecimalValue(TechProfile(row, idx).profileId[13..]) == idx
  {
    assert TechProfile(row, idx).profileId == ProfileId(idx);
    ProfileIdRoundTrip(idx);
  }

  lemma ProfileSkillsField(row: JobRow, idx: nat)
    ensures |TechProfile(row, idx).skills| <= 10 && Distinct(TechProfile(row, idx).skills)
  {
    var text := PyStr(row.skillsDesc) + " " + Take(PyStr(row.description), 1000);
    assert TechProfile(row, idx).skills == ExtractedSkills(Some(text));
    ExtractedSkillsSound(text);
  }

  lemma ProfileSalaryField(row: JobRow, idx: nat)
    ensures TechProfile(row, idx).salaryInfo.None? <==>
      row.minSalary.None? && row.maxSalary.None? && row.medSalary.None?
  {
    assert TechProfile(row, idx).salaryInfo == SalaryInfo(row);
    SalaryInfoSpec(row);
  }
}
