# Career Twins Finder — a verified model of the matching pipeline

Career Twins Finder turns job postings into tech profiles, maps each
profile to a fixed-length feature vector, and finds a profile's "career
twins": the profiles most similar to it. From the twins it explains a
match, recommends skills and predicts the next role. This project models
the three core files of that pipeline in Dafny and proves what they
promise:

- `DataProcessor.dfy` holds the profile-derivation helpers of
  `src/data_processor.py`:
  - the tech-job test;
  - title standardisation;
  - skill extraction;
  - the experience level;
  - the career path;
  - the specialization;
  - the company type;
  - the salary dictionary;
  - the assembly of a profile from a posting row.
- `FeatureEngine.dfy` holds `src/feature_engine.py`. The class
  `FeatureEngine` has fitted vocabularies and a top-30 skill list. Its
  methods are `Fit`, `ExtractFeatures`, `Transform` and
  `FeatureImportance`. They are proved against `Fitted`, `FeatureVector`
  and `FeatureNames`, whose slots are described one lemma per feature
  group.
- `Matcher.dfy` holds `src/matcher.py`. The class `CareerMatcher` has its
  lazily set similarity matrix. Its methods are `FindTwins`,
  `ExplainMatchDetailed`, `GetSkillRecommendations` and
  `PredictNextRoles`. Each is proved equal to a specification function
  (`TwinsOf`/`TwinIndices`, `Explanations`/`MatchStrength`,
  `SkillRecommendations`, `NextRolePredictions`), and lemmas state what
  those functions guarantee. The skill categoriser, reason and priority
  cascades are functions.
- Supporting modules:
  - `Strings.dfy` has Python's `str` operations on ASCII text (`lower`,
    `upper`, `in`, `replace`, `split`, `join`, `strip`, `capitalize`,
    `title`).
  - `Keywords.dfy` has the `any(word in text ...)` test and first-match
    `if/elif` cascades.
  - `Ranking.dfy` has Python's stable `sort(reverse=True)` and
    `Counter.most_common`.
  - `Profiles.dfy` has the profile and posting records.

Conventions:
- A pandas NaN cell is `None` of an `Option`, and `str(NaN)` is `"nan"`.
- A set that the source iterates is iterated in first-occurrence order.
- Reals stand for Python floats.
- The cosine similarity matrix is an input of `CareerMatcher`: a square
  matrix with one row and one column per profile.

## Model

| member | source | states |
|---|---|---|
| Ranking.SortByScoreSpec | src/matcher.py:160 | ranking by a score, highest first, is a permutation of the input in non-increasing score order |
| Ranking.SortByScoreStable | src/matcher.py:160 | items with equal scores keep their input order, as Python's stable sort keeps them |
| Ranking.SortByScoreDistinct | src/matcher.py:284 | ranking never duplicates an item: distinct input gives distinct output |
| Ranking.SumBySortByScore | src/matcher.py:284 | ranking leaves the sum of any per-item count unchanged |
| Ranking.MostCommonEntries | src/matcher.py:258-262 | each `most_common` entry is an element of the list with its exact number of occurrences, at least 1 |
| Ranking.MostCommonOrdered | src/feature_engine.py:39-40 | `most_common` entries come by non-increasing count |
| Ranking.MostCommonTies | src/feature_engine.py:39-40 | entries with equal counts come in order of first occurrence |
| Ranking.MostCommonComplete | src/feature_engine.py:39-40 | an element left out of `most_common(n)` occurs no more often than the last entry, and the list then has exactly n entries |
| Ranking.MostCommonDistinct | src/matcher.py:266-270 | `most_common` names each element at most once |
| Ranking.FirstSeenOrder | src/data_processor.py:194 | the de-duplicated list keeps the order of first occurrences |
| Keywords.MatchCountPositive | src/data_processor.py:76 | the keyword count is positive exactly when some keyword occurs |
| Keywords.MatchCountTwo | src/data_processor.py:76-77 | the count reaches 2 exactly when two different listed keywords occur |
| Keywords.CascadeFirstMatch | src/data_processor.py:201-210 | in an `if/elif` chain of keyword tests the first test that holds decides |
| Keywords.CascadeNoMatch | src/data_processor.py:211-217 | when no test holds, the `else` value is returned |
| Keywords.CascadeOutcome | src/matcher.py:169-180 | the answer is the fallback with no test holding, or the label of the first test that holds |
| Keywords.CascadeLabel | src/data_processor.py:250-273 | a cascade answers only with one of its labels or its fallback |
| DataProcessor.IsTechJobIff | src/data_processor.py:58-77 | a posting is a tech job exactly when two different indicator keywords occur in its lower-cased title, company and first 500 description characters |
| DataProcessor.IsTechJobReadsPrefix | src/data_processor.py:61 | only the first 500 characters of the description matter |
| DataProcessor.SoftwareEngineerIsTech | src/data_processor.py:64-77 | the title "Software Engineer" alone makes a tech job ('software' and 'engineer') |
| DataProcessor.TechExperienceLevel | src/data_processor.py:196-217 | the level is always 1 to 5 |
| DataProcessor.LevelFromKeyword | src/data_processor.py:198-210 | the first tier (junior, mid, senior, staff, management) whose keyword occurs gives its level |
| DataProcessor.LevelFromYears | src/data_processor.py:211-217 | without a tier keyword, '0-2'/'1-3' give 1, then '10+'/'15+' give 4, else 2 |
| DataProcessor.LevelThreeOrFiveNeedsKeyword | src/data_processor.py:205-217 | levels 3 and 5 are only ever given by their own keywords |
| DataProcessor.SeniorInternIsJunior | src/data_processor.py:201-206 | "Senior Intern" is level 1: the junior tier is tried first |
| DataProcessor.TechCareerPath | src/data_processor.py:219-248 | every path has at least two steps and ends at the current title |
| DataProcessor.CareerPathYears | src/data_processor.py:222-248 | the paths last 2, 4, 7, 8 and 9 years for levels 1 to 5; any other level gets the level-2 path |
| DataProcessor.TechSpecialization | src/data_processor.py:250-273 | the answer is one of the seven specialization labels |
| DataProcessor.TitleBeforeSkills | src/data_processor.py:255-266 | a title keyword decides whatever the skills are |
| DataProcessor.GeneralSoftwareIff | src/data_processor.py:250-273 | 'General Software' exactly when neither the title nor the skills name an area |
| DataProcessor.TechCompanyType | src/data_processor.py:275-295 | 'Unknown' exactly for a missing company; otherwise one of the five tiers |
| DataProcessor.CompanyTypeFirstMatch | src/data_processor.py:280-295 | the first tier (FAANG, Unicorn, Enterprise, Startup) whose name occurs decides |
| DataProcessor.GoogleLabsIsFaang | src/data_processor.py:283-293 | "Google Labs" is FAANG, not Startup: FAANG is tried first |
| DataProcessor.WordMappingKeys | src/data_processor.py:131-143 | the word form of the title mapping has the same entries, in the same order |
| DataProcessor.WordMappingExpansions | src/data_processor.py:131-147 | each word-form expansion is the lower-cased expansion of the mapping |
| DataProcessor.StandardizeTechTitle | src/data_processor.py:123-150 | the method gives the title as the source standardises it, substring replacements included (see Findings): 'Software Engineer' without a title |
| DataProcessor.ReplaceEach | src/data_processor.py:145-147 | the loop applies the mapping entries one after another, each replacing every occurrence of its abbreviation in the text the earlier entries left, as `ReplaceAll` |
| DataProcessor.StandardTitleSplits | src/data_processor.py:150 | the standardised title is its words joined by single spaces |
| DataProcessor.TitleWordsCapitalized | src/data_processor.py:150 | each word of a standardised title is non-empty, has no whitespace and is capitalised |
| DataProcessor.ReplaceAllAbsent | src/data_processor.py:145-147 | entries whose abbreviation does not occur in the text leave it unchanged |
| DataProcessor.NoAbbreviationTitleWords | src/data_processor.py:145-150 | a title in which no abbreviation occurs, even inside a word, keeps its words, each capitalised |
| DataProcessor.CorrectedWordsCapitalized | src/data_processor.py:145-150 | with whole-word replacement, each word of the title is non-empty, has no whitespace and is capitalised |
| DataProcessor.CorrectedTitleSplits | src/data_processor.py:150 | the whole-word title splits back into its words |
| DataProcessor.NoAbbreviationKeepsWords | src/data_processor.py:145-150 | a title with no abbreviation among its words keeps its words, each capitalised |
| DataProcessor.EngineerAsWritten | src/data_processor.py:131-150 | with the replacements as written, the abbreviation-free title "Engineer" becomes "Engineerineer" |
| DataProcessor.EngineerCorrected | src/data_processor.py:123-150 | with whole-word replacement, "Engineer" stays "Engineer" |
| DataProcessor.EngineerSubstitution | src/data_processor.py:141-147 | the substring mapping turns "engineer" into "engineerineer" |
| DataProcessor.ExtractTechSkills | src/data_processor.py:152-194 | the nested loops over the pattern table compute the extracted skills |
| DataProcessor.FoundSound | src/data_processor.py:187-192 | every found name is the cleaned, title-cased name of a pattern that matched |
| DataProcessor.FoundComplete | src/data_processor.py:187-192 | every pattern that matched has its name found |
| DataProcessor.ExtractedSkillsSound | src/data_processor.py:187-194 | at most ten distinct skills, each the name of a pattern found in the upper-cased text |
| DataProcessor.ExtractedSkillsComplete | src/data_processor.py:187-194 | a skill that matched is missing only when ten skills are already reported |
| DataProcessor.SalaryInfoSpec | src/data_processor.py:297-313 | None exactly when no salary figure is present; otherwise the keys are exactly the present figures, each annualised by 2080 for an hourly pay period |
| DataProcessor.SalaryInfoUnique | src/data_processor.py:297-313 | any dictionary with exactly those keys and values is the one returned |
| DataProcessor.ExtractSalary | src/data_processor.py:297-313 | the fill-then-rescale loop returns the salary dictionary |
| DataProcessor.CollectSalary | src/data_processor.py:299-306 | a salary key is present exactly when its column has a value, and holds that value |
| DataProcessor.Annualize | src/data_processor.py:308-311 | every figure present is multiplied by 2080 hours and no key is added or lost |
| DataProcessor.DecimalRoundTrip | src/data_processor.py:106 | reading back the decimal numeral of n gives n |
| DataProcessor.LeadingZerosValue | src/data_processor.py:106 | zero padding does not change the number |
| DataProcessor.ProfileIdRoundTrip | src/data_processor.py:106 | the digits after `tech_profile_` read back as the row index |
| DataProcessor.ProfileIdInjective | src/data_processor.py:106 | different rows get different profile ids |
| DataProcessor.CreateTechProfile | src/data_processor.py:79-121 | the assembled profile has the fields of `TechProfile`, its role being the title as the source standardises it |
| DataProcessor.TechProfileShape | src/data_processor.py:79-121 | an assembled profile's id encodes its row, its role is the title standardised as written, its level is 1 to 5, its path ends at its title, it has at most ten distinct skills, a known specialization, company type 'Unknown' exactly without a company, and salary None exactly without figures |
| FeatureEngine.SkillPoolMembers | src/feature_engine.py:34-36 | a skill is in the pooled list exactly when some profile has it |
| FeatureEngine.FittedVocabularies | src/feature_engine.py:20-31 | after `fit` each vocabulary is duplicate-free, holds its fallback tokens ('Unknown', and 'General' for specializations) and every corpus value |
| FeatureEngine.TopSkillsDistinct | src/feature_engine.py:39-40 | at most 30 top skills, none twice, each held by some profile |
| FeatureEngine.TopSkillsOrdered | src/feature_engine.py:39-40 | top skills come by non-increasing corpus count, ties in first-seen order |
| FeatureEngine.TopSkillsComplete | src/feature_engine.py:39-40 | a skill left out of the top list is no more frequent than the 30th one, and the list is then full |
| FeatureEngine.FeatureEngine.constructor | src/feature_engine.py:7-14 | a new engine has empty vocabularies and no top skills |
| FeatureEngine.FeatureEngine.Fit | src/feature_engine.py:16-44 | `fit` leaves the fitted vocabularies and top skills of the profiles |
| FeatureEngine.FeatureEngine.ExtractFeatures | src/feature_engine.py:67-232 | the append-and-pad loops compute the feature vector of the profile |
| FeatureEngine.FitEncoders | src/feature_engine.py:19-40 | the vocabularies with their fallback tokens and the top skills are exactly `Fitted` of the profiles |
| FeatureEngine.PoolSkills | src/feature_engine.py:34-36 | the loop concatenates every profile's skills in order |
| FeatureEngine.BaseFeatures | src/feature_engine.py:70-172 | the thirteen appends give the base slots `Base` of the profile |
| FeatureEngine.AppendIndicators | src/feature_engine.py:179-180 | one 1.0/0.0 slot per top skill is appended after the given slots |
| FeatureEngine.PadTo | src/feature_engine.py:226-230 | zeros are appended up to the width and the vector is cut to it |
| FeatureEngine.FeatureEngine.Transform | src/feature_engine.py:46-52 | one raw feature row per profile, in order |
| FeatureEngine.FeatureEngine.FeatureImportance | src/feature_engine.py:234-267 | the names of the feature slots |
| FeatureEngine.FeatureVector | src/feature_engine.py:225-232 | every feature vector has exactly 50 entries |
| FeatureEngine.Code | src/feature_engine.py:120-172 | a code is a position in the vocabulary: of the value when known, otherwise of the fallback |
| FeatureEngine.SlotValue | src/feature_engine.py:225-230 | each slot holds the value appended at its position, or the 0.0 padding |
| FeatureEngine.BaseSlot | src/feature_engine.py:74-172 | the first 13 slots are the base features |
| FeatureEngine.TenureSlots | src/feature_engine.py:80-90 | slot 2 is the path length, slot 3 the total years, slot 4 their ratio, or 0 and 2.0 for an empty path |
| FeatureEngine.SalarySlot | src/feature_engine.py:96-104 | slot 6 is min(median, 500000) / 50000, in [0, 10] for a non-negative median, and 5.0 without a median |
| FeatureEngine.WorkTypeSlot | src/feature_engine.py:108-117 | slot 7 is one of the five weights and differs from 1.0 exactly for the four other listed work types |
| FeatureEngine.NormalizedRange | src/feature_engine.py:150 | a code divided by the vocabulary size lies in [0, 1) |
| FeatureEngine.MissingPlaceIsUnknown | src/feature_engine.py:152-172 | a missing (NaN) company or location is never found in the vocabulary, so its slot is the one 'Unknown' gets |
| FeatureEngine.CodeSlotsInRange | src/feature_engine.py:141-172 | the role, company and location slots lie in [0, 1) |
| FeatureEngine.CategoricalCodeSlots | src/feature_engine.py:119-139 | the specialization and company-type slots are positions in their vocabularies |
| FeatureEngine.RoleCodesSeparate | src/feature_engine.py:141-150 | two known roles get the same role slot exactly when they are the same role |
| FeatureEngine.SkillIndicatorSlot | src/feature_engine.py:176-180 | slot 13 + i is 1.0 exactly when the profile has the i-th top skill, else 0.0 |
| FeatureEngine.CountInPositive | src/feature_engine.py:184-212 | a category count is positive exactly when the profile has a member skill |
| FeatureEngine.CategorySlot | src/feature_engine.py:184-212 | each category slot follows the indicators, is positive exactly when the profile has a skill of the category, and is at most the category size over its scale |
| FeatureEngine.NonEmptyCategoriesPositive | src/feature_engine.py:214-222 | the number of non-empty categories is positive exactly when some category is non-empty |
| FeatureEngine.DiversitySlot | src/feature_engine.py:214-223 | the diversity slot lies in [0, 1] and is 0 exactly when no category has a skill of the profile |
| FeatureEngine.PaddingSlots | src/feature_engine.py:225-227 | every slot after the diversity ratio is 0.0 |
| FeatureEngine.FeatureNamesAligned | src/feature_engine.py:234-267 | at most 50 names; with at most 30 top skills, name 13 + i is `skill_` and the i-th top skill |
| Matcher.RankedIndicesSpec | src/matcher.py:24 | ranking a similarity row lists every index once, most similar first |
| Matcher.WithoutRanked | src/matcher.py:24-27 | dropping the query index leaves N - 1 distinct indices, all but the query, still by similarity |
| Matcher.TwinIndicesSpec | src/matcher.py:23-27 | `find_twins(i, k)` picks exactly min(k, N - 1) indices, never i, none twice, by non-increasing similarity |
| Matcher.TwinIndicesTop | src/matcher.py:24-27 | an index left out is no more similar than the last twin, and only when all k places are taken |
| Matcher.TwinsSpec | src/matcher.py:23-35 | each twin record carries the profile and similarity at its index; min(k, N - 1) records, never the query, by non-increasing similarity |
| Matcher.CareerMatcher.constructor | src/matcher.py:7-10 | a new matcher holds the profiles and features and no similarity matrix |
| Matcher.CareerMatcher.ComputeSimilarities | src/matcher.py:12-15 | stores the cosine matrix and returns it |
| Matcher.CareerMatcher.FindTwins | src/matcher.py:17-37 | computes the matrix only when absent, leaves a set matrix unchanged, and returns the twin records of `TwinsOf`/`TwinIndices` |
| Matcher.CommonSkillsSpec | src/matcher.py:48-50 | the shared skills are exactly the skills both profiles have, each once |
| Matcher.CommonSkillsSymmetric | src/matcher.py:48-50 | both profiles share the same number of skills, whichever comes first |
| Matcher.Line | src/matcher.py:53-84 | a rule's line weighs its bonus when the rule holds and nothing otherwise |
| Matcher.TotalWeightAppend | src/matcher.py:53-84 | the weight of joined explanation lists is the sum of their weights |
| Matcher.StrengthIsTotalWeight | src/matcher.py:53-84 | the strength equals the total weight of the explanation lines, so the remote line adds nothing |
| Matcher.StrengthRangeAndSymmetry | src/matcher.py:53-80 | the strength lies in 0..7 and does not depend on the order of the two profiles |
| Matcher.SelfMatch | src/matcher.py:62-72 | a profile matched with itself has strength at least 4 and names its specialization and level |
| Matcher.AppendRuleOrdered | src/matcher.py:53-84 | appending at most one line of a later rule keeps the lines in rule order |
| Matcher.ExplanationsInRuleOrder | src/matcher.py:53-84 | at most five lines, in the order skills, specialization, level, company type, remote |
| Matcher.SkillLinesShown | src/matcher.py:53-58 | the strong-stack line names four distinct shared skills; the shared-technologies line names all of the two or three shared skills |
| Matcher.CareerMatcher.ExplainMatchDetailed | src/matcher.py:39-86 | the step-by-step appends give `Explanations` and the increments give `MatchStrength`, which is the weight of the lines |
| Matcher.DjangoAsWritten | src/matcher.py:169-170 | with the substring test as written, "Django" and "Mongodb" are programming languages |
| Matcher.DjangoCorrected | src/matcher.py:165-180 | with 'go' matched only as a whole word, "Django" is a framework and "Mongodb" a database |
| Matcher.CategorizeSkillAsWritten | src/matcher.py:165-180 | a skill is a programming language exactly when one of the language words occurs in its lower-cased text, even inside a longer word; otherwise the first later rule that matches decides |
| Matcher.CategorizeSkill | src/matcher.py:165-180 | with 'go' matched as a whole word: a programming language exactly when the skill names one; otherwise the first later rule that matches decides |
| Matcher.CategorizeCorrectionScope | src/matcher.py:169 | the correction changes nothing for a skill without "go" in it, and a skill with the word "go" is still a language |
| Matcher.AdoptionAtLeast | src/matcher.py:185 | the adoption rate reaches p percent exactly when 100 × frequency reaches p × total |
| Matcher.ReasonThresholds | src/matcher.py:182-198 | essential exactly when 3 in 5 twins have the skill; advancement needs 2 in 5 and a higher typical level; the cloud and peer reasons need 3 in 10; emerging exactly below 3 in 10 for a non-AI/ML skill |
| Matcher.PriorityFactors | src/matcher.py:200-215 | the priority is importance × 100 × the type factor × the frequency factor, between 100 and 132 times a non-negative importance |
| Matcher.PriorityMonotone | src/matcher.py:200-215 | the priority grows with the importance and the frequency |
| Matcher.MissingSkillsSpec | src/matcher.py:105 | a twin's missing skills are exactly its skills the user lacks, each once |
| Matcher.HoldersBound | src/matcher.py:98-120 | at most all twins hold a skill, and some qualifying twin holds it exactly when the count is positive |
| Matcher.CountSpec | src/matcher.py:107-120 | one tally step keeps the analysis well formed and counts the skill once more |
| Matcher.CountAllSpec | src/matcher.py:107-120 | tallying a twin's missing skills keeps the analysis well formed |
| Matcher.AnalyzeTwinsSpec | src/matcher.py:98-120 | the analysis lists each skill once, only skills the user lacks, exactly those a qualifying twin holds, with the totals over those twins |
| Matcher.CandidatesSpec | src/matcher.py:128-157 | each candidate is built from its skill's totals; every tallied skill gives one; no skill twice |
| Matcher.RecommendationsRanked | src/matcher.py:159-163 | at most six recommendations, highest priority first, no skill twice |
| Matcher.RecommendationFromAnalysis | src/matcher.py:128-157 | each recommendation is built from the totals over the qualifying twins that hold its skill |
| Matcher.RecommendationSource | src/matcher.py:98-134 | a recommended skill is one the user lacks, some twin of at least the user's level holds it, and its type is its category as the source's substring test gives it |
| Matcher.RecommendFigures | src/matcher.py:128-157 | a recommendation's figures are the adoption rate, importance, average level and priority of its totals, and its type is the category as written |
| Matcher.RecommendationFigures | src/matcher.py:128-157 | adoption is frequency / len(twins) × 100 with 1 ≤ frequency ≤ len(twins); importance and priority follow from the holders' totals |
| Matcher.RecommendationBounds | src/matcher.py:128-150 | adoption lies in (0, 100] and the typical level is at least the user's |
| Matcher.RecommendationsEmpty | src/matcher.py:98-163 | no recommendation exactly when every qualifying twin's skills are among the user's |
| Matcher.RecommendationsTop | src/matcher.py:159-163 | a lacking skill of a qualifying twin is left out only when six skills of at least its priority are recommended |
| Matcher.CareerMatcher.CountSkills | src/matcher.py:107-120 | the per-skill loop updates the tally as `CountAll` does |
| Matcher.CareerMatcher.TallySkills | src/matcher.py:98-120 | the loop over twins builds the analysis of `AnalyzeTwins` |
| Matcher.CareerMatcher.GetSkillRecommendations | src/matcher.py:88-163 | tally, build, sort and truncate give `SkillRecommendations` |
| Matcher.RoleTotalsSpec | src/matcher.py:225-251 | a role's count is at most the promoted twins, positive exactly when a promoted twin holds the role, and its skill and company pools come from those twins |
| Matcher.CountSumElsewhere | src/matcher.py:242 | updating another role leaves the summed counts alone |
| Matcher.CountSumBump | src/matcher.py:242 | one more twin in a role raises the summed counts by one |
| Matcher.GroupTwinsSpec | src/matcher.py:225-251 | one group per role of a promoted twin, each once, with that role's totals; the counts add up to the promoted twins |
| Matcher.PredictionCandidatesSpec | src/matcher.py:254-281 | each candidate is the prediction built from its role's totals |
| Matcher.PredictionCandidatesComplete | src/matcher.py:254-256 | every group with twins gives a candidate |
| Matcher.PredictionCandidatesDistinct | src/matcher.py:254-281 | no role is predicted twice |
| Matcher.PredictionCandidatesSum | src/matcher.py:242 | the candidates' counts add up to the groups' counts |
| Matcher.SumByAppend | src/matcher.py:242 | a count summed over joined lists is the sum of the two |
| Matcher.TopSkillsSpec | src/matcher.py:258-263 | at most three required skills, distinct, commonest first, each occurring at least half as often as the group has twins |
| Matcher.TypicalCompaniesSpec | src/matcher.py:266-270 | at most two typical companies, distinct, non-empty, from the group |
| Matcher.PredictionsRanked | src/matcher.py:284-286 | at most three predictions, highest probability first, no role twice |
| Matcher.PredictionFromGroups | src/matcher.py:254-281 | each prediction is built from its role's totals over the promoted twins |
| Matcher.PredictionFigures | src/matcher.py:225-281 | a prediction rests on 1 to len(twins) promoted twins of its role, its confidence is their share in (0, 100], and its skills and companies come from them |
| Matcher.PredictionLists | src/matcher.py:258-278 | required skills: at most three, distinct, commonest first, each held at least half as often as the count; typical companies: at most two, distinct, non-empty |
| Matcher.RoleSimilarityBound | src/matcher.py:243 | with similarities of at most 1 a role's summed similarity is at most its count |
| Matcher.ProbabilityBelowConfidence | src/matcher.py:272-276 | with similarities of at most 1 (as cosine similarities are) a probability never exceeds its confidence |
| Matcher.PercentMonotone | src/matcher.py:272-276 | a larger share gives a larger percentage |
| Matcher.PredictionsCountTotal | src/matcher.py:242 | the `based_on_count` values sum to at most the promoted twins, hence at most len(twins) |
| Matcher.PredictionsEmpty | src/matcher.py:225-286 | no prediction exactly when no twin is one level above the user |
| Matcher.PredictionsTop | src/matcher.py:284-286 | a role of a promoted twin is left out only when three roles of at least its probability are predicted |
| Matcher.CareerMatcher.PredictNextRoles | src/matcher.py:217-286 | grouping, building, sorting and truncating give `NextRolePredictions` |
| Matcher.GroupByRole | src/matcher.py:224-252 | the twin-by-twin loop builds exactly the groups `GroupTwins` of the promoted twins |
| Matcher.CollectPredictions | src/matcher.py:255-281 | the loop over the groups yields one candidate per group with a positive count, in group order |

## Left out

- `cosine_similarity` (src/matcher.py:14) is a floating-point library routine. Its result is the `cosine` argument of the `CareerMatcher` constructor. Only its shape is assumed. `ProbabilityBelowConfidence` assumes its values are at most 1.
- `StandardScaler.fit_transform` and `np.nan_to_num` in `transform` are batch floating-point statistics. `FeatureEngine.FeatureEngine.Transform` returns the raw feature rows.
- Floating point in general: all arithmetic is on exact reals, so rounding is not modelled.
- Matcher.TwinIndices: ties in similarity are ranked lower index first, but `np.argsort` on ties is unstable and then reversed. Only the non-increasing order of similarities is claimed about the source.
- Matcher.CommonSkills, Matcher.MissingSkills and DataProcessor.ExtractedSkills: the source iterates Python sets, whose order is unspecified. The model uses first-occurrence order, so which four shared skills are shown and which ten extracted skills are kept is one possible choice.
- FeatureEngine.Fitted: each vocabulary is kept in first-seen order, not sorted as `LabelEncoder` sorts it. Codes are positions in that order, so the code slots' exact values differ from the source's. Their range [0, 1) and the fact that distinct known values get distinct codes are the same as in the source.
- DataProcessor.SkillTable: each regular expression is modelled as the literal texts it can match. The regex engine is not modelled.
- Matcher.CareerMatcher.FindTwins: `k` is a natural number. A negative `n_twins` (which Python slices from the end) and a negative `profile_idx` are not modelled.
- Explanation and reason texts are the datatypes `Explanation` and `Reason`, which carry the values they quote. The `:.0f`/`:.1f` rendering is not modelled.
- The `appears_in_levels` and `specializations` lists of the skill analysis are accumulated but never read, so they are not modelled. So is the `specializations` list of the role groups, and `current_spec` (an unused argument of `_calculate_priority`).
- Loading and sampling the CSV with pandas (`load_data`, `create_tech_profiles`), and all printing, are I/O. `_create_tech_profile` is modelled from an already read row.
- Strings are ASCII for case mapping and whitespace. Unicode case folding is not modelled.
- The tech-job comment speaks of three keywords, but the code tests for at least two. The model follows the code.
- The feature engine's category lists name JavaScript, TypeScript, HTML, CSS, Node.Js, AWS, GCP, SQL, MongoDB, PostgreSQL, MySQL, TensorFlow and PyTorch. Extracted skills are title-cased (Javascript, Typescript, Html, Css, Nodejs, Aws, Gcp, Sql, Mongodb, Postgresql, Mysql, Tensorflow, Pytorch), so those thirteen list entries never count. The model keeps both spellings as written.
- FeatureEngine.RemoteFlag: a NaN remote flag passes the `is not None` test, so the source appends NaN, which `np.nan_to_num` in `transform` later turns into 0.0. The model writes 0.0 into the slot directly, so `FeatureEngine.FeatureEngine.ExtractFeatures` differs from the source's raw `extract_features` in that one slot.
- Strings.IsSpace: whitespace is space, tab, newline, vertical tab, form feed and carriage return. The separators \x1c to \x1f, which Python's `split()` and `strip()` also treat as whitespace, are not included.

## Findings

| source | as written | input that shows it | evidently intended | confidence | as-written member | corrected member |
|---|---|---|---|---|---|---|
| src/data_processor.py:131-147 | every mapping key is replaced as a substring of the lower-cased title, one after another, so the key 'eng' also matches inside an already spelled-out 'engineer' | the title "Engineer", which holds no abbreviation, becomes "Engineerineer" | abbreviations are expanded only where they stand as words; a title without one keeps its words | not executed | DataProcessor.EngineerAsWritten | DataProcessor.NoAbbreviationKeepsWords |
| src/matcher.py:169 | `'go' in skill_lower` is a substring test, so any skill containing the letters "go" is a programming language | the extracted skills "Django" and "Mongodb" are categorised as Programming Language | "go" names the Go language only as a whole word: Django is a framework and Mongodb a database | not executed | Matcher.DjangoAsWritten | Matcher.DjangoCorrected |

The profiles and recommendations of the model follow the code as written:
`TechProfile` uses `StandardizeTitleAsWritten` and `Recommend` uses
`CategorizeSkillAsWritten`. The corrected definitions, `StandardizeTitle`
and `CategorizeSkill`, stand beside them with their intended properties
proved.
