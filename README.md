# Placement readiness platform: analysis core in Dafny

This project models the core of a single-page web application that helps a student prepare for campus placement interviews. The candidate enters a company name, a role and a job description (JD). The application then produces the following:

- **Skill extraction** (`src/lib/skillCategories.js`): the JD is lower-cased and scanned for keywords in six categories (Core CS, Languages, Web, Data, Cloud/DevOps, Testing).
  - The single-letter keyword "C" is matched as a whole word, and only when neither "c++" nor "c#" is present. Every other keyword is matched as a substring.
  - When no category matches, the result is the "General" fresher profile.
- **Analysis** (`src/lib/analysis.js`):
  - a readiness score;
  - a four-round checklist;
  - a five-block seven-day plan;
  - ten likely interview questions, padded from three generic ones;
  - `runAnalysis`, which gathers all of the above together with company intel and a round mapping.
- **Company intel** (`src/lib/companyIntel.js`):
  - a known-enterprise list matched by substring in either direction;
  - industry inference from word-bounded keywords;
  - size category and hiring focus;
  - an enterprise (four rounds) or startup (three rounds) interview mapping.
- **Schema** (`src/lib/schema.js`): the stored entry shape. It covers normalising an analysis result into an entry, validating an entry, and migrating old or partial entries (or returning null when an entry is corrupted).
- **History** (`src/lib/history.js`): a browser-storage list of entries with these operations:
  - listing, with migration, skipping and newest-first ordering;
  - saving a new entry at the front;
  - finding an entry by id;
  - merging updates into an entry;
  - the latest saved id.
- **Results page helpers** (`src/pages/dashboard/ResultsPage.jsx`):
  - the live score, as the candidate marks skills "know" or "practice";
  - the skills still to practise;
  - writing a confidence toggle back to history;
  - the plain-text export of the plan, the checklist and the questions.
- **Test checklist** (`src/lib/testChecklist.js`): ten named tests. All of them must be checked before shipping.
- **Proof submission** (`src/lib/proofSubmission.js`):
  - eight proof steps;
  - three artifact links, validated as http(s) URLs;
  - the "shipped" gate, which needs all steps, all tests and all links;
  - the final submission text.

The Dafny modules follow these files:
- `Wrappers`, `Json` and `Text` are shared helpers: an option type, JSON values with JavaScript truthiness, and string operations.
- `SkillCategories`, `Analysis`, `CompanyIntel`, `Schema`, `History`, `Results`, `Export`, `TestChecklist` and `ProofSubmission` model one source file each.
- `Records` gives the JSON form of what `runAnalysis` returns.
- `SavedAnalysis` follows the submit path of `src/pages/dashboard/AnalyzePage.jsx:25-26`: `runAnalysis` followed by `saveEntry`.

Pure computations are functions. Loops that the source writes as loops are methods with invariants, each proved equal to a specification function:
- the keyword and category scans;
- the question padding;
- the live score;
- the history migration loop;
- the checklist and step-completion reads.

The three storage-backed modules are classes whose fields hold the stored value. Their methods state the new stored value.
- `History.HistoryStore` holds the entry list and the latest id.
- `TestChecklist.TestChecklistStore` holds the checklist object.
- `ProofSubmission.ProofStore` holds the submission and the steps.

### Where the code and its comments part ways

The model follows the code:
- **Readiness score.** The comment on `computeReadinessScore` (`src/lib/analysis.js:14-15`) promises a score from 0 to 100. The score starts at 35, and the bonuses add at most 30 + 10 + 10 + 10. The result therefore always lies in 35..95, and the clamp never applies (`Analysis.ScoreNeverReaches100`, `Analysis.ScoreUnclamped`).
- **Checklist sizes.** The comment on `buildChecklist` (`src/lib/analysis.js:28`) promises 5 to 8 items per round. Round 2 has 4 items when no Core CS skill is found, and round 3 can have only 3 (`Analysis.BuildChecklist`).
- **Question padding.** The padding in `buildQuestions` (`src/lib/analysis.js:207-211`) adds each of the first two generic questions at most once. After that it repeats the third generic question (`Analysis.PadRepeatsThird`).
- **Round fallback.** The fallback round mapping (`src/lib/companyIntel.js:135-139`) and the 'Round' default title (`src/lib/schema.js:86`) are never produced (`CompanyIntel.FallbackUnreachable`, `Schema.RoundTitleNeverFallback`).
- **Migration of entries without an id.** `migrateEntry` returns a valid entry unchanged. An invalid entry is rebuilt. For an entry without an id, the rebuilt entry is invalid again, and migrating it a second time changes its skills (`Schema.MigrateNotIdempotentWithoutId`). With a non-empty string id and a string createdAt, migration is idempotent (`Schema.MigrateIdempotentWithId`).

## Model

| member | source | states |
|---|---|---|
| SkillCategories.FindTags | src/lib/skillCategories.js:38-43 | The tags found for one category are exactly the specification `Found`: each matching keyword in its display form, in keyword order, without repeats |
| SkillCategories.ScanCategories | src/lib/skillCategories.js:36-48 | The category map and name list are the specification `Scan`: a category appears exactly when it has a tag |
| SkillCategories.ExtractSkills | src/lib/skillCategories.js:30-57 | The extracted skills are the specification `Extract` of the trimmed, lower-cased JD |
| SkillCategories.CSuppressedByLongerKeywords | src/lib/skillCategories.js:19-20 | "C" never matches a text that contains "c++" or "c#" |
| SkillCategories.CIsWholeWord | src/lib/skillCategories.js:21 | Otherwise "C" matches exactly when "c" occurs as a whole word |
| SkillCategories.OtherKeywordIsSubstring | src/lib/skillCategories.js:23 | Any keyword other than "C" matches exactly when its lower-cased form is a substring of the text |
| SkillCategories.MatchKeyword | src/lib/skillCategories.js:17-24 | A match always means the lower-cased keyword occurs in the text. For any keyword but "C" the converse holds too, and a "C" match means neither "c++" nor "c#" occurs |
| SkillCategories.SubsumedKeyword | src/lib/skillCategories.js:23 | If a keyword matches, every keyword whose lower-cased form occurs inside it matches too |
| SkillCategories.LowerKeepsOccurrence | src/lib/skillCategories.js:23 | Lower-casing both strings keeps an occurrence of one inside the other |
| SkillCategories.JavaScriptImpliesJava | src/lib/skillCategories.js:9 | A JD mentioning JavaScript is also credited with Java |
| SkillCategories.MySqlImpliesSql | src/lib/skillCategories.js:11 | A JD mentioning MySQL is also credited with SQL |
| SkillCategories.NothingMatchesEmpty | src/lib/skillCategories.js:17-24 | No non-empty keyword matches the empty text |
| SkillCategories.FoundHasNoDuplicates | src/lib/skillCategories.js:41 | The found tags of a category are pairwise distinct |
| SkillCategories.FoundMembers | src/lib/skillCategories.js:38-43 | A tag is found exactly when some keyword of the category matches and displays as that tag |
| SkillCategories.FoundHasSource | src/lib/skillCategories.js:39-41 | Every found tag comes from a matching keyword |
| SkillCategories.SourceIsFound | src/lib/skillCategories.js:39-41 | Every matching keyword contributes its display form |
| SkillCategories.CapitalIsDisplay | src/lib/skillCategories.js:40 | A keyword that does not start with a lower-case letter is its own display form |
| SkillCategories.FoundIsMatched | src/lib/skillCategories.js:38-43 | For distinct keywords that do not start lower-case, the found tags are exactly the matching keywords |
| SkillCategories.MatchedMembers | src/lib/skillCategories.js:38-43 | A keyword is among the matched ones exactly when it is in the list and matches |
| SkillCategories.TableKeywordsWellFormed | src/lib/skillCategories.js:7-14 | The keywords of every category are non-empty, none starts with a lower-case letter (so each is its own display form), and within a category they are distinct |
| SkillCategories.TableNamesDistinct | src/lib/skillCategories.js:7-14 | The category names are distinct and none is "General" |
| SkillCategories.ScanNames | src/lib/skillCategories.js:44-47 | The name list is the categories with a non-empty tag list, in table order |
| SkillCategories.ScanEntries | src/lib/skillCategories.js:44-47 | A category is in the map exactly when it has tags, and then it maps to them |
| SkillCategories.ScanKeys | src/lib/skillCategories.js:44-47 | Every key of the map is a category name |
| SkillCategories.ScanFacts | src/lib/skillCategories.js:36-48 | All of the scan facts above together, and "General" is never a key of the scan |
| SkillCategories.NamesEmptyIff | src/lib/skillCategories.js:44-47 | No names are listed exactly when no category has a tag |
| SkillCategories.ExtractFresherIff | src/lib/skillCategories.js:44-54 | The result is the fresher profile exactly when no keyword of any category matches; otherwise the map has only category keys |
| SkillCategories.BlankJdIsFresher | src/lib/skillCategories.js:50-54 | A white-space-only JD yields exactly the fresher profile |
| Analysis.Tags | src/lib/analysis.js:32-33 | A category has tags exactly when `has(cat)` holds |
| Analysis.Take | src/lib/analysis.js:47 | `slice(0, n)` is the prefix of length min(n, length) |
| Analysis.DetectedCount | src/lib/analysis.js:19 | The number of non-"General" names is at most the number of names |
| Analysis.ComputeReadinessScore | src/lib/analysis.js:17-25 | The score lies in 35..95 and includes each 10-point bonus that applies |
| Analysis.ScoreNeverReaches100 | src/lib/analysis.js:24 | The score is always below 100 |
| Analysis.ScoreUnclamped | src/lib/analysis.js:18-24 | The score is 35 + min(5·detected, 30) + the three bonuses, with no clamp |
| Analysis.ScoreCompanyBonus | src/lib/analysis.js:21 | A non-blank company adds exactly 10 points over a blank one |
| Analysis.ScoreOfExtracted | src/lib/analysis.js:219-222 | For extracted skills, each detected category is worth exactly 5 points and the fresher profile is worth none |
| Analysis.ScoreOfDetected | src/lib/analysis.js:20 | Up to six detected categories, each is worth 5 points |
| Analysis.DetectedOfExtracted | src/lib/analysis.js:19 | Extraction detects none of its names for the fresher profile and all of them otherwise, at most six |
| Analysis.NonEmptyNamesLength | src/lib/skillCategories.js:44-47 | There are no more names than categories |
| Analysis.NonGeneralNames | src/lib/skillCategories.js:44-47 | The listed names never include "General" |
| Analysis.AllDetected | src/lib/analysis.js:19 | Names that avoid "General" are all counted |
| Analysis.BuildChecklist | src/lib/analysis.js:30-93 | The four round labels and each round's item count. Rounds 1, 2 and 4 are spelled out item by item. Round 3 has the base items, each category's item at its position (Web: stack and REST, Data: DB design, Languages: snippets, Cloud: deployment) and the closing question |
| Analysis.ChecklistSliceKeepsAll | src/lib/analysis.js:47 | The cut to eight items never removes anything in any round |
| Analysis.Round1Items | src/lib/analysis.js:35-46 | Round 1: the five base items, then the two OS/DBMS items with Core CS, then "Review <first language> syntax and common APIs." with Languages |
| Analysis.Round3Items | src/lib/analysis.js:62-73 | Round 3: the two base items, then the Web pair, the Data item, the Languages item and the Cloud item, each at its position when its category is detected, and the closing question last |
| Analysis.FresherChecklist | src/lib/analysis.js:84 | The fresher profile gets only the base items (5, 4, 3 and 5), with no "align with JD" item |
| Analysis.Build7DayPlan | src/lib/analysis.js:98-158 | Five blocks with fixed day labels. Days 1–2 are the day-1 base, the networks task with Core CS, the day-2 base, and the "Quick <first language> … recap" with Languages. Days 3–4 and 7 are fixed. Day 5 adds the Web and Data tasks with their tags. Day 6 adds the Core CS answers |
| Analysis.FresherPlan | src/lib/analysis.js:98-158 | The fresher profile gets exactly the base tasks of every block |
| Analysis.RuleQuestions | src/lib/analysis.js:169-199 | At most eleven rule questions. With Core CS, the three Core CS questions appear consecutively after the lead questions. Without Core CS, at most eight |
| Analysis.Pick | src/lib/analysis.js:208-210 | Each padding pick is a generic question |
| Analysis.Pad | src/lib/analysis.js:207-211 | Padding keeps the rule questions as a prefix, reaches ten, and adds only generic questions |
| Analysis.BuildQuestions | src/lib/analysis.js:163-213 | Exactly ten questions: the first rule questions in order, then generic ones |
| Analysis.PadRepeatsThird | src/lib/analysis.js:207-211 | Once the first generic questions are used, padding repeats the third generic question |
| Analysis.PadFromEmpty | src/lib/analysis.js:207-211 | From no questions, padding gives bug, learn, then eight "disagreements" questions |
| Analysis.NoRulesPadding | src/lib/analysis.js:201-212 | A JD with no rule question gets exactly that padded order |
| Analysis.AllRulesDropEventLoop | src/lib/analysis.js:197-212 | When all eleven rules fire, the cut to ten drops the Node.js event-loop question |
| Analysis.RunAnalysis | src/lib/analysis.js:219-243 | The result is the specification `Analyze` |
| Analysis.AnalysisCompany | src/lib/analysis.js:227-234 | Company, role and JD are stored trimmed, and intel is present exactly when the company is non-blank |
| Analysis.AnalysisRounds | src/lib/analysis.js:227-229 | Four rounds exactly for a non-blank known enterprise, otherwise three |
| Analysis.RoundsOfIntel | src/lib/companyIntel.js:94-140 | The round count from the intel of a company follows whether the company is an enterprise |
| Analysis.AnalysisShape | src/lib/analysis.js:219-243 | Every analysis has 10 questions, 4 checklist rounds, 5 plan blocks and a score in 35..95 |
| CompanyIntel.NormalizeCompany | src/lib/companyIntel.js:13-15 | The normalised name is empty exactly when the name is blank |
| CompanyIntel.NormalizeIdempotent | src/lib/companyIntel.js:13-15 | Normalising twice equals normalising once |
| CompanyIntel.IsEnterpriseOfTrimmed | src/lib/companyIntel.js:17-21 | Classification ignores surrounding white space |
| CompanyIntel.IsEnterpriseIgnoresNormalization | src/lib/companyIntel.js:17-21 | Classifying the normalised name agrees with classifying the name |
| CompanyIntel.KnownNameIsEnterprise | src/lib/companyIntel.js:20 | A name containing a listed enterprise is an enterprise |
| CompanyIntel.FragmentIsEnterprise | src/lib/companyIntel.js:20 | The two-way substring test also makes a one-letter fragment such as "a" an enterprise |
| CompanyIntel.InferIndustry | src/lib/companyIntel.js:26-33 | The industry is one of the five labels |
| CompanyIntel.InferIndustryIsFirstMatch | src/lib/companyIntel.js:26-33 | The industry is the first rule whose words occur whole in the company and JD text, else Technology Services |
| CompanyIntel.GetSizeCategory | src/lib/companyIntel.js:39-43 | No size for a blank name. Otherwise enterprise exactly when the name is a known enterprise, else startup |
| CompanyIntel.IsEnterprise | src/lib/companyIntel.js:17-21 | A blank name is never an enterprise |
| CompanyIntel.GetTypicalHiringFocus | src/lib/companyIntel.js:48-56 | The enterprise text exactly for Enterprise, the startup text exactly for Startup, and the mixed text exactly for any other value |
| CompanyIntel.GetCompanyIntel | src/lib/companyIntel.js:63-76 | No intel exactly for a blank name. Otherwise the trimmed name, inferred industry, size and the matching focus |
| CompanyIntel.Rounds | src/lib/companyIntel.js:101-139 | The round steps pair the labels with the given titles and reasons, one each |
| CompanyIntel.GetRoundMapping | src/lib/companyIntel.js:94-140 | Four rounds for an enterprise and three for a startup. For an enterprise, rounds 1 and 2 name DSA and Core CS exactly when Core CS is detected. For a startup, rounds 1 and 2 are the practical and system rounds exactly when Web is detected. A size that is neither gets the fallback rounds |
| CompanyIntel.RoundMappingDependsOnCoreAndWeb | src/lib/companyIntel.js:94-140 | Two skill maps that agree on Core CS and Web give the same mapping |
| CompanyIntel.NoIntelMeansStartup | src/lib/companyIntel.js:95 | Without intel, the size defaults to startup |
| CompanyIntel.FallbackUnreachable | src/lib/companyIntel.js:135-139 | No intel from `getCompanyIntel` ever leads to the fallback mapping |
| Schema.Skills.Lists | src/lib/schema.js:13-21 | The seven standard skill lists |
| Schema.SkillsJson | src/lib/schema.js:35-43 | The stored object has exactly the seven standard keys, and no byCategory or fresher flag |
| Schema.SliceCopy | src/lib/schema.js:33 | `slice()` copies arrays and strings and throws on other values |
| Schema.CategoryList | src/lib/schema.js:36-41 | `byCategory[c] \|\| []` is always truthy |
| Schema.NormalizeExtractedSkills | src/lib/schema.js:27-44 | Fails exactly when a non-fresher General list cannot be sliced. Lists are truthy and "other" is non-empty. Absent skills give the defaults. The six lists are read from byCategory. "other" is the default list for the fresher profile, and otherwise the General list when it is non-empty, else the default |
| Schema.ReadSkills | src/lib/schema.js:55-61 | Reads the seven lists with `\|\| []`, each truthy |
| Schema.DisplayOf | src/lib/schema.js:54-62 | The display object maps each category name to the matching standard list |
| Schema.GetDisplaySkills | src/lib/schema.js:49-63 | `{}` for non-objects, the stored lists when already normalised, and otherwise the normalised lists |
| Schema.SkillsJsonValid | src/lib/schema.js:154-159 | Normalised array lists pass the extracted-skills checks of validation |
| Schema.DisplayRoundTrip | src/lib/schema.js:27-63 | Converting stored skills to display form and normalising again gives the same lists back |
| Schema.Spread | src/lib/schema.js:73-79 | Spreading is defined exactly for arrays and strings |
| Schema.SpreadAll | src/lib/schema.js:72-80 | Spreading all lists succeeds exactly when each list can be spread |
| Schema.GetAllSkillsFromNormalized | src/lib/schema.js:68-81 | A truthy non-object throws |
| Schema.SpreadSkills | src/lib/schema.js:72-80 | Spreading stored array lists yields their concatenation |
| Schema.AllSkillsOfStored | src/lib/schema.js:68-81 | All skills of a stored skills object are its seven lists concatenated |
| Schema.AllSkillsOfNothing | src/lib/schema.js:68-71 | Without skills, the only skills are the four default "other" skills |
| Schema.ReadStoredSkills | src/lib/schema.js:51-61 | Reading back stored skills returns them unchanged |
| Schema.NormalizeRound | src/lib/schema.js:85-89 | A round becomes an object with exactly three keys, and throws on null |
| Schema.RoundTitleNeverFallback | src/lib/schema.js:86 | The built title is never the 'Round' default |
| Schema.JoinedTitle | src/lib/schema.js:86 | The joined "round: title" text is non-empty and not "Round" after trimming |
| Schema.ColonSurvivesTrim | src/lib/schema.js:86 | A text with an inner colon survives trimming |
| Schema.NormalizeRoundMapping | src/lib/schema.js:83-90 | Non-arrays give [], and arrays map element by element with the same length |
| Schema.NormalizeChecklistBlock | src/lib/schema.js:94-97 | A block becomes {roundTitle, items}, with items an array, and throws on null |
| Schema.NormalizeChecklist | src/lib/schema.js:92-98 | Non-arrays give [], and arrays map element by element with the same length |
| Schema.NormalizePlanBlock | src/lib/schema.js:102-106 | A block becomes {day, focus, tasks}. A missing focus falls back to day. Throws on null |
| Schema.NormalizePlan7Days | src/lib/schema.js:100-107 | Non-arrays give [], and arrays map element by element with the same length |
| Schema.BaseScore | src/lib/schema.js:117-119 | The base score is always a number |
| Schema.StringOr | src/lib/schema.js:128-130 | A string field is kept and anything else becomes '' |
| Schema.EntryBody | src/lib/schema.js:127-141 | The body never carries an id or createdAt |
| Schema.BodyHasNoIdentity | src/lib/schema.js:127-141 | The body has no id and no createdAt |
| Schema.BodyFieldsValid | src/lib/schema.js:127-141 | Every body field passes the field checks of validation |
| Schema.NormalizeAnalysisToEntry | src/lib/schema.js:112-142 | null for non-objects. Fails only where a helper throws. Otherwise the body, with no identity |
| Schema.FieldsIgnoreIdentity | src/lib/schema.js:151-167 | The field checks do not depend on id or createdAt |
| Schema.ValidateEntry | src/lib/schema.js:147-169 | A valid entry is a plain object holding an id and a createdAt, and its other fields pass the field checks |
| Schema.Rebuild | src/lib/schema.js:192-194 | The rebuilt entry keeps the old id and createdAt |
| Schema.MigrateEntry | src/lib/schema.js:174-212 | null for non-objects. A valid entry is returned unchanged. An invalid one is rebuilt with its id and createdAt, or becomes null exactly when rebuilding throws |
| Schema.NullRoundMakesMigrateNull | src/lib/schema.js:209-211 | An invalid entry with a null round becomes null, because the error is caught |
| Schema.NormalizedListsAreArrays | src/lib/schema.js:27-44 | Array category lists normalise to array lists |
| Schema.RebuiltValidates | src/lib/schema.js:174-208 | A rebuilt entry passes validation when it has a non-empty string id, a string createdAt, a string or missing updatedAt, and array skill lists |
| Schema.MigrateIdempotent | src/lib/schema.js:174-212 | When the migrated entry validates or is null, migrating it again, at any time, changes nothing |
| Schema.MigrateIdempotentWithId | src/lib/schema.js:174-212 | An object entry with a non-empty string id, a string createdAt, a string or missing updatedAt and array skill lists is migrated once and for all: migrating again, at any time, changes nothing |
| Schema.RebuiltSkills | src/lib/schema.js:180 | A rebuilt entry holds the normalised skills |
| Schema.FirstMigrationKeepsSkills | src/lib/schema.js:180 | An entry without an id keeps its detected skills on the first migration |
| Schema.NoIdSkills | src/lib/schema.js:29 | After one migration, the standard-keyed skills have no byCategory, so re-normalising drops them to the default |
| Schema.MigrateNotIdempotentWithoutId | src/lib/schema.js:177-180 | For an entry without an id, migrating twice differs from migrating once |
| History.FindIndex | src/lib/history.js:88 | `findIndex` returns the first object whose id equals the given one, or none |
| History.MatchIsObject | src/lib/history.js:72 | A matching element is an object holding that id |
| History.List | src/lib/history.js:55 | A stored non-array counts as the empty list |
| History.Map | src/lib/history.js:29-37 | Mapping keeps the length |
| History.MapAt | src/lib/history.js:29-37 | The mapped element i is the function applied to element i |
| History.MapSnoc | src/lib/history.js:29-37 | Mapping a prefix one longer appends one image |
| History.NonNull | src/lib/history.js:32 | Kept elements are non-null members of the input |
| History.NonNullAndNulls | src/lib/history.js:32-33 | Kept plus skipped is the input length |
| History.NonNullKeeps | src/lib/history.js:32 | Every non-null element is kept |
| History.MigratedIsObject | src/lib/schema.js:174-212 | Migration gives null or an object |
| History.Kept | src/lib/history.js:29-37 | All kept entries are objects |
| History.KeptAndDropped | src/lib/history.js:29-37 | Kept plus skipped is the number of stored entries |
| History.ValidIsKept | src/lib/history.js:31-32 | A valid stored entry is always kept |
| History.NewestFirstPairwise | src/lib/history.js:38 | A newest-first list is ordered between every pair of positions |
| History.Insert | src/lib/history.js:38 | Inserting keeps the list newest first, and the result is a permutation with the one added element |
| History.SortNewestFirst | src/lib/history.js:38 | The sorted list is newest first and a permutation of the input |
| History.MigrateAll | src/lib/history.js:29-37 | The loop keeps the non-null migrated entries in order and counts the nulls |
| History.NonNullSnoc | src/lib/history.js:32-33 | One more element extends either the kept list or the skip count |
| History.SortedObjects | src/lib/history.js:38 | Sorting kept entries gives objects and keeps the count |
| History.NewId | src/lib/history.js:50 | The id is non-empty and starts with "pp-" |
| History.RecordIdentity | src/lib/history.js:52 | The record carries the new id and createdAt |
| History.RecordIsPut | src/lib/history.js:52 | The record is the body with the identity keys added |
| History.Prepend | src/lib/history.js:54-56 | The new list is the record followed by the old list, or the record alone |
| History.EntryById | src/lib/history.js:68-79 | Nothing for an id that is not a non-empty string, for a stored non-array, or when no entry has the id. Otherwise the first entry with the id, migrated, or nothing when it migrates to null |
| History.FoundFirst | src/lib/history.js:72-75 | After prepending, an id is found at position 0, and the migrated record is returned |
| History.Update | src/lib/history.js:85-94 | A non-array or missing id changes nothing. Otherwise only the first match gets the updates merged over it, and every other entry and the length stay the same |
| History.ScoreUpdatesKeepValid | src/lib/history.js:91 | Merging score updates into a valid entry keeps it valid |
| History.HistoryStore.GetHistory | src/lib/history.js:24-40 | The entries are the kept migrated entries sorted newest first, and skippedCount is the number dropped, so the two add up to the stored length |
| History.HistoryStore.SaveEntry | src/lib/history.js:46-62 | A null normalisation returns '' and a throwing one returns nothing, and neither stores anything. Otherwise the record with the new id goes first, and its id becomes the latest id and is returned |
| History.HistoryStore.GetEntryById | src/lib/history.js:68-79 | Nothing for a stored non-array. Otherwise the first entry with the id, migrated, or nothing when it migrates to null |
| History.HistoryStore.UpdateEntry | src/lib/history.js:85-94 | The stored list becomes `Update` of the old list, and the latest id is unchanged |
| History.HistoryStore.GetLatestId | src/lib/history.js:96-102 | null exactly when no id is stored, and otherwise the stored id |
| Results.KnowCount | src/pages/dashboard/ResultsPage.jsx:29-30 | The number of known skills is at most the number of skills |
| Results.Clamp | src/pages/dashboard/ResultsPage.jsx:34 | Clamping stays in 0..100 and is the identity inside that range |
| Results.LiveScore | src/pages/dashboard/ResultsPage.jsx:25-35 | The live score lies in 0..100 |
| Results.ComputeLiveScore | src/pages/dashboard/ResultsPage.jsx:25-35 | The loop computes exactly the live score |
| Results.KnowCountAgrees | src/pages/dashboard/ResultsPage.jsx:29-30 | Maps agreeing on the listed skills give the same count |
| Results.UnlistedKeyIrrelevant | src/pages/dashboard/ResultsPage.jsx:28-30 | An entry for an unlisted skill does not change the score |
| Results.KnowCountGrows | src/pages/dashboard/ResultsPage.jsx:30 | Marking a key "know" never lowers the count |
| Results.MarkKnownNeverLowers | src/pages/dashboard/ResultsPage.jsx:25-35 | Marking a skill "know" never lowers the live score |
| Results.Practice | src/pages/dashboard/ResultsPage.jsx:146 | The practice list holds only listed skills not marked "know" |
| Results.PracticeHasAllWeak | src/pages/dashboard/ResultsPage.jsx:146 | Every skill not marked "know" is in the practice list |
| Results.PracticeCount | src/pages/dashboard/ResultsPage.jsx:146 | Practice plus known equals all skills |
| Results.LiveScoreOfPractice | src/pages/dashboard/ResultsPage.jsx:25-35 | The live score is base + 2·skills − 4·practice, clamped |
| Results.Top3Weak | src/pages/dashboard/ResultsPage.jsx:149 | The first min(3, n) practice skills |
| Results.ToggleUpdates | src/pages/dashboard/ResultsPage.jsx:127-131 | The update holds the live score of the new map and only score fields |
| Results.SetConfidence | src/pages/dashboard/ResultsPage.jsx:121-135 | Returns the new map. With an id, the stored entry gets the map and its live score. Without one, nothing is stored |
| Results.PersistedScore | src/pages/dashboard/ResultsPage.jsx:124-131 | After a toggle, the matching entry holds the new map and score and stays valid |
| Export.Bullets | src/pages/dashboard/ResultsPage.jsx:42 | Missing tasks give '', and a non-array throws |
| Export.ChecklistBlockText | src/pages/dashboard/ResultsPage.jsx:50 | The heading is roundTitle, else round, followed by the bullets. Null throws |
| Export.PlanBlockText | src/pages/dashboard/ResultsPage.jsx:42 | The heading is day, else focus, followed by the bullets. Null throws |
| Export.TextAll | src/pages/dashboard/ResultsPage.jsx:41-43 | Mapping succeeds exactly when every block does, with one text per block |
| Export.TextAllAppend | src/pages/dashboard/ResultsPage.jsx:41-43 | Mapping a concatenation concatenates the texts |
| Export.FormatList | src/pages/dashboard/ResultsPage.jsx:38-52 | An empty or missing list gives '', and a length-bearing non-array throws |
| Export.EmptyListsFormatEmpty | src/pages/dashboard/ResultsPage.jsx:39-40 | A missing or empty plan or checklist exports as '' |
| Export.FormatChecklist | src/pages/dashboard/ResultsPage.jsx:46-52 | A missing, null or empty checklist gives '', and a non-empty non-array throws |
| Export.FormatPlan | src/pages/dashboard/ResultsPage.jsx:38-44 | A missing, null or empty plan gives '', and a non-empty non-array throws |
| Export.FormatListAppend | src/pages/dashboard/ResultsPage.jsx:41-43 | Two non-empty lists export as their texts joined by a blank line |
| Export.ChecklistBlocksSeparated | src/pages/dashboard/ResultsPage.jsx:49-51 | The same, for the checklist |
| Export.PlanBlocksSeparated | src/pages/dashboard/ResultsPage.jsx:41-43 | The same, for the plan |
| Export.QuestionLines | src/pages/dashboard/ResultsPage.jsx:56 | Line i is "(i+1). question" |
| Export.FormatQuestions | src/pages/dashboard/ResultsPage.jsx:54-57 | Missing or empty gives ''. Otherwise it succeeds exactly for arrays |
| Export.OccurrencesAppend | src/pages/dashboard/ResultsPage.jsx:56 | Counting line breaks distributes over concatenation |
| Export.JoinedLineBreaks | src/pages/dashboard/ResultsPage.jsx:56 | Joining n lines without breaks gives n−1 breaks |
| Export.DigitsHaveNoBreak | src/pages/dashboard/ResultsPage.jsx:56 | A number's digits contain no line break |
| Export.NoBreakWithoutNewline | src/pages/dashboard/ResultsPage.jsx:56 | A string without '\n' contains no line break |
| Export.QuestionsOnePerLine | src/pages/dashboard/ResultsPage.jsx:54-57 | Single-line questions export as exactly one line each |
| TestChecklist.StoredObject | src/lib/testChecklist.js:34-43 | The stored object is kept, and anything else becomes {} |
| TestChecklist.Write | src/lib/testChecklist.js:70-71 | After writing, the id is checked exactly when `true` was written to an object, and other ids are unchanged |
| TestChecklist.CheckAllCompletes | src/lib/testChecklist.js:67-80 | Checking all ten tests completes the checklist |
| TestChecklist.WriteAllChecks | src/lib/testChecklist.js:67-72 | Checking a sequence of ids leaves each of them checked |
| TestChecklist.WriteAllKeeps | src/lib/testChecklist.js:67-72 | Checking more tests never unchecks one |
| TestChecklist.TestChecklistStore.GetChecklist | src/lib/testChecklist.js:54-61 | Exactly the ten ids, each true exactly when stored as `true` |
| TestChecklist.TestChecklistStore.SetChecklistItem | src/lib/testChecklist.js:67-72 | A known id is written, and any other id leaves the store unchanged |
| TestChecklist.TestChecklistStore.IsChecklistComplete | src/lib/testChecklist.js:77-80 | Complete exactly when all ten tests are checked, which needs a stored object holding `true` under every id |
| TestChecklist.TestChecklistStore.ResetChecklist | src/lib/testChecklist.js:85-87 | After a reset, every test is unchecked and the checklist is incomplete |
| TestChecklist.ResetIsIncomplete | src/lib/testChecklist.js:77-87 | An empty store leaves every test unchecked |
| TestChecklist.UncheckOneIncomplete | src/lib/testChecklist.js:77-80 | Unchecking any one test makes the checklist incomplete |
| ProofSubmission.StoredSubmission | src/lib/proofSubmission.js:24-39 | Each link is the stored string under its key, and '' when that is missing or not a string. A non-object gives three empty links |
| ProofSubmission.SubmissionRoundTrip | src/lib/proofSubmission.js:24-43 | Storing a submission and reading it back returns it unchanged |
| ProofSubmission.InputText | src/lib/proofSubmission.js:90-92 | A missing or null link becomes '' |
| ProofSubmission.InputTextTrimmed | src/lib/proofSubmission.js:90-92 | Stored links are already trimmed |
| ProofSubmission.ValidateUrl | src/lib/proofSubmission.js:72-82 | Valid exactly for a non-blank string that parses with protocol http: or https: |
| ProofSubmission.BlankUrlInvalid | src/lib/proofSubmission.js:74-75 | A white-space-only link is never valid |
| ProofSubmission.Shown | src/lib/proofSubmission.js:141-143 | An empty link shows as "(not set)" |
| ProofSubmission.FinalLines | src/lib/proofSubmission.js:137-152 | Fourteen lines, with the three links on lines 4 to 6 |
| ProofSubmission.FinalTextShowsLinks | src/lib/proofSubmission.js:135-154 | The final text contains each link line |
| ProofSubmission.NumericStepIds | src/lib/proofSubmission.js:106 | A numeric step id is accepted exactly for 1..8 |
| ProofSubmission.LongText | src/lib/proofSubmission.js:106 | Numbers of two or more digits are not step ids |
| ProofSubmission.DigitsValue | src/lib/proofSubmission.js:55 | A value is found only for a non-empty string of digits |
| ProofSubmission.DigitsOfDecimal | src/lib/proofSubmission.js:55 | The decimal form of a number reads back as that number, and has no leading zero |
| ProofSubmission.ArrayIndexOfDecimal | src/lib/proofSubmission.js:55 | The decimal form of a number names the array index of that number |
| ProofSubmission.Property | src/lib/proofSubmission.js:55 | `parsed[id]` is the property of an object, the element at the named index of an array, and nothing for any other value |
| ProofSubmission.StepDoneInArray | src/lib/proofSubmission.js:55 | A stored array marks step i+1 complete exactly when its element i+1 is `true` |
| ProofSubmission.ProofStore.GetSubmission | src/lib/proofSubmission.js:84-86 | Each link is the stored string under its key, or ''. A non-object store reads as three empty links |
| ProofSubmission.ProofStore.SetSubmission | src/lib/proofSubmission.js:88-94 | Stores the trimmed links, and reading back gives them |
| ProofSubmission.ProofStore.StoredSteps | src/lib/proofSubmission.js:47-61 | {} for a non-object, and otherwise exactly the eight steps, each true exactly when `parsed[id] === true`, which for a stored array reads the element at that index |
| ProofSubmission.ProofStore.GetStepCompletion | src/lib/proofSubmission.js:96-103 | Exactly the eight steps, each true exactly when stored as `true` |
| ProofSubmission.ProofStore.SetStepCompletion | src/lib/proofSubmission.js:105-110 | An unknown id changes nothing. A known id writes `completed === true` over the read steps |
| ProofSubmission.ProofStore.HasValidProofLinks | src/lib/proofSubmission.js:115-118 | Valid exactly when all three read-back links validate, which needs all three stored as strings |
| ProofSubmission.ProofStore.IsShipped | src/lib/proofSubmission.js:124-130 | Shipped exactly when all steps, all tests and all links pass, so shipping implies a complete checklist |
| ProofSubmission.ProofStore.BuildFinalSubmissionText | src/lib/proofSubmission.js:135-154 | The text shows each stored link, or "(not set)" |
| Records.ByCategoryJson | src/lib/analysis.js:235 | Each category key maps to its tags as strings |
| Records.ExtractedJson | src/lib/analysis.js:235 | The object exposes byCategory and isGeneralFresher |
| Records.RoundJson | src/lib/analysis.js:241 | A round step becomes an object |
| Records.ChecklistJson | src/lib/analysis.js:236 | A checklist block becomes an object |
| Records.PlanJson | src/lib/analysis.js:237 | A plan block becomes an object |
| Records.RoundsJson | src/lib/analysis.js:241 | An array of objects, one per round |
| Records.ChecklistsJson | src/lib/analysis.js:236 | An array of objects, one per block |
| Records.PlansJson | src/lib/analysis.js:237 | An array of objects, one per block |
| Records.AnalysisLists | src/lib/analysis.js:231-242 | The result exposes its extracted skills, round mapping and checklist in their JSON forms |
| Records.AnalysisPlan | src/lib/analysis.js:237 | The plan is stored under "plan". There is no "plan7Days" and no "updatedAt" |
| Records.AnalysisScores | src/lib/analysis.js:239 | readinessScore is a number, and there is no baseScore or finalScore |
| Records.ExtractedListsAreArrays | src/lib/schema.js:27-44 | Extracted skills normalise successfully to array lists |
| Records.StoredSkillsOfExtracted | src/lib/schema.js:27-44 | For any extracted result (fresher, or one without a General list), the stored lists are the extracted tags per category and "other" is the default list |
| Records.CategoryOfExtracted | src/lib/schema.js:36-41 | `byCategory[c] \|\| []` of extracted skills is that category's tags |
| Records.StringsAppend | src/lib/schema.js:72-80 | Converting a concatenation concatenates the conversions |
| Records.AllSkillsOfAnalysis | src/lib/schema.js:68-81 | All skills of an analysis are its tags in category order, then the default "other" list |
| Records.FlattenOfTags | src/lib/schema.js:72-80 | Flattening normalised skills gives the tags followed by "other" |
| Records.StringsConcat | src/lib/schema.js:72-80 | Conversion distributes over a seven-way concatenation |
| Records.AnalysisSkillsNormalize | src/lib/schema.js:115-116 | Normalisation and flattening both succeed for analysis skills |
| Records.AnalysisListsNormalize | src/lib/schema.js:132-134 | The three lists normalise to arrays |
| Records.AnalysisEntry | src/lib/schema.js:112-142 | An analysis result normalises to an entry. Its base and final score are the readiness score, and its fields validate |
| SavedAnalysis.SavedRecordValidates | src/lib/history.js:46-62 | The saved record of any analysis passes validation and carries the readiness score |
| SavedAnalysis.SaveThenFind | src/lib/history.js:68-79 | After saving, looking up the new id returns the saved record |
| SavedAnalysis.SaveAnalysis | src/pages/dashboard/AnalyzePage.jsx:25-26 | Saving an analysis returns a non-empty id, stores the record first, and the record validates and is found under that id |

## Left out

- Browser storage (`localStorage`), `JSON.parse` and `JSON.stringify` are not modelled as such. Each store is a field holding the parsed JSON value.
  - A missing or unparsable stored value is represented by the fallback the source uses for it.
  - Failures of `setItem` are silent in the source and are not modelled.
- The clock (`new Date().toISOString()`, `Date.now()`), `Math.random()` and the URL parser (`new URL`) are parameters. These are `now`, `createdAt`, `millis`, `suffix` and `protocolOf`.
- The `Date` parsing that the history sort compares by is a parameter, `date`.
- `History.SortNewestFirst`: the sort is an insertion sort stated by its ordering and permutation. Its contract does not state stability (the order of entries with equal dates), which `Array.prototype.sort` guarantees, and it does not model unparsable dates (NaN keys).
- `toLowerCase` is modelled for ASCII letters only, and string lengths count code points rather than UTF-16 units.
- The regular-expression word boundary `\b` is modelled only for the words the source tests.
- JavaScript numbers are integers here. `Math.round` in the live score is the identity, because every stored score the model produces is whole.
  - A fractional or non-numeric `baseScore` reaching the results page is not modelled.
- JavaScript `undefined` and an absent key are the same here (`Get` returns `None`). So are `companyIntel: undefined` and an omitted `companyIntel`, which storage cannot tell apart.
- History.HistoryStore.UpdateEntry: the id is a JSON value and cannot be `undefined`, so an `updateEntry(undefined, …)` call is not modelled. It would match entries that lack an id.
- History.MigrateAll: migration is passed in as a function argument, and the history store passes `migrateEntry` at the given time. The `try`/`catch` around each migration is not needed, because the modelled `migrateEntry` catches its own failures.
- The React rendering, the routing, clipboard copies, `formatDate`, the full-text export `buildFullTxt`, the score circle's geometry and the page effects (including the results page's backfill of a missing entry) are not part of this model.
- `src/lib/sampleJd.js` (a demo text) is not part of this model.
- The labels of `PROOF_STEPS` and `TEST_ITEMS` are display text and are not modelled.
- ProofSubmission.Property: of an array's own properties only the index keys are modelled, with no upper bound on the index. The other one, `length`, is a number, so `=== true` never holds for it.
