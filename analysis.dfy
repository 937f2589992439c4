/** The analysis of one JD: readiness score, round-wise checklist, 7-day
    plan, likely interview questions, and the whole `runAnalysis` result. */
module Analysis {
  import opened Wrappers
  import opened Text
  import opened SkillCategories
  import opened CompanyIntel

  /** `has(cat)`: the category has at least one tag. */
  predicate Has(ex: Extracted, cat: string) {
    HasTags(ex.byCategory, cat)
  }

  /** `tags(cat)`: the category's tags, or none. */
  function Tags(ex: Extracted, cat: string): (r: seq<string>)
    ensures Has(ex, cat) <==> r != []
  {
    if cat in ex.byCategory then ex.byCategory[cat] else []
  }

  /** `list.slice(0, n)`. */
  function Take(list: seq<string>, n: nat): (r: seq<string>)
    ensures |r| == if |list| < n then |list| else n
    ensures r == list[..|r|]
  {
    if |list| <= n then list else list[..n]
  }

  // ---------------------------------------------------------------------
  // Readiness score

  /** `categoryNames.filter((c) => c !== 'General').length`. */
  function DetectedCount(categoryNames: seq<string>): (r: nat)
    ensures r <= |categoryNames|
  {
    if categoryNames == [] then 0
    else
      var last := if categoryNames[|categoryNames| - 1] != GENERAL then 1 else 0;
      DetectedCount(categoryNames[..|categoryNames| - 1]) + last
  }

  /** 10 points when the text is present and not blank. */
  function Bonus(present: bool): nat {
    if present then 10 else 0
  }

  /** `computeReadinessScore(company, role, jdText, categoryNames)`; an absent
      string is ''. */
  function ComputeReadinessScore(company: string, role: string, jdText: string, categoryNames: seq<string>)
    : (r: int)
    ensures 35 <= r <= 95
    ensures r >= 35 + Bonus(Trim(company) != []) + Bonus(Trim(role) != []) + Bonus(|Trim(jdText)| > 800)
  {
    var detected := DetectedCount(categoryNames);
    var score := 35
      + (if detected * 5 < 30 then detected * 5 else 30)
      + Bonus(Trim(company) != [])
      + Bonus(Trim(role) != [])
      + Bonus(|Trim(jdText)| > 800);
    var clamped := if score < 0 then 0 else score;
    if clamped < 100 then clamped else 100
  }

  /** The clamp to 0..100 never takes effect: the largest score is 95. */
  lemma ScoreNeverReaches100(company: string, role: string, jdText: string, categoryNames: seq<string>)
    ensures ComputeReadinessScore(company, role, jdText, categoryNames) < 100
  {
  }

  /** The score without its clamp, which never takes effect. */
  lemma ScoreUnclamped(company: string, role: string, jdText: string, categoryNames: seq<string>)
    ensures var detected := DetectedCount(categoryNames);
      ComputeReadinessScore(company, role, jdText, categoryNames) ==
        35 + (if detected * 5 < 30 then detected * 5 else 30)
        + Bonus(Trim(company) != []) + Bonus(Trim(role) != []) + Bonus(|Trim(jdText)| > 800)
  {
  }

  /** Each of company, role and a long JD is worth exactly 10 points. */
  lemma ScoreCompanyBonus(company: string, role: string, jdText: string, categoryNames: seq<string>)
    requires Trim(company) != []
    ensures ComputeReadinessScore(company, role, jdText, categoryNames)
         == ComputeReadinessScore("", role, jdText, categoryNames) + 10
  {
    assert Trim("") == [];
    ScoreUnclamped(company, role, jdText, categoryNames);
    ScoreUnclamped("", role, jdText, categoryNames);
  }

  /** The names `extractSkills` returns are at most the six categories, so
      the 30-point cap on categories is never exceeded: each detected
      category is worth exactly 5 points, and the fresher result none. */
  lemma ScoreOfExtracted(company: string, role: string, jdText: string)
    ensures var ex := Extract(jdText);
      ComputeReadinessScore(company, role, jdText, ex.categoryNames) ==
        35 + (if ex.isGeneralFresher then 0 else 5 * |ex.categoryNames|)
        + Bonus(Trim(company) != []) + Bonus(Trim(role) != []) + Bonus(|Trim(jdText)| > 800)
  {
    var ex := Extract(jdText);
    assert DetectedCount(ex.categoryNames) == (if ex.isGeneralFresher then 0 else |ex.categoryNames|)
        && DetectedCount(ex.categoryNames) <= 6 by {
      DetectedOfExtracted(jdText);
    }
    ScoreOfDetected(company, role, jdText, ex.categoryNames);
  }

  /** Below the cap, each detected category is worth 5 points. */
  lemma ScoreOfDetected(company: string, role: string, jdText: string, categoryNames: seq<string>)
    requires DetectedCount(categoryNames) <= 6
    ensures ComputeReadinessScore(company, role, jdText, categoryNames) ==
      35 + 5 * DetectedCount(categoryNames)
      + Bonus(Trim(company) != []) + Bonus(Trim(role) != []) + Bonus(|Trim(jdText)| > 800)
  {
  }

  /** The fresher result detects nothing; otherwise every name is a detected
      category, and there are at most six. */
  lemma DetectedOfExtracted(jdText: string)
    ensures var ex := Extract(jdText);
      && DetectedCount(ex.categoryNames) == (if ex.isGeneralFresher then 0 else |ex.categoryNames|)
      && |ex.categoryNames| <= 6
  {
    var ex := Extract(jdText);
    var textLower := Lower(Trim(jdText));
    ExtractFresherIff(jdText);
    if ex.isGeneralFresher {
      assert ex.categoryNames == [GENERAL];
      assert DetectedCount(ex.categoryNames) == 0 by {
        assert ex.categoryNames[..0] == [];
      }
    } else {
      NonEmptyNamesLength(textLower, CATEGORIES);
      TableNamesDistinct();
      NonGeneralNames(textLower, CATEGORIES);
      AllDetected(ex.categoryNames);
    }
  }

  lemma {:induction false} NonEmptyNamesLength(textLower: string, cats: seq<Category>)
    ensures |NonEmptyNames(textLower, cats)| <= |cats|
  {
    if cats != [] {
      NonEmptyNamesLength(textLower, cats[..|cats| - 1]);
    }
  }

  lemma {:induction false} NonGeneralNames(textLower: string, cats: seq<Category>)
    requires forall c :: 0 <= c < |cats| ==> cats[c].name != GENERAL
    ensures forall i :: 0 <= i < |NonEmptyNames(textLower, cats)| ==>
      NonEmptyNames(textLower, cats)[i] != GENERAL
  {
    if cats != [] {
      NonGeneralNames(textLower, cats[..|cats| - 1]);
    }
  }

  lemma {:induction false} AllDetected(names: seq<string>)
    requires forall i :: 0 <= i < |names| ==> names[i] != GENERAL
    ensures DetectedCount(names) == |names|
  {
    if names != [] {
      AllDetected(names[..|names| - 1]);
    }
  }

  // ---------------------------------------------------------------------
  // Checklist

  datatype ChecklistBlock = ChecklistBlock(round: string, items: seq<string>)

  const ROUND1_LABEL: string := "Round 1: Aptitude / Basics"
  const ROUND2_LABEL: string := "Round 2: DSA + Core CS"
  const ROUND3_LABEL: string := "Round 3: Tech interview (projects + stack)"
  const ROUND4_LABEL: string := "Round 4: Managerial / HR"

  const ROUND1_BASE: seq<string> := [
    "Revise quantitative aptitude: ratios, percentages, time-speed-distance.",
    "Practice logical reasoning and pattern-based questions.",
    "Review basic CS fundamentals: computer architecture, number systems.",
    "Take at least one timed aptitude mock test.",
    "Brush up verbal ability if the role requires communication."
  ]
  const ROUND1_CORE: seq<string> := [
    "Revise OS basics: processes, threads, scheduling.",
    "Revise DBMS basics: normalization, ACID."
  ]
  const ROUND2_BASE: seq<string> := [
    "Practice array and string problems (2\U{2013}3 daily).",
    "Revise key data structures: arrays, linked lists, trees, graphs.",
    "Practice hash map and two-pointer patterns."
  ]
  const ROUND2_CORE: seq<string> := [
    "Revise OOP concepts: encapsulation, inheritance, polymorphism.",
    "Prepare short notes on OS: deadlock, memory management.",
    "Revise networking: TCP/IP, HTTP, status codes."
  ]
  const ROUND2_PRACTICE: string := "Do at least 2 medium LeetCode (or equivalent) problems."
  const ROUND2_COMPLEXITY: string := "Revise time/space complexity for common algorithms."
  const ROUND3_BASE: seq<string> := [
    "List 2\U{2013}3 projects with tech stack and your role.",
    "Prepare 2\U{2013}3 min project summary (problem, solution, impact)."
  ]
  const ROUND3_REST: string := "Revise REST/API design and status codes."
  const ROUND3_ASK: string := "Prepare questions to ask the interviewer about the role."
  const ROUND4_BASE: seq<string> := [
    "Prepare self-introduction (1\U{2013}2 min).",
    "Prepare STAR examples for teamwork, conflict, deadline.",
    "Know why you want this company and this role.",
    "Prepare \U{201C}strengths and weaknesses\U{201D} with honest, brief answers.",
    "Prepare 2\U{2013}3 questions about team, growth, and culture."
  ]
  const ROUND4_ALIGN: string := "Align your story with the JD skills and company values."

  /** `[item]` when `cond` holds, else nothing: one conditional `push`. */
  function When(cond: bool, items: seq<string>): seq<string> {
    if cond then items else []
  }

  /** Round 1 before the slice. */
  function Round1Items(ex: Extracted): (r: seq<string>)
    ensures |r| == 5 + (if Has(ex, CORE_CS) then 2 else 0) + (if Has(ex, LANGUAGES) then 1 else 0)
    ensures r[..5] == ROUND1_BASE
    ensures Has(ex, CORE_CS) ==> r[5..7] == ROUND1_CORE
    ensures Has(ex, LANGUAGES) ==> r[|r| - 1] == "Review " + Tags(ex, LANGUAGES)[0] + " syntax and common APIs."
  {
    ROUND1_BASE
    + When(Has(ex, CORE_CS), ROUND1_CORE)
    + When(Has(ex, LANGUAGES),
           ["Review " + (if Has(ex, LANGUAGES) then Tags(ex, LANGUAGES)[0] else "")
            + " syntax and common APIs."])
  }

  /** Round 2 before the slice. */
  function Round2Items(ex: Extracted): seq<string> {
    ROUND2_BASE
    + When(Has(ex, CORE_CS), ROUND2_CORE)
    + [ROUND2_PRACTICE]
    + When(Has(ex, CORE_CS), [ROUND2_COMPLEXITY])
  }

  /** Round 3 before the slice. */
  function Round3Items(ex: Extracted): (r: seq<string>)
    ensures |r| == 3 + (if Has(ex, WEB) then 2 else 0) + (if Has(ex, DATA) then 1 else 0)
      + (if Has(ex, LANGUAGES) then 1 else 0) + (if Has(ex, CLOUD) then 1 else 0)
    ensures r[..2] == ROUND3_BASE && r[|r| - 1] == ROUND3_ASK
    ensures Has(ex, WEB) ==>
      r[2..4] == ["Prepare to explain " + Join(Tags(ex, WEB), " / ") + " choices in your projects.", ROUND3_REST]
    ensures Has(ex, DATA) ==>
      var k := 2 + (if Has(ex, WEB) then 2 else 0);
      r[k] == "Prepare to explain DB design and " + Join(Tags(ex, DATA), ", ") + " usage."
    ensures Has(ex, LANGUAGES) ==>
      var k := 2 + (if Has(ex, WEB) then 2 else 0) + (if Has(ex, DATA) then 1 else 0);
      r[k] == "Be ready to write small " + Tags(ex, LANGUAGES)[0] + " snippets on a shared editor."
    ensures Has(ex, CLOUD) ==>
      r[|r| - 2] == "Prepare to discuss deployment (" + Join(Take(Tags(ex, CLOUD), 2), ", ") + ") if relevant."
  {
    ROUND3_BASE
    + When(Has(ex, WEB),
           ["Prepare to explain " + Join(Tags(ex, WEB), " / ") + " choices in your projects.",
            ROUND3_REST])
    + When(Has(ex, DATA),
           ["Prepare to explain DB design and " + Join(Tags(ex, DATA), ", ") + " usage."])
    + When(Has(ex, LANGUAGES),
           ["Be ready to write small " + (if Has(ex, LANGUAGES) then Tags(ex, LANGUAGES)[0] else "")
            + " snippets on a shared editor."])
    + When(Has(ex, CLOUD),
           ["Prepare to discuss deployment (" + Join(Take(Tags(ex, CLOUD), 2), ", ")
            + ") if relevant."])
    + [ROUND3_ASK]
  }

  /** Round 4 before the slice. */
  function Round4Items(ex: Extracted): seq<string> {
    ROUND4_BASE + When(!ex.isGeneralFresher, [ROUND4_ALIGN])
  }

  /** `buildChecklist(extractedSkills)`. */
  function BuildChecklist(ex: Extracted): (r: seq<ChecklistBlock>)
    ensures |r| == 4
    ensures r[0].round == ROUND1_LABEL && r[1].round == ROUND2_LABEL
         && r[2].round == ROUND3_LABEL && r[3].round == ROUND4_LABEL
    ensures forall b :: 0 <= b < 4 ==> 3 <= |r[b].items| <= 8
    ensures |r[0].items| == 5 + (if Has(ex, CORE_CS) then 2 else 0) + (if Has(ex, LANGUAGES) then 1 else 0)
    ensures r[0].items[..5] == ROUND1_BASE
    ensures Has(ex, CORE_CS) ==> r[0].items[5..7] == ROUND1_CORE
    ensures !Has(ex, CORE_CS) ==> r[1].items == ROUND2_BASE + [ROUND2_PRACTICE]
    ensures Has(ex, CORE_CS) ==>
      r[1].items == ROUND2_BASE + ROUND2_CORE + [ROUND2_PRACTICE, ROUND2_COMPLEXITY]
    ensures r[2].items[..2] == ROUND3_BASE && r[2].items[|r[2].items| - 1] == ROUND3_ASK
    ensures |r[2].items| == 3 + (if Has(ex, WEB) then 2 else 0) + (if Has(ex, DATA) then 1 else 0)
      + (if Has(ex, LANGUAGES) then 1 else 0) + (if Has(ex, CLOUD) then 1 else 0)
    ensures r[3].items == ROUND4_BASE + (if ex.isGeneralFresher then [] else [ROUND4_ALIGN])
    ensures Has(ex, LANGUAGES) ==>
      r[0].items[|r[0].items| - 1] == "Review " + Tags(ex, LANGUAGES)[0] + " syntax and common APIs."
    ensures Has(ex, WEB) ==>
      r[2].items[2..4] == ["Prepare to explain " + Join(Tags(ex, WEB), " / ") + " choices in your projects.",
                           ROUND3_REST]
    ensures Has(ex, DATA) ==>
      var k := 2 + (if Has(ex, WEB) then 2 else 0);
      r[2].items[k] == "Prepare to explain DB design and " + Join(Tags(ex, DATA), ", ") + " usage."
    ensures Has(ex, LANGUAGES) ==>
      var k := 2 + (if Has(ex, WEB) then 2 else 0) + (if Has(ex, DATA) then 1 else 0);
      r[2].items[k] == "Be ready to write small " + Tags(ex, LANGUAGES)[0] + " snippets on a shared editor."
    ensures Has(ex, CLOUD) ==>
      r[2].items[|r[2].items| - 2]
        == "Prepare to discuss deployment (" + Join(Take(Tags(ex, CLOUD), 2), ", ") + ") if relevant."
  {
    [ ChecklistBlock(ROUND1_LABEL, Take(Round1Items(ex), 8)),
      ChecklistBlock(ROUND2_LABEL, Take(Round2Items(ex), 8)),
      ChecklistBlock(ROUND3_LABEL, Take(Round3Items(ex), 8)),
      ChecklistBlock(ROUND4_LABEL, Take(Round4Items(ex), 8)) ]
  }

  /** No round ever has more than 8 items before `slice(0, 8)`, so the slice
      never drops an item. */
  lemma ChecklistSliceKeepsAll(ex: Extracted)
    ensures BuildChecklist(ex)[0].items == Round1Items(ex)
    ensures BuildChecklist(ex)[1].items == Round2Items(ex)
    ensures BuildChecklist(ex)[2].items == Round3Items(ex)
    ensures BuildChecklist(ex)[3].items == Round4Items(ex)
  {
  }

  /** The fresher result gets the base items only (plus the fixed closing
      question of round 3): 5, 4, 3 and 5 items, below the advertised
      "5-8 items per round" for rounds 2 and 3. */
  lemma FresherChecklist()
    ensures var ex := Extracted(map[GENERAL := [FRESHER_TAG]], [GENERAL], true);
      var r := BuildChecklist(ex);
      && r[0].items == ROUND1_BASE
      && r[1].items == ROUND2_BASE + [ROUND2_PRACTICE]
      && r[2].items == ROUND3_BASE + [ROUND3_ASK]
      && r[3].items == ROUND4_BASE
  {
    var ex := Extracted(map[GENERAL := [FRESHER_TAG]], [GENERAL], true);
    assert !Has(ex, CORE_CS) && !Has(ex, LANGUAGES) && !Has(ex, WEB) && !Has(ex, DATA) && !Has(ex, CLOUD);
  }

  // ---------------------------------------------------------------------
  // 7-day plan

  datatype PlanBlock = PlanBlock(day: string, tasks: seq<string>)

  const DAYS_1_2: string := "Day 1\U{2013}2: Basics + core CS"
  const DAYS_3_4: string := "Day 3\U{2013}4: DSA + coding practice"
  const DAY_5: string := "Day 5: Project + resume alignment"
  const DAY_6: string := "Day 6: Mock interview questions"
  const DAY_7: string := "Day 7: Revision + weak areas"

  const DAY1_BASE: seq<string> := [
    "Revise core CS: OS (processes, threads), DBMS (normalization, SQL basics).",
    "Brush up aptitude: percentages, ratios, simple reasoning."
  ]
  const DAY1_NETWORKS: string := "Revise Networks: TCP/IP, HTTP basics."
  const DAY2_BASE: seq<string> := [
    "Continue core CS: data structures (array, linked list, stack, queue).",
    "Practice 2\U{2013}3 basic coding problems (arrays/strings)."
  ]
  const DAY3: seq<string> := [
    "DSA focus: trees and graphs (traversals, BFS/DFS).",
    "Solve 2 medium-level problems (tree/graph)."
  ]
  const DAY4: seq<string> := [
    "DSA: dynamic programming and greedy (classic problems).",
    "Coding practice: 2 problems under time limit."
  ]
  const DAY5_BASE: seq<string> := [
    "Document 2 projects: tech stack, your role, outcomes.",
    "Align resume bullets with JD keywords."
  ]
  const DAY6_BASE: seq<string> := [
    "Practice mock interview: introduce yourself, explain one project.",
    "Prepare 5\U{2013}10 likely tech questions from your stack."
  ]
  const DAY6_CORE: string := "Prepare OS/DBMS/Networks short answers."
  const DAY7: seq<string> := [
    "Revision: weak areas from the week.",
    "Light practice: 1\U{2013}2 easy problems to stay sharp.",
    "Rest and prepare mentally for the interview."
  ]

  function Day1(ex: Extracted): seq<string> {
    DAY1_BASE + When(Has(ex, CORE_CS), [DAY1_NETWORKS])
  }

  function Day2(ex: Extracted): seq<string> {
    DAY2_BASE + When(Has(ex, LANGUAGES),
      ["Quick " + (if Has(ex, LANGUAGES) then Tags(ex, LANGUAGES)[0] else "") + " syntax and stdlib recap."])
  }

  function Day5(ex: Extracted): seq<string> {
    DAY5_BASE
    + When(Has(ex, WEB), ["Frontend revision: " + Join(Tags(ex, WEB), ", ") + " \U{2014} key concepts."])
    + When(Has(ex, DATA), ["DB design and " + Join(Tags(ex, DATA), ", ") + " usage in projects."])
  }

  function Day6(ex: Extracted): seq<string> {
    DAY6_BASE + When(Has(ex, CORE_CS), [DAY6_CORE])
  }

  /** `build7DayPlan(extractedSkills)`. */
  function Build7DayPlan(ex: Extracted): (r: seq<PlanBlock>)
    ensures |r| == 5
    ensures r[0].day == DAYS_1_2 && r[1].day == DAYS_3_4 && r[2].day == DAY_5
         && r[3].day == DAY_6 && r[4].day == DAY_7
    ensures forall b :: 0 <= b < 5 ==> 2 <= |r[b].tasks| <= 6
    ensures |r[0].tasks| == 4 + (if Has(ex, CORE_CS) then 1 else 0) + (if Has(ex, LANGUAGES) then 1 else 0)
    ensures r[0].tasks[..2] == DAY1_BASE
    ensures Has(ex, CORE_CS) ==> r[0].tasks[2] == DAY1_NETWORKS
    ensures r[1].tasks == DAY3 + DAY4
    ensures |r[2].tasks| == 2 + (if Has(ex, WEB) then 1 else 0) + (if Has(ex, DATA) then 1 else 0)
    ensures r[2].tasks[..2] == DAY5_BASE
    ensures r[3].tasks == DAY6_BASE + (if Has(ex, CORE_CS) then [DAY6_CORE] else [])
    ensures r[4].tasks == DAY7
    ensures var k := 2 + (if Has(ex, CORE_CS) then 1 else 0);
      r[0].tasks[k..k + 2] == DAY2_BASE
    ensures Has(ex, LANGUAGES) ==>
      r[0].tasks[|r[0].tasks| - 1] == "Quick " + Tags(ex, LANGUAGES)[0] + " syntax and stdlib recap."
    ensures Has(ex, WEB) ==>
      r[2].tasks[2] == "Frontend revision: " + Join(Tags(ex, WEB), ", ") + " \U{2014} key concepts."
    ensures Has(ex, DATA) ==>
      r[2].tasks[|r[2].tasks| - 1] == "DB design and " + Join(Tags(ex, DATA), ", ") + " usage in projects."
  {
    [ PlanBlock(DAYS_1_2, Day1(ex) + Day2(ex)),
      PlanBlock(DAYS_3_4, DAY3 + DAY4),
      PlanBlock(DAY_5, Day5(ex)),
      PlanBlock(DAY_6, Day6(ex)),
      PlanBlock(DAY_7, DAY7) ]
  }

  /** The fresher result gets the base tasks only: day 1 without the
      networks task and the language recap, day 5 without the web and
      database tasks, day 6 without the Core CS answers. */
  lemma FresherPlan()
    ensures var ex := Extracted(map[GENERAL := [FRESHER_TAG]], [GENERAL], true);
      var r := Build7DayPlan(ex);
      && r[0].tasks == DAY1_BASE + DAY2_BASE
      && r[1].tasks == DAY3 + DAY4
      && r[2].tasks == DAY5_BASE
      && r[3].tasks == DAY6_BASE
      && r[4].tasks == DAY7
  {
    var ex := Extracted(map[GENERAL := [FRESHER_TAG]], [GENERAL], true);
    assert !Has(ex, CORE_CS) && !Has(ex, LANGUAGES) && !Has(ex, WEB) && !Has(ex, DATA);
  }

  // ---------------------------------------------------------------------
  // Questions

  const Q_INDEXING: string := "Explain indexing and when it helps."
  const Q_STATE: string := "Explain state management options."
  const Q_SEARCH: string := "How would you optimize search in sorted data?"
  const Q_PROCESS: string := "Explain the difference between process and thread."
  const Q_NORMALIZATION: string := "What is normalization? Why is it used in DBMS?"
  const Q_REST: string := "Explain REST principles and when you would use PUT vs PATCH."
  const Q_OOP: string := "Explain inheritance and polymorphism with a short code example."
  const Q_CONTAINERS: string := "What is the difference between Docker and Kubernetes? When use which?"
  const Q_NOSQL: string := "When would you choose a NoSQL database over a relational one?"
  const Q_TESTS: string := "How do you approach writing tests for a new feature?"
  const Q_EVENT_LOOP: string := "Explain the event loop in Node.js and how it handles async I/O."

  const G_BUG: string := "Tell me about a challenging bug you fixed and how you approached it."
  const G_LEARN: string := "Describe a project where you had to learn a new technology quickly."
  const G_DISAGREE: string := "How do you handle disagreements with a teammate on technical decisions?"
  const GENERIC: seq<string> := [G_BUG, G_LEARN, G_DISAGREE]

  /** `tags.some((s) => /p1|p2|.../i.test(s))`. */
  predicate SomeTagMentions(tags: seq<string>, patterns: seq<string>) {
    exists t, p :: 0 <= t < |tags| && 0 <= p < |patterns| && Contains(Lower(tags[t]), patterns[p])
  }

  /** The rule questions before the Core CS rules. */
  function LeadQuestions(ex: Extracted): seq<string> {
    When(Has(ex, DATA) && SomeTagMentions(Tags(ex, DATA), ["sql"]), [Q_INDEXING])
    + When(Has(ex, WEB) && SomeTagMentions(Tags(ex, WEB), ["react"]), [Q_STATE])
  }

  /** The questions of the two Core CS rules. */
  function CoreQuestions(ex: Extracted): seq<string> {
    When(Has(ex, CORE_CS), [Q_SEARCH]) + When(Has(ex, CORE_CS), [Q_PROCESS, Q_NORMALIZATION])
  }

  /** The rule questions after the Core CS rules. */
  function TailQuestions(ex: Extracted): seq<string> {
    When(Has(ex, WEB), [Q_REST])
    + When(Has(ex, LANGUAGES) && SomeTagMentions(Tags(ex, LANGUAGES), ["java", "python"]), [Q_OOP])
    + When(Has(ex, CLOUD), [Q_CONTAINERS])
    + When(Has(ex, DATA) && SomeTagMentions(Tags(ex, DATA), ["mongo", "nosql"]), [Q_NOSQL])
    + When(Has(ex, TESTING), [Q_TESTS])
    + When(Has(ex, WEB) && SomeTagMentions(Tags(ex, WEB), ["node"]), [Q_EVENT_LOOP])
  }

  /** The questions pushed by the skill rules, in rule order: at most two
      before the Core CS rules, at most six after them. */
  function RuleQuestions(ex: Extracted): (r: seq<string>)
    ensures |r| <= 11
    ensures Has(ex, CORE_CS) ==>
      && |LeadQuestions(ex)| + 3 <= |r|
      && r[|LeadQuestions(ex)|..|LeadQuestions(ex)| + 3] == [Q_SEARCH, Q_PROCESS, Q_NORMALIZATION]
    ensures !Has(ex, CORE_CS) ==> |r| <= 8
  {
    var lead := LeadQuestions(ex);
    var core := CoreQuestions(ex);
    var tail := TailQuestions(ex);
    assert |lead| <= 2 && |tail| <= 6;
    assert Has(ex, CORE_CS) ==> core == [Q_SEARCH, Q_PROCESS, Q_NORMALIZATION];
    assert !Has(ex, CORE_CS) ==> core == [];
    assert (lead + core + tail)[|lead|..|lead| + |core|] == core;
    lead + core + tail
  }

  /** The question one pass of the padding loop pushes. */
  function Pick(qs: seq<string>): (r: string)
    ensures r in GENERIC
  {
    var pick := GENERIC[|qs| % 3];
    if pick !in qs then pick else GENERIC[2]
  }

  /** The list after the padding loop `while (questions.length < 10)`. */
  function Pad(qs: seq<string>): (r: seq<string>)
    ensures |r| == if |qs| < 10 then 10 else |qs|
    ensures r[..|qs|] == qs
    ensures forall i :: |qs| <= i < |r| ==> r[i] in GENERIC
    decreases 10 - |qs|
  {
    if |qs| >= 10 then qs else Pad(qs + [Pick(qs)])
  }

  /** `buildQuestions(extractedSkills)` as a value. */
  function Questions(ex: Extracted): seq<string> {
    Pad(RuleQuestions(ex))[..10]
  }

  /** `buildQuestions(extractedSkills)`: the rule questions, padded with the
      generic questions to ten and cut to ten. */
  method BuildQuestions(ex: Extracted) returns (questions: seq<string>)
    ensures |questions| == 10
    ensures questions == Questions(ex)
    ensures var rules := RuleQuestions(ex);
      forall i :: 0 <= i < 10 ==>
        if i < |rules| then questions[i] == rules[i] else questions[i] in GENERIC
  {
    questions := RuleQuestions(ex);
    ghost var rules := questions;
    while |questions| < 10
      invariant Pad(questions) == Pad(rules)
      decreases 10 - |questions|
    {
      var pick := GENERIC[|questions| % |GENERIC|];
      if pick !in questions {
        questions := questions + [pick];
      } else {
        questions := questions + [GENERIC[2]];
      }
    }
    questions := questions[..10];
  }

  /** Once all three generic questions are present, the padding loop only
      pushes the third. */
  lemma {:induction false} PadRepeatsThird(qs: seq<string>)
    requires GENERIC[0] in qs && GENERIC[1] in qs && GENERIC[2] in qs
    ensures forall i :: |qs| <= i < |Pad(qs)| ==> Pad(qs)[i] == GENERIC[2]
    decreases 10 - |qs|
  {
    if |qs| < 10 {
      var next := qs + [Pick(qs)];
      assert Pick(qs) == GENERIC[2];
      PadRepeatsThird(next);
      assert Pad(qs) == Pad(next);
    }
  }

  /** Padding an empty list: the first two generic questions once, then
      the third eight times. */
  lemma PadFromEmpty()
    ensures Pad([])[0] == G_BUG && Pad([])[1] == G_LEARN
    ensures forall i :: 2 <= i < 10 ==> Pad([])[i] == G_DISAGREE
  {
    var s0: seq<string> := [];
    var s1 := [G_BUG];
    var s2 := [G_BUG, G_LEARN];
    var s3 := [G_BUG, G_LEARN, G_DISAGREE];
    assert Pick(s0) == G_BUG;
    assert s0 + [G_BUG] == s1;
    assert Pick(s1) == G_LEARN by { assert G_LEARN != G_BUG; }
    assert s1 + [G_LEARN] == s2;
    assert Pick(s2) == G_DISAGREE by { assert G_DISAGREE != G_BUG && G_DISAGREE != G_LEARN; }
    assert s2 + [G_DISAGREE] == s3;
    assert Pad(s0) == Pad(s3);
    PadRepeatsThird(s3);
  }

  /** A JD with no rule question gets the generic questions in the order the
      padding loop produces. */
  lemma NoRulesPadding(ex: Extracted)
    requires RuleQuestions(ex) == []
    ensures Questions(ex)[0] == G_BUG && Questions(ex)[1] == G_LEARN
    ensures forall i :: 2 <= i < 10 ==> Questions(ex)[i] == G_DISAGREE
  {
    PadFromEmpty();
  }

  /** When every rule fires, eleven rule questions are produced and the cut
      to ten drops the last one, the Node.js event-loop question. */
  lemma AllRulesDropEventLoop(ex: Extracted)
    requires |RuleQuestions(ex)| == 11
    ensures Questions(ex) == RuleQuestions(ex)[..10]
    ensures RuleQuestions(ex)[10] == Q_EVENT_LOOP
  {
  }

  // ---------------------------------------------------------------------
  // runAnalysis

  datatype AnalysisResult = AnalysisResult(
    company: string,
    role: string,
    jdText: string,
    extractedSkills: Extracted,
    checklist: seq<ChecklistBlock>,
    plan: seq<PlanBlock>,
    questions: seq<string>,
    readinessScore: int,
    companyIntel: Option<Intel>,
    roundMapping: seq<RoundStep>)

  /** `runAnalysis(company, role, jdText)` as a value; absent inputs are ''. */
  function Analyze(company: string, role: string, jdText: string): AnalysisResult {
    var ex := Extract(jdText);
    var companyIntel := GetCompanyIntel(Trim(company), jdText);
    AnalysisResult(
      Trim(company), Trim(role), Trim(jdText), ex,
      BuildChecklist(ex), Build7DayPlan(ex), Questions(ex),
      ComputeReadinessScore(company, role, jdText, ex.categoryNames),
      companyIntel, GetRoundMapping(companyIntel, ex.byCategory))
  }

  /** `runAnalysis(company, role, jdText)`. */
  method RunAnalysis(company: string, role: string, jdText: string) returns (r: AnalysisResult)
    ensures r == Analyze(company, role, jdText)
  {
    var ex := ExtractSkills(jdText);
    var readinessScore := ComputeReadinessScore(company, role, jdText, ex.categoryNames);
    var checklist := BuildChecklist(ex);
    var plan := Build7DayPlan(ex);
    var questions := BuildQuestions(ex);
    var companyName := Trim(company);
    var companyIntel := GetCompanyIntel(companyName, jdText);
    var roundMapping := GetRoundMapping(companyIntel, ex.byCategory);
    r := AnalysisResult(companyName, Trim(role), Trim(jdText), ex, checklist, plan, questions,
                        readinessScore, companyIntel, roundMapping);
  }

  /** The result keeps the inputs trimmed, and has company intel exactly
      when a company was given. */
  lemma AnalysisCompany(company: string, role: string, jdText: string)
    ensures var r := Analyze(company, role, jdText);
      && r.company == Trim(company) && r.role == Trim(role) && r.jdText == Trim(jdText)
      && (r.companyIntel.Some? <==> r.company != [])
  {
    TrimIdempotent(company);
  }

  /** The four-round mapping is produced exactly for a known enterprise. */
  lemma AnalysisRounds(company: string, role: string, jdText: string)
    ensures var r := Analyze(company, role, jdText);
      |r.roundMapping| == (if r.companyIntel.Some? && IsEnterprise(company) then 4 else 3)
  {
    var intel := GetCompanyIntel(Trim(company), jdText);
    var n := |GetRoundMapping(intel, Extract(jdText).byCategory)|;
    RoundsOfIntel(company, jdText, Extract(jdText).byCategory);
    assert |Analyze(company, role, jdText).roundMapping| == n;
  }

  /** The round mapping for the intel of a company has four rounds exactly
      for a known enterprise. */
  lemma RoundsOfIntel(company: string, jdText: string, byCategory: map<string, seq<string>>)
    ensures var intel := GetCompanyIntel(Trim(company), jdText);
      |GetRoundMapping(intel, byCategory)| == (if intel.Some? && IsEnterprise(company) then 4 else 3)
  {
    IsEnterpriseOfTrimmed(company);
    var intel := GetCompanyIntel(Trim(company), jdText);
    assert intel.Some? ==> (SizeOf(intel) == ENTERPRISE <==> IsEnterprise(company));
  }

  /** Every result has ten questions, four checklist rounds, five plan
      blocks and a score between 35 and 95. */
  lemma AnalysisShape(company: string, role: string, jdText: string)
    ensures var r := Analyze(company, role, jdText);
      && |r.questions| == 10 && |r.checklist| == 4 && |r.plan| == 5
      && 35 <= r.readinessScore <= 95
  {
    var ex := Extract(jdText);
    assert |Pad(RuleQuestions(ex))| >= 10;
  }
}
