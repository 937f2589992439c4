/** Company intel and round mapping: heuristics inferred from the company
    name and the JD text, with no lookup of any outside data. */
module CompanyIntel {
  import opened Wrappers
  import opened Text

  /** The companies treated as enterprises (lower case; `tcs` is listed twice). */
  const ENTERPRISE_NAMES: seq<string> := [
    "amazon", "infosys", "tcs", "tata consultancy", "wipro", "accenture", "microsoft", "google",
    "capgemini", "cognizant", "hcl", "ibm", "oracle", "tata motors", "tata steel", "tech mahindra",
    "larsen", "l&t", "reliance", "tcs", "dell", "hp", "cisco", "salesforce", "adobe", "sap",
    "intel", "nvidia", "qualcomm", "goldman sachs", "morgan stanley", "jpmorgan", "barclays"
  ]

  /** `normalizeCompany`: trimmed and lower-cased (an absent name is ''). */
  function NormalizeCompany(name: string): (r: string)
    ensures |r| <= |name|
    ensures r == [] <==> forall i :: 0 <= i < |name| ==> IsSpace(name[i])
  {
    Lower(Trim(name))
  }

  /** Normalizing a normalized name changes nothing. */
  lemma NormalizeIdempotent(name: string)
    ensures NormalizeCompany(NormalizeCompany(name)) == NormalizeCompany(name)
  {
    LowerOfTrimmed(name);
  }

  /** `isEnterprise`: the normalized name is non-empty and contains, or is
      contained in, some known enterprise name. */
  predicate IsEnterprise(companyName: string): (r: bool)
    ensures r ==> exists i :: 0 <= i < |companyName| && !IsSpace(companyName[i])
  {
    var n := NormalizeCompany(companyName);
    n != [] && MatchesKnownName(n)
  }

  /** `ENTERPRISE_NAMES.some((ent) => n.includes(ent) || ent.includes(n))`. */
  predicate MatchesKnownName(n: string) {
    exists e :: 0 <= e < |ENTERPRISE_NAMES| &&
      (Contains(n, ENTERPRISE_NAMES[e]) || Contains(ENTERPRISE_NAMES[e], n))
  }

  /** `getCompanyIntel` classifies the trimmed name, which is the same as
      classifying the name as given. */
  lemma IsEnterpriseOfTrimmed(companyName: string)
    ensures IsEnterprise(Trim(companyName)) <==> IsEnterprise(companyName)
  {
    TrimIdempotent(companyName);
  }

  /** Case and surrounding white space do not change the classification. */
  lemma IsEnterpriseIgnoresNormalization(companyName: string)
    ensures IsEnterprise(NormalizeCompany(companyName)) <==> IsEnterprise(companyName)
  {
    NormalizeIdempotent(companyName);
  }

  /** A name that, once normalized, is one of the known names, or contains
      one, is an enterprise. */
  lemma KnownNameIsEnterprise(companyName: string, e: nat)
    requires e < |ENTERPRISE_NAMES|
    requires Contains(NormalizeCompany(companyName), ENTERPRISE_NAMES[e])
    ensures IsEnterprise(companyName)
  {
    var n := NormalizeCompany(companyName);
    var i :| 0 <= i <= |n| && OccursAt(n, ENTERPRISE_NAMES[e], i);
    assert ENTERPRISE_NAMES[e] != [];
  }

  /** The reverse inclusion makes any fragment of a known name an
      enterprise too: the one-letter name `a` (a fragment of `amazon`)
      counts as one. */
  lemma FragmentIsEnterprise()
    ensures IsEnterprise("a")
  {
    assert TrimStart("a") == "a" && TrimEnd("a") == "a";
    assert Lower("a") == "a";
    assert OccursAt(ENTERPRISE_NAMES[0], "a", 0);
    assert Contains(ENTERPRISE_NAMES[0], "a");
    assert MatchesKnownName("a");
  }

  // ---------------------------------------------------------------------
  // Industry

  /** The keyword groups of `inferIndustry`, tried in this order; each is a
      whole-word alternation. */
  datatype IndustryRule = IndustryRule(words: seq<string>, industry: string)

  const FINANCIAL_SERVICES: string := "Financial Services"
  const RETAIL: string := "Retail"
  const HEALTHCARE: string := "Healthcare"
  const MANUFACTURING: string := "Manufacturing & Logistics"
  const TECHNOLOGY_SERVICES: string := "Technology Services"

  const FINANCE_WORDS: seq<string> := ["finance", "banking", "investment", "trading"]
  const RETAIL_WORDS: seq<string> := ["retail", "ecommerce", "e-commerce"]
  const HEALTH_WORDS: seq<string> := ["healthcare", "health", "medical", "pharma"]
  const MANUFACTURING_WORDS: seq<string> := ["manufacturing", "automotive", "logistics"]

  const INDUSTRY_RULES: seq<IndustryRule> := [
    IndustryRule(FINANCE_WORDS, FINANCIAL_SERVICES),
    IndustryRule(RETAIL_WORDS, RETAIL),
    IndustryRule(HEALTH_WORDS, HEALTHCARE),
    IndustryRule(MANUFACTURING_WORDS, MANUFACTURING)
  ]

  /** `/\b(w1|w2|...)\b/.test(text)`. Every word here starts and ends with a
      letter, so the alternation matches iff one alternative does. */
  predicate HasAnyWord(text: string, words: seq<string>) {
    exists w :: 0 <= w < |words| && HasWholeWord(text, words[w])
  }

  /** The text `inferIndustry` searches. */
  function IndustryText(companyName: string, jdText: string): string {
    Lower(companyName + " " + jdText)
  }

  /** `inferIndustry(companyName, jdText)`. */
  function InferIndustry(companyName: string, jdText: string): (r: string)
    ensures r in [FINANCIAL_SERVICES, RETAIL, HEALTHCARE, MANUFACTURING, TECHNOLOGY_SERVICES]
  {
    var text := IndustryText(companyName, jdText);
    if HasAnyWord(text, FINANCE_WORDS) then FINANCIAL_SERVICES
    else if HasAnyWord(text, RETAIL_WORDS) then RETAIL
    else if HasAnyWord(text, HEALTH_WORDS) then HEALTHCARE
    else if HasAnyWord(text, MANUFACTURING_WORDS) then MANUFACTURING
    else TECHNOLOGY_SERVICES
  }

  /** A reference definition: the industry of the first rule whose words
      occur, or the default. */
  function FirstMatchingIndustry(text: string, rules: seq<IndustryRule>): string {
    if rules == [] then TECHNOLOGY_SERVICES
    else if HasAnyWord(text, rules[0].words) then rules[0].industry
    else FirstMatchingIndustry(text, rules[1..])
  }

  /** `inferIndustry` is the first-match over the rule table, and it falls
      back to Technology Services exactly when no rule's words occur. */
  lemma InferIndustryIsFirstMatch(companyName: string, jdText: string)
    ensures var text := IndustryText(companyName, jdText);
      InferIndustry(companyName, jdText) == FirstMatchingIndustry(text, INDUSTRY_RULES)
    ensures var text := IndustryText(companyName, jdText);
      InferIndustry(companyName, jdText) == TECHNOLOGY_SERVICES <==>
        forall k :: 0 <= k < |INDUSTRY_RULES| ==> !HasAnyWord(text, INDUSTRY_RULES[k].words)
  {
    var text := IndustryText(companyName, jdText);
    var rules := INDUSTRY_RULES;
    assert rules[1..][1..][1..][1..] == [];
    assert FirstMatchingIndustry(text, rules[1..][1..][1..]) ==
      if HasAnyWord(text, MANUFACTURING_WORDS) then MANUFACTURING else TECHNOLOGY_SERVICES;
    assert FirstMatchingIndustry(text, rules[1..][1..]) ==
      if HasAnyWord(text, HEALTH_WORDS) then HEALTHCARE
      else FirstMatchingIndustry(text, rules[1..][1..][1..]);
    assert FirstMatchingIndustry(text, rules[1..]) ==
      if HasAnyWord(text, RETAIL_WORDS) then RETAIL
      else FirstMatchingIndustry(text, rules[1..][1..]);
  }

  // ---------------------------------------------------------------------
  // Size and hiring focus

  datatype SizeCategory = SizeCategory(labelText: string, value: string)

  const ENTERPRISE: string := "enterprise"
  const STARTUP: string := "startup"
  const ENTERPRISE_SIZE: SizeCategory := SizeCategory("Enterprise (2000+)", ENTERPRISE)
  const STARTUP_SIZE: SizeCategory := SizeCategory("Startup (<200)", STARTUP)

  /** `getSizeCategory(companyName)`: null for a blank name; otherwise an
      enterprise when the name is known, a startup when it is not. */
  function GetSizeCategory(companyName: string): (r: Option<SizeCategory>)
    ensures r.None? <==> Trim(companyName) == []
    ensures r.Some? ==> (r.value == ENTERPRISE_SIZE <==> IsEnterprise(companyName))
    ensures r.Some? ==> r.value in [ENTERPRISE_SIZE, STARTUP_SIZE]
  {
    if Trim(companyName) == [] then None
    else if IsEnterprise(companyName) then Some(ENTERPRISE_SIZE)
    else Some(STARTUP_SIZE)
  }

  const ENTERPRISE_FOCUS: string :=
    "Structured DSA and core CS fundamentals; standardized online tests and technical rounds."
  const STARTUP_FOCUS: string :=
    "Practical problem-solving and stack depth; system design and culture fit."
  const DEFAULT_FOCUS: string :=
    "Mix of fundamentals and practical coding; technical and behavioral rounds."

  /** `getTypicalHiringFocus(sizeValue)`. */
  function GetTypicalHiringFocus(sizeValue: string): (r: string)
    ensures sizeValue == ENTERPRISE <==> r == ENTERPRISE_FOCUS
    ensures sizeValue == STARTUP <==> r == STARTUP_FOCUS
    ensures sizeValue != ENTERPRISE && sizeValue != STARTUP <==> r == DEFAULT_FOCUS
  {
    if sizeValue == ENTERPRISE then ENTERPRISE_FOCUS
    else if sizeValue == STARTUP then STARTUP_FOCUS
    else DEFAULT_FOCUS
  }

  // ---------------------------------------------------------------------
  // Company intel

  datatype Intel = Intel(
    companyName: string,
    industry: string,
    sizeCategory: SizeCategory,
    typicalHiringFocus: string)

  /** `getCompanyIntel(companyName, jdText)`: null for a blank name. */
  function GetCompanyIntel(companyName: string, jdText: string): (r: Option<Intel>)
    ensures r.None? <==> Trim(companyName) == []
    ensures r.Some? ==>
      && r.value.companyName == Trim(companyName)
      && r.value.companyName != []
      && r.value.industry == InferIndustry(Trim(companyName), jdText)
      && (r.value.sizeCategory == ENTERPRISE_SIZE <==> IsEnterprise(companyName))
      && r.value.sizeCategory in [ENTERPRISE_SIZE, STARTUP_SIZE]
      && r.value.typicalHiringFocus ==
           (if IsEnterprise(companyName) then ENTERPRISE_FOCUS else STARTUP_FOCUS)
  {
    var name := Trim(companyName);
    TrimIdempotent(companyName);
    IsEnterpriseOfTrimmed(companyName);
    if name == [] then None
    else
      match GetSizeCategory(name)
      case None => None
      case Some(sizeCategory) =>
        Some(Intel(name, InferIndustry(name, jdText), sizeCategory,
                   GetTypicalHiringFocus(sizeCategory.value)))
  }

  // ---------------------------------------------------------------------
  // Round mapping

  datatype RoundStep = RoundStep(round: string, title: string, whyMatters: string)

  const WHY_ONLINE_TEST: string := "Filters for basic aptitude and coding speed; often elimination round."
  const WHY_TECHNICAL_DSA: string := "Deep dive into data structures and algorithms; expect live coding."
  const WHY_TECH_PROJECTS: string := "Validates real-world experience and how you apply your stack."
  const WHY_HR: string := "Assesses fit, motivation, and communication; be ready with STAR examples."
  const WHY_PRACTICAL_CODING: string := "Tests hands-on coding and problem-solving in your stack."
  const WHY_SYSTEM_DISCUSSION: string := "Evaluates design thinking and trade-offs."
  const WHY_CULTURE_FIT: string := "Checks alignment with values and team dynamics."

  const ROUND_WHY: seq<string> := [
    WHY_ONLINE_TEST, WHY_TECHNICAL_DSA, WHY_TECH_PROJECTS, WHY_HR,
    WHY_PRACTICAL_CODING, WHY_SYSTEM_DISCUSSION, WHY_CULTURE_FIT
  ]

  const ROUND_LABELS: seq<string> := ["Round 1", "Round 2", "Round 3", "Round 4"]

  /** The rounds with titles `titles` and reasons `whys`, labelled in order. */
  function Rounds(titles: seq<string>, whys: seq<string>): (r: seq<RoundStep>)
    requires |titles| == |whys| <= |ROUND_LABELS|
    ensures |r| == |titles|
    ensures forall i :: 0 <= i < |r| ==>
      r[i] == RoundStep(ROUND_LABELS[i], titles[i], whys[i])
  {
    seq(|titles|, i requires 0 <= i < |titles| => RoundStep(ROUND_LABELS[i], titles[i], whys[i]))
  }

  const ENTERPRISE_CORE_ROUNDS: seq<RoundStep> := Rounds(
    ["Online Test (DSA + Aptitude)", "Technical (DSA + Core CS)", "Tech + Projects", "HR"],
    [WHY_ONLINE_TEST, WHY_TECHNICAL_DSA, WHY_TECH_PROJECTS, WHY_HR])
  const ENTERPRISE_ROUNDS: seq<RoundStep> := Rounds(
    ["Online Test (Aptitude + Basics)", "Technical (Stack + Fundamentals)", "Tech + Projects", "HR"],
    [WHY_ONLINE_TEST, WHY_TECHNICAL_DSA, WHY_TECH_PROJECTS, WHY_HR])
  const STARTUP_WEB_ROUNDS: seq<RoundStep> := Rounds(
    ["Practical coding", "System discussion", "Culture fit"],
    [WHY_PRACTICAL_CODING, WHY_SYSTEM_DISCUSSION, WHY_CULTURE_FIT])
  const STARTUP_ROUNDS: seq<RoundStep> := Rounds(
    ["Coding / Problem-solving", "Technical deep dive", "Culture fit"],
    [WHY_PRACTICAL_CODING, WHY_TECHNICAL_DSA, WHY_CULTURE_FIT])
  const FALLBACK_ROUNDS: seq<RoundStep> := Rounds(
    ["Screening (Aptitude / Coding)", "Technical", "HR / Fit"],
    [WHY_ONLINE_TEST, WHY_TECHNICAL_DSA, WHY_HR])

  /** `companyIntel?.sizeCategory?.value ?? 'startup'`. */
  function SizeOf(companyIntel: Option<Intel>): string {
    if companyIntel.Some? then companyIntel.value.sizeCategory.value else STARTUP
  }

  /** `(byCategory[cat]?.length ?? 0) > 0`. */
  predicate HasTags(byCategory: map<string, seq<string>>, cat: string) {
    cat in byCategory && |byCategory[cat]| > 0
  }

  /** `getRoundMapping(companyIntel, extractedSkills)`. */
  function GetRoundMapping(companyIntel: Option<Intel>, byCategory: map<string, seq<string>>)
    : (r: seq<RoundStep>)
    ensures |r| == (if SizeOf(companyIntel) == ENTERPRISE then 4 else 3)
    ensures forall i :: 0 <= i < |r| ==> r[i].round == ROUND_LABELS[i] && r[i].whyMatters in ROUND_WHY
    ensures SizeOf(companyIntel) == ENTERPRISE ==>
      r[0].whyMatters == WHY_ONLINE_TEST && r[2].title == "Tech + Projects" && r[3].title == "HR"
    ensures SizeOf(companyIntel) == ENTERPRISE ==>
      && (r[0].title == "Online Test (DSA + Aptitude)" <==> HasTags(byCategory, "Core CS"))
      && (r[0].title == "Online Test (Aptitude + Basics)" <==> !HasTags(byCategory, "Core CS"))
      && (r[1].title == "Technical (DSA + Core CS)" <==> HasTags(byCategory, "Core CS"))
    ensures SizeOf(companyIntel) == STARTUP ==>
      && r[2].title == "Culture fit"
      && (r[0].title == "Practical coding" <==> HasTags(byCategory, "Web"))
      && (r[1].title == "System discussion" <==> HasTags(byCategory, "Web"))
    ensures SizeOf(companyIntel) != ENTERPRISE && SizeOf(companyIntel) != STARTUP ==>
      r == FALLBACK_ROUNDS
  {
    var size := SizeOf(companyIntel);
    if size == ENTERPRISE && HasTags(byCategory, "Core CS") then ENTERPRISE_CORE_ROUNDS
    else if size == ENTERPRISE then ENTERPRISE_ROUNDS
    else if size == STARTUP && HasTags(byCategory, "Web") then STARTUP_WEB_ROUNDS
    else if size == STARTUP then STARTUP_ROUNDS
    else FALLBACK_ROUNDS
  }

  /** The mapping depends on the skills only through whether Core CS and Web
      have tags: the other categories never change it. */
  lemma RoundMappingDependsOnCoreAndWeb(
    companyIntel: Option<Intel>, a: map<string, seq<string>>, b: map<string, seq<string>>)
    requires HasTags(a, "Core CS") == HasTags(b, "Core CS")
    requires HasTags(a, "Web") == HasTags(b, "Web")
    ensures GetRoundMapping(companyIntel, a) == GetRoundMapping(companyIntel, b)
  {
  }

  /** With no company intel the candidate is mapped as at a startup. */
  lemma NoIntelMeansStartup(byCategory: map<string, seq<string>>)
    ensures GetRoundMapping(None, byCategory) ==
      (if HasTags(byCategory, "Web") then STARTUP_WEB_ROUNDS else STARTUP_ROUNDS)
  {
  }

  /** The fallback mapping is never produced for intel built by
      `getCompanyIntel`, whose size is always enterprise or startup. */
  lemma FallbackUnreachable(companyName: string, jdText: string, byCategory: map<string, seq<string>>)
    ensures GetRoundMapping(GetCompanyIntel(companyName, jdText), byCategory) != FALLBACK_ROUNDS
  {
    var intel := GetCompanyIntel(companyName, jdText);
    var r := GetRoundMapping(intel, byCategory);
    assert r[0].title != FALLBACK_ROUNDS[0].title;
  }
}
