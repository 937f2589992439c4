/** Keyword-based skill extraction from a job description (JD). */
module SkillCategories {
  import opened Text

  /** One row of the keyword table: a category and its keywords, in order. */
  datatype Category = Category(name: string, keywords: seq<string>)

  const CORE_CS: string := "Core CS"
  const LANGUAGES: string := "Languages"
  const WEB: string := "Web"
  const DATA: string := "Data"
  const CLOUD: string := "Cloud/DevOps"
  const TESTING: string := "Testing"
  const GENERAL: string := "General"
  const FRESHER_TAG: string := "General fresher stack"

  const CORE_CS_KEYWORDS: seq<string> := ["DSA", "OOP", "DBMS", "OS", "Networks"]
  const LANGUAGES_KEYWORDS: seq<string> :=
    ["TypeScript", "JavaScript", "C++", "C#", "Java", "Python", "Go", "C"]
  const WEB_KEYWORDS: seq<string> := ["Next.js", "Node.js", "Express", "GraphQL", "React", "REST"]
  const DATA_KEYWORDS: seq<string> := ["MongoDB", "PostgreSQL", "MySQL", "Redis", "SQL"]
  const CLOUD_KEYWORDS: seq<string> :=
    ["Kubernetes", "Docker", "CI/CD", "AWS", "Azure", "GCP", "Linux"]
  const TESTING_KEYWORDS: seq<string> := ["Selenium", "Cypress", "Playwright", "JUnit", "PyTest"]

  /** The keyword table, in declared category and keyword order. */
  const CATEGORIES: seq<Category> := [
    Category(CORE_CS, CORE_CS_KEYWORDS),
    Category(LANGUAGES, LANGUAGES_KEYWORDS),
    Category(WEB, WEB_KEYWORDS),
    Category(DATA, DATA_KEYWORDS),
    Category(CLOUD, CLOUD_KEYWORDS),
    Category(TESTING, TESTING_KEYWORDS)
  ]

  /** Whether `keyword` is tagged in the lower-cased JD text: the keyword `C`
      needs a whole-word `c` and is suppressed by any `c++` or `c#`; every
      other keyword is a plain substring test. */
  predicate MatchKeyword(textLower: string, keyword: string): (r: bool)
    ensures r ==> Contains(textLower, Lower(keyword))
    ensures Lower(keyword) != "c" ==> (r <==> Contains(textLower, Lower(keyword)))
    ensures Lower(keyword) == "c" && r ==> !Contains(textLower, "c++") && !Contains(textLower, "c#")
  {
    var kwLower := Lower(keyword);
    if kwLower == "c" then
      if HasWholeWord(textLower, kwLower) then
        WholeWordIsSubstring(textLower, kwLower);
        !Contains(textLower, "c++") && !Contains(textLower, "c#")
      else false
    else
      Contains(textLower, kwLower)
  }

  /** `kw.charAt(0).toUpperCase() + kw.slice(1)`. */
  function Display(kw: string): string {
    if kw == [] then [] else [UpperChar(kw[0])] + kw[1..]
  }

  /** The tags found for the keywords `kws`, as the inner loop of
      `extractSkills` accumulates them: each matching keyword's display form,
      unless it is already in the list. */
  function Found(textLower: string, kws: seq<string>): seq<string>
  {
    if kws == [] then []
    else
      var prev := Found(textLower, kws[..|kws| - 1]);
      var kw := kws[|kws| - 1];
      if MatchKeyword(textLower, kw) && Display(kw) !in prev then prev + [Display(kw)] else prev
  }

  /** The keywords of `kws` that match, in order (a reference definition). */
  function Matched(textLower: string, kws: seq<string>): seq<string>
  {
    if kws == [] then []
    else
      var prev := Matched(textLower, kws[..|kws| - 1]);
      var kw := kws[|kws| - 1];
      if MatchKeyword(textLower, kw) then prev + [kw] else prev
  }

  /** What the outer loop of `extractSkills` builds over the categories
      `cats`: the non-empty tag lists by category name, and those names in
      order. */
  function Scan(textLower: string, cats: seq<Category>): (map<string, seq<string>>, seq<string>)
  {
    if cats == [] then (map[], [])
    else
      var (byCategory, names) := Scan(textLower, cats[..|cats| - 1]);
      var cat := cats[|cats| - 1];
      var found := Found(textLower, cat.keywords);
      if |found| > 0 then (byCategory[cat.name := found], names + [cat.name])
      else (byCategory, names)
  }

  /** The result of `extractSkills`. */
  datatype Extracted = Extracted(
    byCategory: map<string, seq<string>>,
    categoryNames: seq<string>,
    isGeneralFresher: bool)

  /** The specification of `extractSkills`. */
  function Extract(jdText: string): Extracted
  {
    var textLower := Lower(Trim(jdText));
    var (byCategory, names) := Scan(textLower, CATEGORIES);
    if |names| == 0 then Extracted(map[GENERAL := [FRESHER_TAG]], [GENERAL], true)
    else Extracted(byCategory, names, false)
  }

  /** The inner loop of `extractSkills`: the tags of one category. */
  method FindTags(textLower: string, keywords: seq<string>) returns (found: seq<string>)
    ensures found == Found(textLower, keywords)
  {
    found := [];
    var k := 0;
    while k < |keywords|
      invariant 0 <= k <= |keywords|
      invariant found == Found(textLower, keywords[..k])
    {
      var kw := keywords[k];
      assert keywords[..k + 1][..k] == keywords[..k];
      if MatchKeyword(textLower, kw) {
        var display := Display(kw);
        if display !in found {
          found := found + [display];
        }
      }
      k := k + 1;
    }
    assert keywords[..k] == keywords;
  }

  /** The outer loop of `extractSkills` over the categories `cats`. */
  method ScanCategories(textLower: string, cats: seq<Category>)
    returns (byCategory: map<string, seq<string>>, categoryNames: seq<string>)
    ensures (byCategory, categoryNames) == Scan(textLower, cats)
  {
    byCategory := map[];
    categoryNames := [];
    var c := 0;
    while c < |cats|
      invariant 0 <= c <= |cats|
      invariant (byCategory, categoryNames) == Scan(textLower, cats[..c])
    {
      var category := cats[c];
      var found := FindTags(textLower, category.keywords);
      assert cats[..c + 1][..c] == cats[..c];
      if |found| > 0 {
        byCategory := byCategory[category.name := found];
        categoryNames := categoryNames + [category.name];
      }
      c := c + 1;
    }
    assert cats[..c] == cats;
  }

  /** `extractSkills(jdText)`; an absent JD is the empty string. */
  method ExtractSkills(jdText: string) returns (r: Extracted)
    ensures r == Extract(jdText)
  {
    var textLower := Lower(Trim(jdText));
    var byCategory, categoryNames := ScanCategories(textLower, CATEGORIES);
    var isGeneralFresher := |categoryNames| == 0;
    if isGeneralFresher {
      byCategory := map[GENERAL := [FRESHER_TAG]];
      categoryNames := categoryNames + [GENERAL];
    }
    r := Extracted(byCategory, categoryNames, isGeneralFresher);
  }

  // ---------------------------------------------------------------------
  // Keyword matching

  /** Bare `C` is never tagged when the text contains `c++` or `c#`. */
  lemma CSuppressedByLongerKeywords(textLower: string)
    requires Contains(textLower, "c++") || Contains(textLower, "c#")
    ensures !MatchKeyword(textLower, "C")
  {
    assert Lower("C") == "c";
  }

  /** Otherwise `C` is tagged exactly when `c` occurs as a whole word. */
  lemma CIsWholeWord(textLower: string)
    requires !Contains(textLower, "c++") && !Contains(textLower, "c#")
    ensures MatchKeyword(textLower, "C") <==> HasWholeWord(textLower, "c")
  {
    assert Lower("C") == "c";
  }

  /** Every other keyword is tagged iff its lower-case form is a substring. */
  lemma OtherKeywordIsSubstring(textLower: string, keyword: string)
    requires Lower(keyword) != "c"
    ensures MatchKeyword(textLower, keyword) <==> Contains(textLower, Lower(keyword))
  {
  }

  /** A keyword whose lower-case form contains another's is never tagged
      without the other (neither being `C`). */
  lemma SubsumedKeyword(textLower: string, long: string, short: string)
    requires Lower(long) != "c" && Lower(short) != "c"
    requires Contains(Lower(long), Lower(short))
    requires MatchKeyword(textLower, long)
    ensures MatchKeyword(textLower, short)
  {
    ContainsTransitive(textLower, Lower(long), Lower(short));
  }

  /** Lower-casing keeps every occurrence of a substring. */
  lemma LowerKeepsOccurrence(s: string, sub: string, i: int)
    requires OccursAt(s, sub, i)
    ensures OccursAt(Lower(s), Lower(sub), i)
  {
    forall k | 0 <= k < |sub| ensures Lower(s)[i + k] == Lower(sub)[k] {
      assert s[i + k] == s[i..i + |sub|][k];
    }
    assert Lower(s)[i..i + |sub|] == Lower(sub);
  }

  /** `Java` is tagged whenever `JavaScript` is. */
  lemma JavaScriptImpliesJava(textLower: string)
    requires MatchKeyword(textLower, "JavaScript")
    ensures MatchKeyword(textLower, "Java")
  {
    assert OccursAt("JavaScript", "Java", 0);
    LowerKeepsOccurrence("JavaScript", "Java", 0);
    SubsumedKeyword(textLower, "JavaScript", "Java");
  }

  /** `SQL` is tagged whenever `MySQL` is. */
  lemma MySqlImpliesSql(textLower: string)
    requires MatchKeyword(textLower, "MySQL")
    ensures MatchKeyword(textLower, "SQL")
  {
    assert OccursAt("MySQL", "SQL", 2);
    LowerKeepsOccurrence("MySQL", "SQL", 2);
    SubsumedKeyword(textLower, "MySQL", "SQL");
  }

  /** No keyword is tagged in an empty text. */
  lemma NothingMatchesEmpty(keyword: string)
    requires keyword != []
    ensures !MatchKeyword([], keyword)
  {
    var kwLower := Lower(keyword);
    if kwLower == "c" {
      assert !WholeWordAt([], kwLower, 0);
    } else {
      NothingInEmpty(kwLower);
    }
  }

  // ---------------------------------------------------------------------
  // Tag lists

  predicate NoDuplicates(s: seq<string>) {
    forall i, j :: 0 <= i < j < |s| ==> s[i] != s[j]
  }

  /** A tag list never holds the same tag twice. */
  lemma {:induction false} FoundHasNoDuplicates(textLower: string, kws: seq<string>)
    ensures NoDuplicates(Found(textLower, kws))
  {
    if kws != [] {
      var init := kws[..|kws| - 1];
      var kw := kws[|kws| - 1];
      FoundHasNoDuplicates(textLower, init);
      var prev := Found(textLower, init);
      if MatchKeyword(textLower, kw) && Display(kw) !in prev {
        var f := prev + [Display(kw)];
        assert Found(textLower, kws) == f;
        forall i, j | 0 <= i < j < |f| ensures f[i] != f[j] {
          assert f[i] == prev[i];
        }
      }
    }
  }

  /** Keyword `kw` matches and displays as `tag`. */
  predicate DisplaysAs(textLower: string, kw: string, tag: string) {
    MatchKeyword(textLower, kw) && Display(kw) == tag
  }

  /** A tag is in the list iff some matching keyword displays as it. */
  lemma FoundMembers(textLower: string, kws: seq<string>, tag: string)
    ensures tag in Found(textLower, kws) <==> exists k :: 0 <= k < |kws| && DisplaysAs(textLower, kws[k], tag)
  {
    if tag in Found(textLower, kws) {
      FoundHasSource(textLower, kws, tag);
    }
    if exists k :: 0 <= k < |kws| && DisplaysAs(textLower, kws[k], tag) {
      var k :| 0 <= k < |kws| && DisplaysAs(textLower, kws[k], tag);
      SourceIsFound(textLower, kws, tag, k);
    }
  }

  lemma {:induction false} FoundHasSource(textLower: string, kws: seq<string>, tag: string)
    requires tag in Found(textLower, kws)
    ensures exists k :: 0 <= k < |kws| && DisplaysAs(textLower, kws[k], tag)
  {
    var init := kws[..|kws| - 1];
    if tag in Found(textLower, init) {
      FoundHasSource(textLower, init, tag);
      var k :| 0 <= k < |init| && DisplaysAs(textLower, init[k], tag);
      assert kws[k] == init[k];
    } else {
      assert DisplaysAs(textLower, kws[|kws| - 1], tag);
    }
  }

  lemma {:induction false} SourceIsFound(textLower: string, kws: seq<string>, tag: string, k: nat)
    requires k < |kws| && DisplaysAs(textLower, kws[k], tag)
    ensures tag in Found(textLower, kws)
  {
    var init := kws[..|kws| - 1];
    if k < |init| {
      assert init[k] == kws[k];
      SourceIsFound(textLower, init, tag, k);
    }
  }

  /** Keywords that are non-empty, start with no lower-case letter (so are
      their own display form) and are pairwise distinct. */
  predicate WellFormedKeywords(kws: seq<string>) {
    Capitalized(kws) && NoDuplicates(kws)
  }

  predicate Capitalized(kws: seq<string>) {
    forall k :: 0 <= k < |kws| ==> kws[k] != [] && !('a' <= kws[k][0] <= 'z')
  }

  /** A keyword that does not start with a lower-case letter is its own
      display form. */
  lemma CapitalIsDisplay(kw: string)
    requires kw != [] && !('a' <= kw[0] <= 'z')
    ensures Display(kw) == kw
  {
    assert kw == [kw[0]] + kw[1..];
  }

  /** For well-formed keywords the de-duplication never drops anything: the
      tag list is exactly the matching keywords in declared order. */
  lemma {:induction false} FoundIsMatched(textLower: string, kws: seq<string>)
    requires WellFormedKeywords(kws)
    ensures Found(textLower, kws) == Matched(textLower, kws)
  {
    if kws != [] {
      var init := kws[..|kws| - 1];
      var kw := kws[|kws| - 1];
      assert WellFormedKeywords(init);
      FoundIsMatched(textLower, init);
      assert kw !in init by {
        forall k | 0 <= k < |init| ensures init[k] != kw {
          assert init[k] == kws[k];
        }
      }
      MatchedMembers(textLower, init, kw);
      CapitalIsDisplay(kw);
    }
  }

  /** The matched keywords are a subsequence of the declared keywords. */
  lemma {:induction false} MatchedMembers(textLower: string, kws: seq<string>, kw: string)
    ensures kw in Matched(textLower, kws) <==> kw in kws && MatchKeyword(textLower, kw)
  {
    if kws != [] {
      var init := kws[..|kws| - 1];
      MatchedMembers(textLower, init, kw);
      assert kws == init + [kws[|kws| - 1]];
    }
  }

  lemma CoreCsKeywordsWellFormed() ensures WellFormedKeywords(CORE_CS_KEYWORDS) {
    CoreCsCapitalized();
    CoreCsDistinct();
  }
  lemma CoreCsCapitalized() ensures Capitalized(CORE_CS_KEYWORDS) {}
  lemma CoreCsDistinct() ensures NoDuplicates(CORE_CS_KEYWORDS) {}

  lemma LanguagesKeywordsWellFormed() ensures WellFormedKeywords(LANGUAGES_KEYWORDS) {
    LanguagesCapitalized();
    LanguagesDistinct();
  }
  lemma LanguagesCapitalized() ensures Capitalized(LANGUAGES_KEYWORDS) {}
  lemma LanguagesDistinct() ensures NoDuplicates(LANGUAGES_KEYWORDS) {}

  lemma WebKeywordsWellFormed() ensures WellFormedKeywords(WEB_KEYWORDS) {
    WebCapitalized();
    WebDistinct();
  }
  lemma WebCapitalized() ensures Capitalized(WEB_KEYWORDS) {}
  lemma WebDistinct() ensures NoDuplicates(WEB_KEYWORDS) {}

  lemma DataKeywordsWellFormed() ensures WellFormedKeywords(DATA_KEYWORDS) {
    DataCapitalized();
    DataDistinct();
  }
  lemma DataCapitalized() ensures Capitalized(DATA_KEYWORDS) {}
  lemma DataDistinct() ensures NoDuplicates(DATA_KEYWORDS) {}

  lemma CloudKeywordsWellFormed() ensures WellFormedKeywords(CLOUD_KEYWORDS) {
    CloudCapitalized();
    CloudDistinct();
  }
  lemma CloudCapitalized() ensures Capitalized(CLOUD_KEYWORDS) {}
  lemma CloudDistinct() ensures NoDuplicates(CLOUD_KEYWORDS) {}

  lemma TestingKeywordsWellFormed() ensures WellFormedKeywords(TESTING_KEYWORDS) {
    TestingCapitalized();
    TestingDistinct();
  }
  lemma TestingCapitalized() ensures Capitalized(TESTING_KEYWORDS) {}
  lemma TestingDistinct() ensures NoDuplicates(TESTING_KEYWORDS) {}

  /** Every keyword of the table is non-empty, already in display form, and
      no keyword is repeated within its category. */
  lemma TableKeywordsWellFormed()
    ensures forall c :: 0 <= c < |CATEGORIES| ==> WellFormedKeywords(CATEGORIES[c].keywords)
  {
    CoreCsKeywordsWellFormed();
    LanguagesKeywordsWellFormed();
    WebKeywordsWellFormed();
    DataKeywordsWellFormed();
    CloudKeywordsWellFormed();
    TestingKeywordsWellFormed();
  }

  /** The category names are distinct and none is `General`. */
  lemma TableNamesDistinct()
    ensures DistinctNames(CATEGORIES)
    ensures forall c :: 0 <= c < |CATEGORIES| ==> CATEGORIES[c].name != GENERAL
  {
  }

  // ---------------------------------------------------------------------
  // Categories

  /** The names whose tag lists are non-empty, in declared order (a reference
      definition). */
  function NonEmptyNames(textLower: string, cats: seq<Category>): seq<string>
  {
    if cats == [] then []
    else
      NonEmptyNames(textLower, cats[..|cats| - 1])
      + (if |Found(textLower, cats[|cats| - 1].keywords)| > 0 then [cats[|cats| - 1].name] else [])
  }

  predicate DistinctNames(cats: seq<Category>) {
    forall i, j :: 0 <= i < j < |cats| ==> cats[i].name != cats[j].name
  }

  /** The names follow declared category order, keeping only the categories
      with at least one tag. */
  lemma {:induction false} ScanNames(textLower: string, cats: seq<Category>)
    ensures Scan(textLower, cats).1 == NonEmptyNames(textLower, cats)
  {
    if cats != [] {
      ScanNames(textLower, cats[..|cats| - 1]);
    }
  }

  /** A category is in `byCategory` iff it has at least one tag, and then its
      list is its tags. */
  lemma {:induction false} ScanEntries(textLower: string, cats: seq<Category>, c: int)
    requires DistinctNames(cats)
    requires 0 <= c < |cats|
    ensures cats[c].name in Scan(textLower, cats).0 <==> |Found(textLower, cats[c].keywords)| > 0
    ensures cats[c].name in Scan(textLower, cats).0 ==>
      Scan(textLower, cats).0[cats[c].name] == Found(textLower, cats[c].keywords)
  {
    var init := cats[..|cats| - 1];
    if c < |init| {
      assert DistinctNames(init);
      assert init[c] == cats[c];
      assert cats[c].name != cats[|cats| - 1].name;
      ScanEntries(textLower, init, c);
    } else {
      ScanKeys(textLower, init, cats[c].name);
      assert forall d :: 0 <= d < |init| ==> init[d] == cats[d];
    }
  }

  /** Every key of `byCategory` is the name of a scanned category. */
  lemma {:induction false} ScanKeys(textLower: string, cats: seq<Category>, name: string)
    ensures name in Scan(textLower, cats).0 ==> exists c :: 0 <= c < |cats| && cats[c].name == name
  {
    if cats != [] && name in Scan(textLower, cats).0 && name != cats[|cats| - 1].name {
      var init := cats[..|cats| - 1];
      ScanKeys(textLower, init, name);
      var c :| 0 <= c < |init| && init[c].name == name;
      assert cats[c].name == name;
    }
  }

  /** The JD matches nothing in any category. */
  predicate NoCategoryMatches(textLower: string) {
    forall c :: 0 <= c < |CATEGORIES| ==> Found(textLower, CATEGORIES[c].keywords) == []
  }

  /** `isGeneralFresher` holds iff no category matched, and then the result
      is exactly `{General: ['General fresher stack']}` with names
      `['General']`; otherwise every listed name is a real category with its
      tags. */
  lemma ExtractFresherIff(jdText: string)
    ensures var textLower := Lower(Trim(jdText));
      Extract(jdText).isGeneralFresher <==> NoCategoryMatches(textLower)
    ensures Extract(jdText).isGeneralFresher ==>
      Extract(jdText) == Extracted(map[GENERAL := [FRESHER_TAG]], [GENERAL], true)
    ensures !Extract(jdText).isGeneralFresher ==>
      var textLower := Lower(Trim(jdText));
      && Extract(jdText).categoryNames == NonEmptyNames(textLower, CATEGORIES)
      && GENERAL !in Extract(jdText).byCategory
      && forall c :: 0 <= c < |CATEGORIES| ==>
           (CATEGORIES[c].name in Extract(jdText).byCategory <==>
              Matched(textLower, CATEGORIES[c].keywords) != [])
           && (CATEGORIES[c].name in Extract(jdText).byCategory ==>
              Extract(jdText).byCategory[CATEGORIES[c].name] == Matched(textLower, CATEGORIES[c].keywords))
  {
    var textLower := Lower(Trim(jdText));
    TableKeywordsWellFormed();
    TableNamesDistinct();
    ScanFacts(textLower, CATEGORIES);
  }

  /** What `Scan` builds over any table of distinct, well-formed categories
      none of which is named `General`. */
  lemma ScanFacts(textLower: string, cats: seq<Category>)
    requires DistinctNames(cats)
    requires forall c :: 0 <= c < |cats| ==> WellFormedKeywords(cats[c].keywords) && cats[c].name != GENERAL
    ensures Scan(textLower, cats).1 == NonEmptyNames(textLower, cats)
    ensures NonEmptyNames(textLower, cats) == [] <==>
      forall c :: 0 <= c < |cats| ==> Found(textLower, cats[c].keywords) == []
    ensures GENERAL !in Scan(textLower, cats).0
    ensures forall c :: 0 <= c < |cats| ==>
      && Found(textLower, cats[c].keywords) == Matched(textLower, cats[c].keywords)
      && (cats[c].name in Scan(textLower, cats).0 <==> Matched(textLower, cats[c].keywords) != [])
      && (cats[c].name in Scan(textLower, cats).0 ==>
            Scan(textLower, cats).0[cats[c].name] == Matched(textLower, cats[c].keywords))
  {
    ScanNames(textLower, cats);
    NamesEmptyIff(textLower, cats);
    ScanKeys(textLower, cats, GENERAL);
    forall c | 0 <= c < |cats|
      ensures Found(textLower, cats[c].keywords) == Matched(textLower, cats[c].keywords)
      ensures cats[c].name in Scan(textLower, cats).0 <==> |Found(textLower, cats[c].keywords)| > 0
      ensures cats[c].name in Scan(textLower, cats).0 ==>
        Scan(textLower, cats).0[cats[c].name] == Found(textLower, cats[c].keywords)
    {
      FoundIsMatched(textLower, cats[c].keywords);
      ScanEntries(textLower, cats, c);
    }
  }

  lemma {:induction false} NamesEmptyIff(textLower: string, cats: seq<Category>)
    ensures NonEmptyNames(textLower, cats) == [] <==>
      forall c :: 0 <= c < |cats| ==> Found(textLower, cats[c].keywords) == []
  {
    if cats != [] {
      var init := cats[..|cats| - 1];
      NamesEmptyIff(textLower, init);
      assert forall c :: 0 <= c < |init| ==> init[c] == cats[c];
    }
  }

  /** An empty, blank or absent JD yields the fresher result. */
  lemma BlankJdIsFresher(jdText: string)
    requires Trim(jdText) == []
    ensures Extract(jdText) == Extracted(map[GENERAL := [FRESHER_TAG]], [GENERAL], true)
  {
    var textLower := Lower(Trim(jdText));
    assert textLower == [];
    TableKeywordsWellFormed();
    TableNamesDistinct();
    forall c | 0 <= c < |CATEGORIES|
      ensures Found(textLower, CATEGORIES[c].keywords) == []
    {
      var kws := CATEGORIES[c].keywords;
      FoundIsMatched(textLower, kws);
      if Matched(textLower, kws) != [] {
        var kw := Matched(textLower, kws)[0];
        MatchedMembers(textLower, kws, kw);
        NothingMatchesEmpty(kw);
      }
    }
    ExtractFresherIff(jdText);
  }
}
