/** The object `runAnalysis` returns, as the untyped value `saveEntry`
    receives, and what normalization makes of it. */
module Records {
  import opened Wrappers
  import opened Json
  import opened SkillCategories
  import opened CompanyIntel
  import opened Analysis
  import opened Schema

  /** `byCategory`: each category name to the array of its tags. */
  function ByCategoryJson(m: map<string, seq<string>>): (r: Json)
    ensures forall k :: Get(r, k) == (if k in m then Some(Strings(m[k])) else None)
  {
    JObj(map k | k in m :: Strings(m[k]))
  }

  /** The object `extractSkills` returns. */
  function ExtractedJson(ex: Extracted): (r: Json)
    ensures Get(r, "byCategory") == Some(ByCategoryJson(ex.byCategory))
    ensures Get(r, "isGeneralFresher") == Some(JBool(ex.isGeneralFresher))
  {
    JObj(map["byCategory" := ByCategoryJson(ex.byCategory),
             "categoryNames" := Strings(ex.categoryNames),
             "isGeneralFresher" := JBool(ex.isGeneralFresher)])
  }

  function SizeJson(s: SizeCategory): Json {
    JObj(map["label" := JStr(s.labelText), "value" := JStr(s.value)])
  }

  /** The object `getCompanyIntel` returns. */
  function IntelJson(intel: Intel): Json {
    JObj(map["companyName" := JStr(intel.companyName), "industry" := JStr(intel.industry),
             "sizeCategory" := SizeJson(intel.sizeCategory),
             "typicalHiringFocus" := JStr(intel.typicalHiringFocus)])
  }

  function RoundJson(step: RoundStep): (r: Json)
    ensures r.JObj?
  {
    JObj(map["round" := JStr(step.round), "title" := JStr(step.title), "whyMatters" := JStr(step.whyMatters)])
  }

  function ChecklistJson(block: ChecklistBlock): (r: Json)
    ensures r.JObj?
  {
    JObj(map["round" := JStr(block.round), "items" := Strings(block.items)])
  }

  function PlanJson(block: PlanBlock): (r: Json)
    ensures r.JObj?
  {
    JObj(map["day" := JStr(block.day), "tasks" := Strings(block.tasks)])
  }

  /** The array of the encodings of `xs`. */
  function RoundsJson(xs: seq<RoundStep>): (r: Json)
    ensures r.JArr? && |r.items| == |xs| && forall i :: 0 <= i < |xs| ==> r.items[i].JObj?
  {
    JArr(seq(|xs|, i requires 0 <= i < |xs| => RoundJson(xs[i])))
  }

  function ChecklistsJson(xs: seq<ChecklistBlock>): (r: Json)
    ensures r.JArr? && |r.items| == |xs| && forall i :: 0 <= i < |xs| ==> r.items[i].JObj?
  {
    JArr(seq(|xs|, i requires 0 <= i < |xs| => ChecklistJson(xs[i])))
  }

  function PlansJson(xs: seq<PlanBlock>): (r: Json)
    ensures r.JArr? && |r.items| == |xs| && forall i :: 0 <= i < |xs| ==> r.items[i].JObj?
  {
    JArr(seq(|xs|, i requires 0 <= i < |xs| => PlanJson(xs[i])))
  }

  /** The object `runAnalysis` returns; a missing `companyIntel` is
      `undefined`. */
  function AnalysisJson(r: AnalysisResult): Json {
    JObj(Put(map[
      "company" := JStr(r.company), "role" := JStr(r.role), "jdText" := JStr(r.jdText),
      "extractedSkills" := ExtractedJson(r.extractedSkills),
      "checklist" := ChecklistsJson(r.checklist),
      "plan" := PlansJson(r.plan),
      "questions" := Strings(r.questions),
      "readinessScore" := JNum(r.readinessScore),
      "roundMapping" := RoundsJson(r.roundMapping)],
      "companyIntel", if r.companyIntel.Some? then Some(IntelJson(r.companyIntel.value)) else None))
  }

  /** Where the parts normalization reads come from. */
  lemma AnalysisLists(r: AnalysisResult)
    ensures var src := AnalysisJson(r);
      && Get(src, "extractedSkills") == Some(ExtractedJson(r.extractedSkills))
      && Get(src, "roundMapping") == Some(RoundsJson(r.roundMapping))
      && Get(src, "checklist") == Some(ChecklistsJson(r.checklist))
  {
  }

  lemma AnalysisPlan(r: AnalysisResult)
    ensures var src := AnalysisJson(r);
      && Get(src, "plan7Days").None?
      && Get(src, "plan") == Some(PlansJson(r.plan))
      && Get(src, "updatedAt").None?
  {
  }

  lemma AnalysisScores(r: AnalysisResult)
    ensures var src := AnalysisJson(r);
      && Get(src, "baseScore").None?
      && Get(src, "readinessScore") == Some(JNum(r.readinessScore))
      && Get(src, "finalScore").None?
  {
  }

  /** The tags of every category are arrays, so normalization keeps them. */
  lemma ExtractedListsAreArrays(ex: Extracted)
    ensures SkillListsAreArrays(Some(ExtractedJson(ex)))
    ensures NormalizeExtractedSkills(Some(ExtractedJson(ex))).Some?
  {
    var bc := ByCategoryJson(ex.byCategory);
    assert ByCategory(ExtractedJson(ex)) == bc;
    assert Get(bc, GENERAL).Some? ==> Get(bc, GENERAL).value.JArr?;
  }

  /** Normalizing the skills of an analysis gives the tags of each category
      (an empty array for a category with none) and the default list as
      `other`, for fresher and non-fresher results alike. */
  lemma StoredSkillsOfExtracted(ex: Extracted)
    requires ex.isGeneralFresher || GENERAL !in ex.byCategory
    ensures NormalizeExtractedSkills(Some(ExtractedJson(ex))).Some?
    ensures var sk := NormalizeExtractedSkills(Some(ExtractedJson(ex))).value;
      && ArraySkills(sk)
      && sk.other == DEFAULT_OTHER
      && sk.coreCS == Strings(Tags(ex, CORE_CS)) && sk.languages == Strings(Tags(ex, LANGUAGES))
      && sk.web == Strings(Tags(ex, WEB)) && sk.data == Strings(Tags(ex, DATA))
      && sk.cloud == Strings(Tags(ex, CLOUD)) && sk.testing == Strings(Tags(ex, TESTING))
  {
    ExtractedListsAreArrays(ex);
    NormalizedListsAreArrays(Some(ExtractedJson(ex)));
    var bc := ByCategoryJson(ex.byCategory);
    assert ByCategory(ExtractedJson(ex)) == bc;
    if !ex.isGeneralFresher {
      CategoryOfExtracted(ex, GENERAL);
    }
    var sk := NormalizeExtractedSkills(Some(ExtractedJson(ex))).value;
    assert sk.coreCS == CategoryList(bc, CORE_CS) && sk.languages == CategoryList(bc, LANGUAGES);
    assert sk.web == CategoryList(bc, WEB) && sk.data == CategoryList(bc, DATA);
    assert sk.cloud == CategoryList(bc, CLOUD) && sk.testing == CategoryList(bc, TESTING);
    CategoryOfExtracted(ex, CORE_CS);
    CategoryOfExtracted(ex, LANGUAGES);
    CategoryOfExtracted(ex, WEB);
    CategoryOfExtracted(ex, DATA);
    CategoryOfExtracted(ex, CLOUD);
    CategoryOfExtracted(ex, TESTING);
  }

  /** One category of the stored object: the array of its tags, or an
      empty array when it has none. */
  lemma CategoryOfExtracted(ex: Extracted, key: string)
    ensures CategoryList(ByCategoryJson(ex.byCategory), key) == Strings(Tags(ex, key))
  {
    assert Strings([]) == EMPTY_ARRAY;
  }

  lemma StringsAppend(a: seq<string>, b: seq<string>)
    ensures Strings(a + b).items == Strings(a).items + Strings(b).items
  {
  }

  /** The skills of a saved analysis, flattened: the tags of Core CS,
      Languages, Web, Data, Cloud/DevOps and Testing in that order, then
      the four default skills. */
  lemma AllSkillsOfAnalysis(jdText: string)
    ensures var sk := NormalizeExtractedSkills(Some(ExtractedJson(Extract(jdText))));
      && sk.Some?
      && GetAllSkillsFromNormalized(Some(SkillsJson(sk.value)))
         == Some(Strings(AllTags(Extract(jdText)) + DEFAULT_OTHER_SKILLS).items)
  {
    var ex := Extract(jdText);
    ExtractFresherIff(jdText);
    StoredSkillsOfExtracted(ex);
    var sk := NormalizeExtractedSkills(Some(ExtractedJson(ex))).value;
    AllSkillsOfStored(sk);
    FlattenOfTags(ex, sk);
  }

  lemma FlattenOfTags(ex: Extracted, sk: Skills)
    requires ArraySkills(sk) && sk.other == DEFAULT_OTHER
    requires sk.coreCS == Strings(Tags(ex, CORE_CS)) && sk.languages == Strings(Tags(ex, LANGUAGES))
    requires sk.web == Strings(Tags(ex, WEB)) && sk.data == Strings(Tags(ex, DATA))
    requires sk.cloud == Strings(Tags(ex, CLOUD)) && sk.testing == Strings(Tags(ex, TESTING))
    ensures Flatten(sk) == Strings(AllTags(ex) + DEFAULT_OTHER_SKILLS).items
  {
    StringsConcat(Tags(ex, CORE_CS), Tags(ex, LANGUAGES), Tags(ex, WEB), Tags(ex, DATA),
                  Tags(ex, CLOUD), Tags(ex, TESTING), DEFAULT_OTHER_SKILLS);
  }

  /** Encoding a concatenation of seven lists as one array gives the
      concatenation of their arrays. */
  lemma StringsConcat(a0: seq<string>, a1: seq<string>, a2: seq<string>, a3: seq<string>,
                      a4: seq<string>, a5: seq<string>, d: seq<string>)
    ensures Strings(a0).items + (Strings(a1).items + (Strings(a2).items + (Strings(a3).items
      + (Strings(a4).items + (Strings(a5).items + Strings(d).items)))))
      == Strings((a0 + (a1 + (a2 + (a3 + (a4 + a5))))) + d).items
  {
    StringsAppend(a5, d);
    StringsAppend(a4, a5 + d);
    StringsAppend(a3, a4 + (a5 + d));
    StringsAppend(a2, a3 + (a4 + (a5 + d)));
    StringsAppend(a1, a2 + (a3 + (a4 + (a5 + d))));
    StringsAppend(a0, a1 + (a2 + (a3 + (a4 + (a5 + d)))));
    assert (a0 + (a1 + (a2 + (a3 + (a4 + a5))))) + d == a0 + (a1 + (a2 + (a3 + (a4 + (a5 + d)))));
  }

  /** The tags of the six categories, in display order. */
  function AllTags(ex: Extracted): seq<string> {
    Tags(ex, CORE_CS) + (Tags(ex, LANGUAGES) + (Tags(ex, WEB) + (Tags(ex, DATA)
      + (Tags(ex, CLOUD) + Tags(ex, TESTING)))))
  }

  /** The skills of an analysis normalize, and flattening them does not
      throw. */
  lemma AnalysisSkillsNormalize(ex: Extracted)
    ensures NormalizeExtractedSkills(Some(ExtractedJson(ex))).Some?
    ensures ArraySkills(NormalizeExtractedSkills(Some(ExtractedJson(ex))).value)
    ensures GetAllSkillsFromNormalized(Some(SkillsJson(NormalizeExtractedSkills(Some(ExtractedJson(ex))).value))).Some?
  {
    ExtractedListsAreArrays(ex);
    NormalizedListsAreArrays(Some(ExtractedJson(ex)));
    AllSkillsOfStored(NormalizeExtractedSkills(Some(ExtractedJson(ex))).value);
  }

  /** The lists of an analysis normalize to arrays. */
  lemma AnalysisListsNormalize(r: AnalysisResult)
    ensures NormalizeRoundMapping(Some(RoundsJson(r.roundMapping))).Some?
    ensures NormalizeRoundMapping(Some(RoundsJson(r.roundMapping))).value.JArr?
    ensures NormalizeChecklist(Some(ChecklistsJson(r.checklist))).Some?
    ensures NormalizeChecklist(Some(ChecklistsJson(r.checklist))).value.JArr?
    ensures NormalizePlan7Days(Some(PlansJson(r.plan))).Some?
    ensures NormalizePlan7Days(Some(PlansJson(r.plan))).value.JArr?
  {
  }

  /** Normalizing an analysis never throws, and its fields pass validation:
      `baseScore` and `finalScore` are the readiness score and `updatedAt`
      is the time of the save. */
  lemma AnalysisEntry(r: AnalysisResult, now: string)
    ensures NormalizeAnalysisToEntry(Some(AnalysisJson(r)), now).Some?
    ensures var e := NormalizeAnalysisToEntry(Some(AnalysisJson(r)), now).value;
      && e.JObj? && "id" !in e.fields && "createdAt" !in e.fields
      && FieldsValid(e)
      && Get(e, "baseScore") == Some(JNum(r.readinessScore))
      && Get(e, "finalScore") == Some(JNum(r.readinessScore))
      && Get(e, "updatedAt") == Some(JStr(now))
  {
    var src := AnalysisJson(r);
    AnalysisLists(r);
    AnalysisPlan(r);
    AnalysisScores(r);
    AnalysisSkillsNormalize(r.extractedSkills);
    AnalysisListsNormalize(r);
    var sk := NormalizeExtractedSkills(Some(ExtractedJson(r.extractedSkills))).value;
    var rm := NormalizeRoundMapping(Some(RoundsJson(r.roundMapping))).value;
    var cl := NormalizeChecklist(Some(ChecklistsJson(r.checklist))).value;
    var plan := NormalizePlan7Days(Some(PlansJson(r.plan))).value;
    var body := Body(src, now, sk, rm, cl, plan);
    assert EntryBody(src, now) == Some(body);
    BodyFieldsValid(src, now, sk, rm, cl, plan);
    BodyScores(src, now, sk, rm, cl, plan);
    BodySkills(src, now, sk, rm, cl, plan);
    BodyHasNoIdentity(src, now, sk, rm, cl, plan);
  }
}
