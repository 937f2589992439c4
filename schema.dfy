/** The standard shape of a saved analysis entry: normalization of the
    pieces of an analysis, validation, and migration of older or damaged
    entries. Every value here is untyped JSON (`Json`); a JavaScript
    exception is `None`. */
module Schema {
  import opened Wrappers
  import opened Text
  import opened Json
  import opened SkillCategories

  /** The canonical skill keys, in the order `getAllSkillsFromNormalized`
      concatenates them. */
  const SKILL_KEYS: seq<string> := ["coreCS", "languages", "web", "data", "cloud", "testing", "other"]

  /** The display keys matching `SKILL_KEYS` one for one. */
  const DISPLAY_KEYS: seq<string> := [CORE_CS, LANGUAGES, WEB, DATA, CLOUD, TESTING, GENERAL]

  const DEFAULT_OTHER_SKILLS: seq<string> := ["Communication", "Problem solving", "Basic coding", "Projects"]

  /** `[...DEFAULT_OTHER_SKILLS]`. */
  const DEFAULT_OTHER: Json := Strings(DEFAULT_OTHER_SKILLS)

  /** The canonical skills object, one value per key of `SKILL_KEYS`. */
  datatype Skills = Skills(coreCS: Json, languages: Json, web: Json, data: Json,
                           cloud: Json, testing: Json, other: Json)
  {
    /** The seven lists in `SKILL_KEYS` order. */
    function Lists(): (r: seq<Json>)
      ensures |r| == 7
    {
      [coreCS, languages, web, data, cloud, testing, other]
    }
  }

  /** The stored form of a skills value. */
  function SkillsJson(sk: Skills): (r: Json)
    ensures r.JObj?
    ensures Get(r, "coreCS") == Some(sk.coreCS) && Get(r, "languages") == Some(sk.languages)
    ensures Get(r, "web") == Some(sk.web) && Get(r, "data") == Some(sk.data)
    ensures Get(r, "cloud") == Some(sk.cloud) && Get(r, "testing") == Some(sk.testing)
    ensures Get(r, "other") == Some(sk.other)
    ensures Get(r, "byCategory").None? && Get(r, "isGeneralFresher").None?
  {
    JObj(map["coreCS" := sk.coreCS, "languages" := sk.languages, "web" := sk.web, "data" := sk.data,
             "cloud" := sk.cloud, "testing" := sk.testing, "other" := sk.other])
  }

  /** `{ ...EMPTY_SKILLS, other: [...DEFAULT_OTHER_SKILLS] }`. */
  const DEFAULT_SKILLS: Skills :=
    Skills(EMPTY_ARRAY, EMPTY_ARRAY, EMPTY_ARRAY, EMPTY_ARRAY, EMPTY_ARRAY, EMPTY_ARRAY, DEFAULT_OTHER)

  /** `v.slice()` with no arguments: arrays and strings are copied, any
      other value has no `slice` method and the call throws. */
  function SliceCopy(v: Json): (r: Option<Json>)
    ensures r.Some? <==> v.JArr? || v.JStr?
    ensures r.Some? ==> r.value == v
  {
    if v.JArr? || v.JStr? then Some(v) else None
  }

  /** `v.length` is truthy. */
  predicate HasLength(v: Json) {
    (v.JArr? && |v.items| > 0) || (v.JStr? && |v.s| > 0)
  }

  /** `extractedSkills.byCategory || {}`. */
  function ByCategory(es: Json): Json {
    Or(Get(es, "byCategory"), EMPTY_OBJECT)
  }

  /** `extractedSkills.isGeneralFresher === true`. */
  predicate FresherFlag(es: Json) {
    Get(es, "isGeneralFresher") == Some(JBool(true))
  }

  /** `byCategory[key] || []`: always truthy. */
  function CategoryList(byCategory: Json, key: string): (r: Json)
    ensures Truthy(Some(r))
  {
    Or(Get(byCategory, key), EMPTY_ARRAY)
  }

  /** Every list of `sk` is truthy, so `sk.k || []` is `sk.k`. */
  predicate AllTruthy(sk: Skills) {
    && Truthy(Some(sk.coreCS)) && Truthy(Some(sk.languages)) && Truthy(Some(sk.web))
    && Truthy(Some(sk.data)) && Truthy(Some(sk.cloud)) && Truthy(Some(sk.testing))
    && Truthy(Some(sk.other))
  }

  /** `normalizeExtractedSkills(extractedSkills)`: the six category lists
      are read from `byCategory` under their display names, and `other` is
      the General list unless the flag is set or that list is empty, in
      which case it is the default list. */
  function NormalizeExtractedSkills(es: Option<Json>): (r: Option<Skills>)
    ensures r.None? <==>
      Truthy(es) && !FresherFlag(es.value) && SliceCopy(CategoryList(ByCategory(es.value), GENERAL)).None?
    ensures r.Some? ==> AllTruthy(r.value) && HasLength(r.value.other)
    ensures r.Some? && (!Truthy(es) || FresherFlag(es.value)) ==> r.value.other == DEFAULT_OTHER
    ensures !Truthy(es) ==> r == Some(DEFAULT_SKILLS)
    ensures Truthy(es) && r.Some? ==>
      forall i :: 0 <= i < 6 ==> r.value.Lists()[i] == CategoryList(ByCategory(es.value), DISPLAY_KEYS[i])
    ensures Truthy(es) && !FresherFlag(es.value) && r.Some? ==>
      var general := CategoryList(ByCategory(es.value), GENERAL);
      r.value.other == (if HasLength(general) then general else DEFAULT_OTHER)
    ensures Truthy(es) && !FresherFlag(es.value) && !Truthy(Get(ByCategory(es.value), GENERAL)) ==>
      r.Some? && r.value.other == DEFAULT_OTHER
  {
    assert HasLength(DEFAULT_OTHER);
    if !Truthy(es) then Some(DEFAULT_SKILLS)
    else
      var byCategory := ByCategory(es.value);
      var other :- if FresherFlag(es.value) then Some(DEFAULT_OTHER)
                   else SliceCopy(CategoryList(byCategory, GENERAL));
      Some(Skills(
        CategoryList(byCategory, CORE_CS), CategoryList(byCategory, LANGUAGES),
        CategoryList(byCategory, WEB), CategoryList(byCategory, DATA),
        CategoryList(byCategory, CLOUD), CategoryList(byCategory, TESTING),
        if HasLength(other) then other else DEFAULT_OTHER))
  }

  /** `'coreCS' in extractedSkills`, for an object-like value. */
  predicate HasCoreKey(es: Json) {
    es.JObj? && "coreCS" in es.fields
  }

  /** `norm[key] || []`. */
  function Field(norm: Json, key: string): Json {
    Or(Get(norm, key), EMPTY_ARRAY)
  }

  /** The lists of a value already in canonical form, each `|| []`. */
  function ReadSkills(norm: Json): (r: Skills)
    ensures AllTruthy(r)
  {
    Skills(Field(norm, "coreCS"), Field(norm, "languages"), Field(norm, "web"), Field(norm, "data"),
           Field(norm, "cloud"), Field(norm, "testing"), Field(norm, "other"))
  }

  /** The display object: the seven lists under their display names. */
  function DisplayOf(sk: Skills): (r: Json)
    ensures r.JObj?
    ensures Get(r, CORE_CS) == Some(sk.coreCS) && Get(r, LANGUAGES) == Some(sk.languages)
    ensures Get(r, WEB) == Some(sk.web) && Get(r, DATA) == Some(sk.data)
    ensures Get(r, CLOUD) == Some(sk.cloud) && Get(r, TESTING) == Some(sk.testing)
    ensures Get(r, GENERAL) == Some(sk.other)
  {
    JObj(map[CORE_CS := sk.coreCS, LANGUAGES := sk.languages, WEB := sk.web, DATA := sk.data,
             CLOUD := sk.cloud, TESTING := sk.testing, GENERAL := sk.other])
  }

  /** `getDisplaySkills(extractedSkills)`: `{}` for anything that is not an
      object; a canonical value is shown as it is, anything else is
      normalized first. */
  function GetDisplaySkills(es: Option<Json>): (r: Option<Json>)
    ensures !IsObjectLike(es) ==> r == Some(EMPTY_OBJECT)
    ensures IsObjectLike(es) && HasCoreKey(es.value) ==> r == Some(DisplayOf(ReadSkills(es.value)))
    ensures IsObjectLike(es) && !HasCoreKey(es.value) ==>
      (r.None? <==> NormalizeExtractedSkills(es).None?)
  {
    if !IsObjectLike(es) then Some(EMPTY_OBJECT)
    else
      var norm :- if HasCoreKey(es.value) then Some(ReadSkills(es.value)) else NormalizeExtractedSkills(es);
      Some(DisplayOf(norm))
  }

  /** Every list is an array and `other` is not empty. */
  predicate IsCanonicalSkills(sk: Skills) {
    ArraySkills(sk) && HasLength(sk.other)
  }

  /** Every list is an array. */
  predicate ArraySkills(sk: Skills) {
    && sk.coreCS.JArr? && sk.languages.JArr? && sk.web.JArr? && sk.data.JArr?
    && sk.cloud.JArr? && sk.testing.JArr? && sk.other.JArr?
  }

  /** Stored array skills pass the skills check of `validateEntry`. */
  lemma SkillsJsonValid(sk: Skills)
    requires ArraySkills(sk)
    ensures SkillsValid(Some(SkillsJson(sk)))
  {
    forall k | k in SKILL_KEYS ensures IsArr(Get(SkillsJson(sk), k)) {
      var i :| 0 <= i < 7 && SKILL_KEYS[i] == k;
    }
  }

  /** Stored canonical skills shown for display and read back as a
      `byCategory` give the same skills again. */
  lemma DisplayRoundTrip(sk: Skills)
    requires IsCanonicalSkills(sk)
    ensures GetDisplaySkills(Some(SkillsJson(sk))).Some?
    ensures NormalizeExtractedSkills(Some(JObj(map["byCategory" := GetDisplaySkills(Some(SkillsJson(sk))).value])))
         == Some(sk)
  {
    ReadStoredSkills(sk);
    var d := DisplayOf(sk);
    assert GetDisplaySkills(Some(SkillsJson(sk))) == Some(d);
    var es := JObj(map["byCategory" := d]);
    assert ByCategory(es) == d;
    assert Get(es, "isGeneralFresher").None?;
  }

  /** `[...v]`: arrays give their elements, strings their characters (as
      one-character strings); any other value is not iterable and throws. */
  function Spread(v: Json): (r: Option<seq<Json>>)
    ensures r.Some? <==> v.JArr? || v.JStr?
    ensures v.JArr? ==> r == Some(v.items)
    ensures v.JStr? ==> r.Some? && |r.value| == |v.s|
  {
    match v
    case JArr(items) => Some(items)
    case JStr(s) => Some(seq(|s|, i requires 0 <= i < |s| => JStr([s[i]])))
    case _ => None
  }

  /** The spreads of `lists`, concatenated in order. */
  function SpreadAll(lists: seq<Json>): (r: Option<seq<Json>>)
    ensures r.Some? <==> forall i :: 0 <= i < |lists| ==> Spread(lists[i]).Some?
  {
    if lists == [] then Some([])
    else
      var first :- Spread(lists[0]);
      var rest :- SpreadAll(lists[1..]);
      Some(first + rest)
  }

  /** `getAllSkillsFromNormalized(extractedSkills)`. The `in` test throws on
      a truthy primitive. */
  function GetAllSkillsFromNormalized(es: Option<Json>): (r: Option<seq<Json>>)
    ensures Truthy(es) && !IsObjectLike(es) ==> r.None?
  {
    var norm :-
      if !Truthy(es) then NormalizeExtractedSkills(es)
      else if !IsObjectLike(es) then None
      else if HasCoreKey(es.value) then Some(ReadSkills(es.value))
      else NormalizeExtractedSkills(es);
    SpreadAll(norm.Lists())
  }

  /** The lists of array skills, flattened in `SKILL_KEYS` order. */
  function Flatten(sk: Skills): seq<Json>
    requires ArraySkills(sk)
  {
    sk.coreCS.items + (sk.languages.items + (sk.web.items + (sk.data.items
      + (sk.cloud.items + (sk.testing.items + sk.other.items)))))
  }

  lemma SpreadSkills(sk: Skills)
    requires ArraySkills(sk)
    ensures SpreadAll(sk.Lists()) == Some(Flatten(sk))
  {
    var l6 := [sk.other];
    var l5 := [sk.testing] + l6;
    var l4 := [sk.cloud] + l5;
    var l3 := [sk.data] + l4;
    var l2 := [sk.web] + l3;
    var l1 := [sk.languages] + l2;
    assert sk.Lists() == [sk.coreCS] + l1;
    assert SpreadAll(l6) == Some(sk.other.items) by {
      assert l6[1..] == [];
      assert sk.other.items + [] == sk.other.items;
    }
    var f5 := sk.testing.items + sk.other.items;
    var f4 := sk.cloud.items + f5;
    var f3 := sk.data.items + f4;
    var f2 := sk.web.items + f3;
    var f1 := sk.languages.items + f2;
    assert SpreadAll(l5) == Some(f5) by { assert l5[1..] == l6; }
    assert SpreadAll(l4) == Some(f4) by { assert l4[1..] == l5; }
    assert SpreadAll(l3) == Some(f3) by { assert l3[1..] == l4; }
    assert SpreadAll(l2) == Some(f2) by { assert l2[1..] == l3; }
    assert SpreadAll(l1) == Some(f1) by { assert l1[1..] == l2; }
    assert ([sk.coreCS] + l1)[1..] == l1;
  }

  /** For stored array skills the flattening is the concatenation of
      coreCS, languages, web, data, cloud, testing and other, in that
      order. */
  lemma AllSkillsOfStored(sk: Skills)
    requires ArraySkills(sk)
    ensures GetAllSkillsFromNormalized(Some(SkillsJson(sk))) == Some(Flatten(sk))
  {
    ReadStoredSkills(sk);
    SpreadSkills(sk);
  }

  /** Without skills the flattening is the default list. */
  lemma AllSkillsOfNothing(es: Option<Json>)
    requires !Truthy(es)
    ensures GetAllSkillsFromNormalized(es) == Some(DEFAULT_OTHER.items)
  {
    assert NormalizeExtractedSkills(es) == Some(DEFAULT_SKILLS);
    SpreadSkills(DEFAULT_SKILLS);
    assert Flatten(DEFAULT_SKILLS) == DEFAULT_OTHER.items;
  }

  /** Reading stored skills whose lists are all truthy gives them back. */
  lemma ReadStoredSkills(sk: Skills)
    requires AllTruthy(sk)
    ensures ReadSkills(SkillsJson(sk)) == sk
  {
    assert sk.Lists()[6] == sk.other;
  }

  // ---------------------------------------------------------------------
  // Round mapping, checklist and plan

  /** One element of `normalizeRoundMapping`; property access on `null`
      throws. */
  function NormalizeRound(r: Json): (o: Option<Json>)
    ensures o.None? <==> r.JNull?
    ensures o.Some? ==> o.value.JObj? && o.value.fields.Keys == {"roundTitle", "focusAreas", "whyItMatters"}
  {
    if r.JNull? then None
    else
      var fallback := JoinedTitle(ToText(Or(Get(r, "round"), JStr(""))), ToText(Or(Get(r, "title"), JStr(""))));
      Some(JObj(map[
        "roundTitle" := Coalesce(Get(r, "roundTitle"), JStr(fallback)),
        "focusAreas" := if IsArr(Get(r, "focusAreas")) then Get(r, "focusAreas").value else EMPTY_ARRAY,
        "whyItMatters" := Coalesce(CoalesceOpt(Get(r, "whyItMatters"), Get(r, "whyMatters")), JStr(""))]))
  }

  /** A round without its own title gets the joined "round: title" text,
      never the literal `Round`. */
  lemma RoundTitleNeverFallback(r: Json)
    requires !r.JNull? && Nullish(Get(r, "roundTitle"))
    ensures NormalizeRound(r).value.fields["roundTitle"] != JStr("Round")
  {
    assert "roundTitle"[0] != "focusAreas"[0];
    assert "roundTitle"[0] != "whyItMatters"[0];
  }

  /** `` `${round}: ${title}`.trim() || 'Round' ``: the joined text is never
      blank, so the `'Round'` fallback is never taken. */
  function JoinedTitle(round: string, title: string): (t: string)
    ensures t != [] && t != "Round"
  {
    var joined := round + ": " + title;
    assert joined[|round|] == ':';
    ColonSurvivesTrim(joined, |round|);
    if Trim(joined) != [] then Trim(joined) else "Round"
  }

  /** The colon of the joined "round: title" survives trimming, so the
      trimmed text is never the literal `Round`. */
  lemma ColonSurvivesTrim(s: string, k: nat)
    requires k < |s| && s[k] == ':'
    ensures Trim(s) != [] && Trim(s) != "Round"
  {
    TrimKeepsNonSpace(s, k);
    TrimKeepsChar(s, k);
    assert "Round" == ['R', 'o', 'u', 'n', 'd'];
  }

  /** `normalizeRoundMapping(roundMapping)`. */
  function NormalizeRoundMapping(rm: Option<Json>): (r: Option<Json>)
    ensures !IsArr(rm) ==> r == Some(EMPTY_ARRAY)
    ensures IsArr(rm) ==>
      (r.Some? <==> forall i :: 0 <= i < |rm.value.items| ==> !rm.value.items[i].JNull?)
    ensures IsArr(rm) && r.Some? ==> r.value.JArr? && |r.value.items| == |rm.value.items|
  {
    if !IsArr(rm) then Some(EMPTY_ARRAY)
    else
      var items :- MapAll(rm.value.items, NormalizeRound);
      Some(JArr(items))
  }

  /** One element of `normalizeChecklist`. */
  function NormalizeChecklistBlock(c: Json): (o: Option<Json>)
    ensures o.None? <==> c.JNull?
    ensures o.Some? ==>
      o.value.JObj? && o.value.fields.Keys == {"roundTitle", "items"} && o.value.fields["items"].JArr?
  {
    if c.JNull? then None
    else
      Some(JObj(map[
        "roundTitle" := Coalesce(CoalesceOpt(Get(c, "roundTitle"), Get(c, "round")), JStr("")),
        "items" := if IsArr(Get(c, "items")) then Get(c, "items").value else EMPTY_ARRAY]))
  }

  /** `normalizeChecklist(checklist)`. */
  function NormalizeChecklist(cl: Option<Json>): (r: Option<Json>)
    ensures !IsArr(cl) ==> r == Some(EMPTY_ARRAY)
    ensures IsArr(cl) ==>
      (r.Some? <==> forall i :: 0 <= i < |cl.value.items| ==> !cl.value.items[i].JNull?)
    ensures IsArr(cl) && r.Some? ==> r.value.JArr? && |r.value.items| == |cl.value.items|
  {
    if !IsArr(cl) then Some(EMPTY_ARRAY)
    else
      var items :- MapAll(cl.value.items, NormalizeChecklistBlock);
      Some(JArr(items))
  }

  /** One element of `normalizePlan7Days`: `focus` falls back to `day`. */
  function NormalizePlanBlock(p: Json): (o: Option<Json>)
    ensures o.None? <==> p.JNull?
    ensures o.Some? ==> o.value.JObj? && o.value.fields.Keys == {"day", "focus", "tasks"}
    ensures o.Some? && Nullish(Get(p, "focus")) ==> o.value.fields["focus"] == o.value.fields["day"]
  {
    if p.JNull? then None
    else
      Some(JObj(map[
        "day" := Coalesce(Get(p, "day"), JStr("")),
        "focus" := Coalesce(CoalesceOpt(Get(p, "focus"), Get(p, "day")), JStr("")),
        "tasks" := if IsArr(Get(p, "tasks")) then Get(p, "tasks").value else EMPTY_ARRAY]))
  }

  /** `normalizePlan7Days(plan)`. */
  function NormalizePlan7Days(plan: Option<Json>): (r: Option<Json>)
    ensures !IsArr(plan) ==> r == Some(EMPTY_ARRAY)
    ensures IsArr(plan) ==>
      (r.Some? <==> forall i :: 0 <= i < |plan.value.items| ==> !plan.value.items[i].JNull?)
    ensures IsArr(plan) && r.Some? ==> r.value.JArr? && |r.value.items| == |plan.value.items|
  {
    if !IsArr(plan) then Some(EMPTY_ARRAY)
    else
      var items :- MapAll(plan.value.items, NormalizePlanBlock);
      Some(JArr(items))
  }

  // ---------------------------------------------------------------------
  // Entries

  /** `baseScore`, else `readinessScore`, else 0, whichever is a number
      first. */
  function BaseScore(src: Json): (r: Json)
    ensures r.JNum?
  {
    if IsNum(Get(src, "baseScore")) then Get(src, "baseScore").value
    else if IsNum(Get(src, "readinessScore")) then Get(src, "readinessScore").value
    else JNum(0)
  }

  /** `typeof v === 'string' ? v : ''`. */
  function StringOr(v: Option<Json>): (r: Json)
    ensures r.JStr?
  {
    if IsStr(v) then v.value else JStr("")
  }

  /** The fields `normalizeAnalysisToEntry` and the rebuild in `migrateEntry`
      share, given the normalized skills and lists: strings default to '',
      the scores to `BaseScore`, the confidence map to `{}` and `updatedAt`
      to `now`; a nullish `companyIntel` is dropped. */
  function Body(src: Json, now: string, extractedSkills: Skills, roundMapping: Json,
                checklist: Json, plan7Days: Json): map<string, Json>
  {
    var baseScore := BaseScore(src);
    var scm := Get(src, "skillConfidenceMap");
    var intel := Get(src, "companyIntel");
    Put(map[
      "company" := StringOr(Get(src, "company")),
      "role" := StringOr(Get(src, "role")),
      "jdText" := StringOr(Get(src, "jdText")),
      "extractedSkills" := SkillsJson(extractedSkills),
      "roundMapping" := roundMapping,
      "checklist" := checklist,
      "plan7Days" := plan7Days,
      "questions" := if IsArr(Get(src, "questions")) then Get(src, "questions").value else EMPTY_ARRAY,
      "baseScore" := baseScore,
      "skillConfidenceMap" := if Truthy(scm) && TypeofObject(scm) then scm.value else EMPTY_OBJECT,
      "finalScore" := if IsNum(Get(src, "finalScore")) then Get(src, "finalScore").value else baseScore,
      "updatedAt" := Coalesce(Get(src, "updatedAt"), JStr(now))],
      "companyIntel", if Nullish(intel) then None else intel)
  }

  /** The body of `src`, or `None` when normalizing one of its parts
      throws (the flattened skills are computed, and may throw, too). */
  function EntryBody(src: Json, now: string): (r: Option<map<string, Json>>)
    ensures r.Some? ==> "id" !in r.value && "createdAt" !in r.value
  {
    var extractedSkills :- NormalizeExtractedSkills(Get(src, "extractedSkills"));
    var allSkills :- GetAllSkillsFromNormalized(Some(SkillsJson(extractedSkills)));
    var roundMapping :- NormalizeRoundMapping(Get(src, "roundMapping"));
    var checklist :- NormalizeChecklist(Get(src, "checklist"));
    var plan7Days :- NormalizePlan7Days(CoalesceOpt(Get(src, "plan7Days"), Get(src, "plan")));
    BodyHasNoIdentity(src, now, extractedSkills, roundMapping, checklist, plan7Days);
    Some(Body(src, now, extractedSkills, roundMapping, checklist, plan7Days))
  }

  /** A body has no `id` and no `createdAt`: they come from the caller. */
  lemma BodyHasNoIdentity(src: Json, now: string, extractedSkills: Skills, roundMapping: Json,
                          checklist: Json, plan7Days: Json)
    ensures var b := Body(src, now, extractedSkills, roundMapping, checklist, plan7Days);
      "id" !in b && "createdAt" !in b
  {
  }

  /** The strings of a body are those of `src`, or ''. */
  lemma BodyTexts(src: Json, now: string, extractedSkills: Skills, roundMapping: Json,
                  checklist: Json, plan7Days: Json)
    ensures var b := JObj(Body(src, now, extractedSkills, roundMapping, checklist, plan7Days));
      && Get(b, "company") == Some(StringOr(Get(src, "company")))
      && Get(b, "role") == Some(StringOr(Get(src, "role")))
  {
  }

  /** The description of a body is that of `src`, or ''. */
  lemma BodyDescription(src: Json, now: string, extractedSkills: Skills, roundMapping: Json,
                        checklist: Json, plan7Days: Json)
    ensures var b := JObj(Body(src, now, extractedSkills, roundMapping, checklist, plan7Days));
      Get(b, "jdText") == Some(StringOr(Get(src, "jdText")))
  {
  }

  /** A body holds the normalized skills, and `updatedAt` defaults to
      `now`. */
  lemma BodySkills(src: Json, now: string, extractedSkills: Skills, roundMapping: Json,
                   checklist: Json, plan7Days: Json)
    ensures var b := JObj(Body(src, now, extractedSkills, roundMapping, checklist, plan7Days));
      && Get(b, "extractedSkills") == Some(SkillsJson(extractedSkills))
      && Get(b, "updatedAt") == Some(Coalesce(Get(src, "updatedAt"), JStr(now)))
  {
  }

  /** A body holds the normalized round mapping and checklist. */
  lemma BodyLists(src: Json, now: string, extractedSkills: Skills, roundMapping: Json,
                  checklist: Json, plan7Days: Json)
    ensures var b := JObj(Body(src, now, extractedSkills, roundMapping, checklist, plan7Days));
      && Get(b, "roundMapping") == Some(roundMapping)
      && Get(b, "checklist") == Some(checklist)
  {
  }

  /** A body holds the normalized plan, and its questions are an array. */
  lemma BodyPlan(src: Json, now: string, extractedSkills: Skills, roundMapping: Json,
                 checklist: Json, plan7Days: Json)
    ensures var b := JObj(Body(src, now, extractedSkills, roundMapping, checklist, plan7Days));
      && Get(b, "plan7Days") == Some(plan7Days)
      && IsArr(Get(b, "questions"))
  {
  }

  /** The scores of a body are numbers: `baseScore` is the first number of
      `baseScore`, `readinessScore` and 0, and `finalScore` falls back to
      it; the confidence map is an object. */
  lemma BodyScores(src: Json, now: string, extractedSkills: Skills, roundMapping: Json,
                   checklist: Json, plan7Days: Json)
    ensures var b := JObj(Body(src, now, extractedSkills, roundMapping, checklist, plan7Days));
      && Get(b, "baseScore") == Some(BaseScore(src))
      && Get(b, "finalScore") == Some(if IsNum(Get(src, "finalScore")) then Get(src, "finalScore").value
                                     else BaseScore(src))
      && TypeofObject(Get(b, "skillConfidenceMap")) && Get(b, "skillConfidenceMap") != Some(JNull)
  {
  }

  /** The fields of a body are valid once the skill lists are arrays and
      `updatedAt` is a string or missing. */
  lemma BodyFieldsValid(src: Json, now: string, extractedSkills: Skills, roundMapping: Json,
                        checklist: Json, plan7Days: Json)
    requires ArraySkills(extractedSkills)
    requires roundMapping.JArr? && checklist.JArr? && plan7Days.JArr?
    requires Nullish(Get(src, "updatedAt")) || IsStr(Get(src, "updatedAt"))
    ensures FieldsValid(JObj(Body(src, now, extractedSkills, roundMapping, checklist, plan7Days)))
  {
    BodyTexts(src, now, extractedSkills, roundMapping, checklist, plan7Days);
    BodyDescription(src, now, extractedSkills, roundMapping, checklist, plan7Days);
    BodySkills(src, now, extractedSkills, roundMapping, checklist, plan7Days);
    BodyLists(src, now, extractedSkills, roundMapping, checklist, plan7Days);
    BodyPlan(src, now, extractedSkills, roundMapping, checklist, plan7Days);
    BodyScores(src, now, extractedSkills, roundMapping, checklist, plan7Days);
    SkillsJsonValid(extractedSkills);
  }

  /** `normalizeAnalysisToEntry(result)`: `null` for a value that is not an
      object (`Some(JNull)`), an exception as `None`. */
  function NormalizeAnalysisToEntry(result: Option<Json>, now: string): (r: Option<Json>)
    ensures !IsObjectLike(result) ==> r == Some(JNull)
    ensures IsObjectLike(result) ==> (r.Some? <==> EntryBody(result.value, now).Some?)
    ensures r.Some? && r.value != JNull ==>
      r.value.JObj? && "id" !in r.value.fields && "createdAt" !in r.value.fields
  {
    if !IsObjectLike(result) then Some(JNull)
    else
      var body :- EntryBody(result.value, now);
      Some(JObj(body))
  }

  /** `extractedSkills` is an object whose seven skill keys hold arrays. */
  predicate SkillsValid(es: Option<Json>) {
    Truthy(es) && TypeofObject(es) && forall k :: k in SKILL_KEYS ==> IsArr(Get(es.value, k))
  }

  /** Every check of `validateEntry` except those on `id` and `createdAt`. */
  predicate FieldsValid(entry: Json) {
    && IsStr(Get(entry, "company")) && IsStr(Get(entry, "role")) && IsStr(Get(entry, "jdText"))
    && SkillsValid(Get(entry, "extractedSkills"))
    && IsArr(Get(entry, "roundMapping")) && IsArr(Get(entry, "checklist"))
    && IsArr(Get(entry, "plan7Days")) && IsArr(Get(entry, "questions"))
    && IsNum(Get(entry, "baseScore"))
    && TypeofObject(Get(entry, "skillConfidenceMap")) && Get(entry, "skillConfidenceMap") != Some(JNull)
    && IsNum(Get(entry, "finalScore"))
    && IsStr(Get(entry, "updatedAt"))
  }

  /** `validateEntry(entry)`. */
  predicate ValidateEntry(entry: Json): (r: bool)
    ensures r ==> entry.JObj? && "id" in entry.fields && "createdAt" in entry.fields
    ensures r ==> FieldsValid(entry)
  {
    && IsObjectLike(Some(entry))
    && IsStr(Get(entry, "id")) && Get(entry, "id").value.s != ""
    && IsStr(Get(entry, "createdAt"))
    && FieldsValid(entry)
  }

  /** `id` and `createdAt` are not among the fields `FieldsValid` reads. */
  lemma FieldsIgnoreIdentity(m: map<string, Json>, id: Option<Json>, createdAt: Option<Json>)
    requires FieldsValid(JObj(m))
    ensures FieldsValid(JObj(Put(Put(m, "id", id), "createdAt", createdAt)))
  {
  }

  /** The rebuilt entry: the shared fields plus the old `id` and `createdAt`,
      whatever they were. */
  function Rebuild(entry: Json, body: map<string, Json>): (r: Json)
    requires "id" !in body && "createdAt" !in body
    ensures r.JObj? && Get(r, "id") == Get(entry, "id") && Get(r, "createdAt") == Get(entry, "createdAt")
  {
    JObj(Put(Put(body, "id", Get(entry, "id")), "createdAt", Get(entry, "createdAt")))
  }

  /** `migrateEntry(entry)`: `null` for a non-object, the entry itself when
      it validates, otherwise the rebuilt entry, or `null` when rebuilding
      throws. */
  function MigrateEntry(entry: Json, now: string): (r: Json)
    ensures !IsObjectLike(Some(entry)) ==> r == JNull
    ensures ValidateEntry(entry) ==> r == entry
    ensures IsObjectLike(Some(entry)) && !ValidateEntry(entry) ==>
      (r == JNull <==> EntryBody(entry, now).None?)
    ensures r != JNull && !ValidateEntry(entry) ==>
      r.JObj? && Get(r, "id") == Get(entry, "id") && Get(r, "createdAt") == Get(entry, "createdAt")
  {
    if !IsObjectLike(Some(entry)) then JNull
    else if ValidateEntry(entry) then entry
    else
      match EntryBody(entry, now)
      case None => JNull
      case Some(body) => Rebuild(entry, body)
  }

  /** A `null` element in `roundMapping` makes the rebuild throw, and the
      entry is reported as `null` instead. */
  lemma NullRoundMakesMigrateNull(entry: Json, now: string, i: nat)
    requires IsObjectLike(Some(entry)) && !ValidateEntry(entry)
    requires IsArr(Get(entry, "roundMapping"))
    requires i < |Get(entry, "roundMapping").value.items|
    requires Get(entry, "roundMapping").value.items[i] == JNull
    ensures MigrateEntry(entry, now) == JNull
  {
    assert NormalizeRoundMapping(Get(entry, "roundMapping")).None?;
    assert EntryBody(entry, now).None?;
  }

  /** The `byCategory` lists a normalization copies are arrays (or falsy). */
  predicate SkillListsAreArrays(es: Option<Json>) {
    Truthy(es) ==>
      forall k :: k in DISPLAY_KEYS ==>
        Truthy(Get(ByCategory(es.value), k)) ==> IsArr(Get(ByCategory(es.value), k))
  }

  /** Normalizing skills whose lists are arrays gives seven arrays. */
  lemma NormalizedListsAreArrays(es: Option<Json>)
    requires NormalizeExtractedSkills(es).Some?
    requires SkillListsAreArrays(es)
    ensures ArraySkills(NormalizeExtractedSkills(es).value)
  {
    var sk := NormalizeExtractedSkills(es).value;
    if Truthy(es) {
      var bc := ByCategory(es.value);
      forall i | 0 <= i < 7 ensures sk.Lists()[i].JArr? {
        assert DISPLAY_KEYS[i] in DISPLAY_KEYS;
        if i == 6 && !FresherFlag(es.value) {
          assert DISPLAY_KEYS[6] == GENERAL;
        }
      }
      assert sk.Lists()[6] == sk.other;
    }
  }

  /** A rebuilt entry with a usable `id`, `createdAt` and `updatedAt` and
      array skill lists validates. */
  lemma RebuiltValidates(entry: Json, now: string)
    requires IsObjectLike(Some(entry)) && !ValidateEntry(entry)
    requires EntryBody(entry, now).Some?
    requires IsStr(Get(entry, "id")) && Get(entry, "id").value.s != ""
    requires IsStr(Get(entry, "createdAt"))
    requires Nullish(Get(entry, "updatedAt")) || IsStr(Get(entry, "updatedAt"))
    requires SkillListsAreArrays(Get(entry, "extractedSkills"))
    ensures ValidateEntry(MigrateEntry(entry, now))
  {
    var es := NormalizeExtractedSkills(Get(entry, "extractedSkills")).value;
    NormalizedListsAreArrays(Get(entry, "extractedSkills"));
    var rm := NormalizeRoundMapping(Get(entry, "roundMapping")).value;
    var cl := NormalizeChecklist(Get(entry, "checklist")).value;
    var plan := NormalizePlan7Days(CoalesceOpt(Get(entry, "plan7Days"), Get(entry, "plan"))).value;
    var body := Body(entry, now, es, rm, cl, plan);
    assert EntryBody(entry, now) == Some(body);
    BodyFieldsValid(entry, now, es, rm, cl, plan);
    FieldsIgnoreIdentity(body, Get(entry, "id"), Get(entry, "createdAt"));
    assert MigrateEntry(entry, now) == Rebuild(entry, body);
  }

  /** Migration is idempotent whenever its result validates (or is `null`),
      even when the second pass runs at a different time. */
  lemma MigrateIdempotent(entry: Json, now: string, later: string)
    requires ValidateEntry(MigrateEntry(entry, now)) || MigrateEntry(entry, now) == JNull
    ensures MigrateEntry(MigrateEntry(entry, now), later) == MigrateEntry(entry, now)
  {
  }

  /** An entry with a non-empty string id, a string `createdAt` and
      normalizable parts migrates once and for all: migrating the result
      again changes nothing. */
  lemma MigrateIdempotentWithId(entry: Json, now: string, later: string)
    requires IsObjectLike(Some(entry))
    requires EntryBody(entry, now).Some?
    requires IsStr(Get(entry, "id")) && Get(entry, "id").value.s != ""
    requires IsStr(Get(entry, "createdAt"))
    requires Nullish(Get(entry, "updatedAt")) || IsStr(Get(entry, "updatedAt"))
    requires SkillListsAreArrays(Get(entry, "extractedSkills"))
    ensures MigrateEntry(MigrateEntry(entry, now), later) == MigrateEntry(entry, now)
  {
    if !ValidateEntry(entry) {
      RebuiltValidates(entry, now);
    }
    MigrateIdempotent(entry, now, later);
  }

  /** The skills of a rebuilt entry are the normalization of its old
      skills. */
  lemma RebuiltSkills(entry: Json, now: string)
    requires IsObjectLike(Some(entry)) && !ValidateEntry(entry)
    requires EntryBody(entry, now).Some?
    ensures Get(MigrateEntry(entry, now), "extractedSkills")
         == Some(SkillsJson(NormalizeExtractedSkills(Get(entry, "extractedSkills")).value))
  {
    var es := NormalizeExtractedSkills(Get(entry, "extractedSkills")).value;
    var rm := NormalizeRoundMapping(Get(entry, "roundMapping")).value;
    var cl := NormalizeChecklist(Get(entry, "checklist")).value;
    var plan := NormalizePlan7Days(CoalesceOpt(Get(entry, "plan7Days"), Get(entry, "plan"))).value;
    var body := Body(entry, now, es, rm, cl, plan);
    assert EntryBody(entry, now) == Some(body);
    BodySkills(entry, now, es, rm, cl, plan);
    assert MigrateEntry(entry, now) == Rebuild(entry, body);
  }

  /** The entry without an `id` used below, and its normalized skills. */
  const NO_ID_ENTRY: Json :=
    JObj(map["extractedSkills" := JObj(map["byCategory" := JObj(map[WEB := Strings(["React"])])])])

  /** The first migration of `NO_ID_ENTRY` keeps its Web skills. */
  lemma FirstMigrationKeepsSkills(now: string)
    ensures NormalizeExtractedSkills(Get(NO_ID_ENTRY, "extractedSkills")).Some?
    ensures var sk := NormalizeExtractedSkills(Get(NO_ID_ENTRY, "extractedSkills")).value;
      && sk.web == Strings(["React"]) && AllTruthy(sk)
      && Get(MigrateEntry(NO_ID_ENTRY, now), "extractedSkills") == Some(SkillsJson(sk))
  {
    var raw := Get(NO_ID_ENTRY, "extractedSkills");
    NoIdSkills();
    var sk := NormalizeExtractedSkills(raw).value;
    AllSkillsOfStored(sk);
    assert Get(NO_ID_ENTRY, "roundMapping").None? && Get(NO_ID_ENTRY, "checklist").None?;
    assert Get(NO_ID_ENTRY, "plan7Days").None? && Get(NO_ID_ENTRY, "plan").None?;
    assert EntryBody(NO_ID_ENTRY, now).Some?;
    assert !ValidateEntry(NO_ID_ENTRY);
    RebuiltSkills(NO_ID_ENTRY, now);
  }

  /** The skills of `NO_ID_ENTRY` normalize to array lists with its Web
      skills. */
  lemma NoIdSkills()
    ensures NormalizeExtractedSkills(Get(NO_ID_ENTRY, "extractedSkills")).Some?
    ensures var sk := NormalizeExtractedSkills(Get(NO_ID_ENTRY, "extractedSkills")).value;
      sk.web == Strings(["React"]) && AllTruthy(sk) && ArraySkills(sk)
  {
    var raw := Get(NO_ID_ENTRY, "extractedSkills");
    var bc := ByCategory(raw.value);
    assert Get(bc, GENERAL).None?;
    var sk := NormalizeExtractedSkills(raw).value;
    assert sk.web == Strings(["React"]) by {
      assert sk.Lists()[2] == CategoryList(bc, DISPLAY_KEYS[2]);
    }
    NormalizedListsAreArrays(raw);
  }

  /** Without an `id` the rebuilt entry does not validate, and a second
      migration loses the skills: the rebuild reads only `byCategory`, which
      the canonical form no longer has. */
  lemma MigrateNotIdempotentWithoutId(now: string)
    ensures MigrateEntry(MigrateEntry(NO_ID_ENTRY, now), now) != MigrateEntry(NO_ID_ENTRY, now)
  {
    FirstMigrationKeepsSkills(now);
    var skills1 := NormalizeExtractedSkills(Get(NO_ID_ENTRY, "extractedSkills")).value;
    var once := MigrateEntry(NO_ID_ENTRY, now);
    var skills2 := NormalizeExtractedSkills(Some(SkillsJson(skills1))).value;
    assert ByCategory(SkillsJson(skills1)) == EMPTY_OBJECT;
    assert skills2.web == EMPTY_ARRAY by {
      assert skills2.Lists()[2] == CategoryList(EMPTY_OBJECT, DISPLAY_KEYS[2]);
    }
    var twice := MigrateEntry(once, now);
    if twice != JNull {
      RebuiltSkills(once, now);
      assert Get(SkillsJson(skills2), "web") != Get(SkillsJson(skills1), "web");
    }
  }
}
