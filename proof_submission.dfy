/** Proof of work and the final submission (`proofSubmission.js`): eight
    build steps marked complete or not, three artifact links, and the gate
    that declares the project shipped only when every step is complete, the
    test checklist is complete and all three links are http(s) URLs. */
module ProofSubmission {
  import opened Wrappers
  import opened Text
  import opened Json
  import opened TestChecklist

  const STEP_IDS: seq<string> := ["1", "2", "3", "4", "5", "6", "7", "8"]

  /** The three artifact links. */
  datatype Submission = Submission(lovableUrl: string, githubUrl: string, deployedUrl: string)

  const NO_SUBMISSION: Submission := Submission("", "", "")

  /** `typeof parsed[key] === 'string' ? parsed[key] : ''`. */
  function StoredText(parsed: Json, key: string): string {
    if IsStr(Get(parsed, key)) then Get(parsed, key).value.s else ""
  }

  /** `getStoredSubmission()`: the three stored strings, '' for a missing or
      non-string field, all '' when the stored value is not an object. */
  function StoredSubmission(submission: Json): (r: Submission)
    ensures !IsObjectLike(Some(submission)) ==> r == NO_SUBMISSION
    ensures IsStr(Get(submission, "lovableUrl")) ==> r.lovableUrl == Get(submission, "lovableUrl").value.s
    ensures !IsStr(Get(submission, "lovableUrl")) ==> r.lovableUrl == ""
    ensures IsStr(Get(submission, "githubUrl")) ==> r.githubUrl == Get(submission, "githubUrl").value.s
    ensures !IsStr(Get(submission, "githubUrl")) ==> r.githubUrl == ""
    ensures IsStr(Get(submission, "deployedUrl")) ==> r.deployedUrl == Get(submission, "deployedUrl").value.s
    ensures !IsStr(Get(submission, "deployedUrl")) ==> r.deployedUrl == ""
  {
    if IsObjectLike(Some(submission)) then
      Submission(StoredText(submission, "lovableUrl"), StoredText(submission, "githubUrl"),
                 StoredText(submission, "deployedUrl"))
    else NO_SUBMISSION
  }

  /** The object `setSubmission` stores. */
  function SubmissionJson(s: Submission): Json {
    JObj(map["lovableUrl" := JStr(s.lovableUrl), "githubUrl" := JStr(s.githubUrl),
             "deployedUrl" := JStr(s.deployedUrl)])
  }

  /** Reading back what was stored gives the same three links. */
  lemma SubmissionRoundTrip(s: Submission)
    ensures StoredSubmission(SubmissionJson(s)) == s
  {
    var j := SubmissionJson(s);
    assert Get(j, "lovableUrl") == Some(JStr(s.lovableUrl));
    assert Get(j, "githubUrl") == Some(JStr(s.githubUrl));
    assert Get(j, "deployedUrl") == Some(JStr(s.deployedUrl));
  }

  /** A field of `setSubmission`'s argument: `undefined` defaults to '',
      `null` becomes '' through `??`, anything else its string form,
      trimmed. */
  function InputText(o: Option<Json>): (r: string)
    ensures Nullish(o) ==> r == ""
  {
    Trim(ToText(Coalesce(o, JStr(""))))
  }

  /** The three links `setSubmission` stores for its argument's fields. */
  function Entered(lovableUrl: Option<Json>, githubUrl: Option<Json>, deployedUrl: Option<Json>): Submission {
    Submission(InputText(lovableUrl), InputText(githubUrl), InputText(deployedUrl))
  }

  /** A stored link has no surrounding white space. */
  lemma InputTextTrimmed(o: Option<Json>)
    ensures Trim(InputText(o)) == InputText(o)
  {
    TrimIdempotent(ToText(Coalesce(o, JStr(""))));
  }

  /** The value of a string of decimal digits; `None` for the empty string
      or one with another character. */
  function DigitsValue(s: string): (r: Option<nat>)
    ensures r.Some? ==> s != [] && forall i :: 0 <= i < |s| ==> '0' <= s[i] <= '9'
  {
    if s == [] || !('0' <= s[|s| - 1] <= '9') then None
    else
      var last := s[|s| - 1] as int - '0' as int;
      if |s| == 1 then Some(last)
      else
        match DigitsValue(s[..|s| - 1])
        case None => None
        case Some(v) => Some(10 * v + last)
  }

  /** The array index a property key names: the keys that are the decimal
      form of a number, without leading zeros. */
  function ArrayIndex(key: string): Option<nat> {
    if key == [] || (key[0] == '0' && |key| > 1) then None else DigitsValue(key)
  }

  lemma {:induction false} DigitsOfDecimal(n: nat)
    ensures DigitsValue(NatToText(n)) == Some(n)
    ensures n >= 1 ==> NatToText(n)[0] != '0'
  {
    if n >= 10 {
      DigitsOfDecimal(n / 10);
      var t := NatToText(n);
      assert t[..|t| - 1] == NatToText(n / 10);
    }
  }

  /** The decimal form of a number names that index, and only it. */
  lemma {:induction false} ArrayIndexOfDecimal(n: nat)
    ensures ArrayIndex(NatToText(n)) == Some(n)
  {
    DigitsOfDecimal(n);
  }

  /** `parsed[key]` for a parsed JSON value: an object's property, an
      array's element at the index the key names, and nothing for a string,
      number, boolean or `null` (none of whose properties is `true`). An
      array's `length` is a number and is left out. */
  function Property(v: Json, key: string): (r: Option<Json>)
    ensures v.JObj? ==> r == Get(v, key)
    ensures v.JArr? ==> (r.Some? <==> ArrayIndex(key).Some? && ArrayIndex(key).value < |v.items|)
    ensures v.JArr? && r.Some? ==> r.value == v.items[ArrayIndex(key).value]
    ensures !v.JObj? && !v.JArr? ==> r.None?
  {
    match v
    case JObj(_) => Get(v, key)
    case JArr(items) =>
      (match ArrayIndex(key)
       case Some(k) => if k < |items| then Some(items[k]) else None
       case None => None)
    case _ => None
  }

  /** `parsed[id] === true`. */
  predicate StepDone(steps: Json, id: string) {
    Property(steps, id) == Some(JBool(true))
  }

  /** A stored array marks step `i + 1` complete by a `true` at index
      `i + 1` (index 0 names no step). */
  lemma StepDoneInArray(items: seq<Json>, i: nat)
    requires i < |STEP_IDS|
    ensures StepDone(JArr(items), STEP_IDS[i]) <==> i + 1 < |items| && items[i + 1] == JBool(true)
  {
    assert STEP_IDS[i] == NatToText(i + 1);
    ArrayIndexOfDecimal(i + 1);
  }

  /** All eight steps are complete. */
  predicate AllSteps(steps: Json) {
    forall i :: 0 <= i < |STEP_IDS| ==> StepDone(steps, STEP_IDS[i])
  }

  /** `validateUrl(url)`: a string whose trimmed form is not empty, parses
      as a URL and has protocol `http:` or `https:`. `protocolOf` stands for
      `new URL(...)`: the protocol of a URL that parses, `None` when the
      constructor throws. */
  function ValidateUrl(url: Option<Json>, protocolOf: string -> Option<string>): (r: bool)
    ensures r ==> IsStr(url) && Trim(url.value.s) != []
    ensures r <==> IsStr(url) && Trim(url.value.s) != []
                   && protocolOf(Trim(url.value.s)) in {Some("http:"), Some("https:")}
  {
    if !IsStr(url) then false
    else
      var trimmed := Trim(url.value.s);
      if trimmed == [] then false
      else
        match protocolOf(trimmed)
        case None => false
        case Some(p) => p == "http:" || p == "https:"
  }

  /** A white-space-only link never validates, whatever the parser says. */
  lemma BlankUrlInvalid(s: string, protocolOf: string -> Option<string>)
    requires forall i :: 0 <= i < |s| ==> IsSpace(s[i])
    ensures !ValidateUrl(Some(JStr(s)), protocolOf)
  {
  }

  /** All three stored links validate. */
  predicate LinksValid(s: Submission, protocolOf: string -> Option<string>) {
    && ValidateUrl(Some(JStr(s.lovableUrl)), protocolOf)
    && ValidateUrl(Some(JStr(s.githubUrl)), protocolOf)
    && ValidateUrl(Some(JStr(s.deployedUrl)), protocolOf)
  }

  /** `link || '(not set)'`. */
  function Shown(link: string): (r: string)
    ensures link == "" ==> r == "(not set)"
    ensures link != "" ==> r == link
  {
    if link == "" then "(not set)" else link
  }

  const RULE: string := "------------------------------------------"

  /** The lines of the final submission text. */
  function FinalLines(s: Submission): (r: seq<string>)
    ensures |r| == 14
    ensures r[3] == "Lovable Project: " + Shown(s.lovableUrl)
    ensures r[4] == "GitHub Repository: " + Shown(s.githubUrl)
    ensures r[5] == "Live Deployment: " + Shown(s.deployedUrl)
  {
    [RULE,
     "Placement Readiness Platform \U{E2}\U{20AC}\U{201D} Final Submission",
     "",
     "Lovable Project: " + Shown(s.lovableUrl),
     "GitHub Repository: " + Shown(s.githubUrl),
     "Live Deployment: " + Shown(s.deployedUrl),
     "",
     "Core Capabilities:",
     "- JD skill extraction (deterministic)",
     "- Round mapping engine",
     "- 7-day prep plan",
     "- Interactive readiness scoring",
     "- History persistence",
     RULE]
  }

  /** `buildFinalSubmissionText()` for the stored links. */
  function FinalText(s: Submission): string {
    Join(FinalLines(s), "\n")
  }

  /** The text shows each link, or '(not set)' for one that is empty. */
  lemma FinalTextShowsLinks(s: Submission)
    ensures Contains(FinalText(s), "Lovable Project: " + Shown(s.lovableUrl))
    ensures Contains(FinalText(s), "GitHub Repository: " + Shown(s.githubUrl))
    ensures Contains(FinalText(s), "Live Deployment: " + Shown(s.deployedUrl))
  {
    JoinContainsPart(FinalLines(s), "\n", 3);
    JoinContainsPart(FinalLines(s), "\n", 4);
    JoinContainsPart(FinalLines(s), "\n", 5);
  }

  /** `String(stepId)` names a step exactly for the strings "1".."8" and
      the numbers 1..8. */
  lemma NumericStepIds(n: int)
    ensures ToText(JNum(n)) in STEP_IDS <==> 1 <= n <= 8
  {
    if 0 <= n < 10 {
      assert ToText(JNum(n)) == [DigitChar(n)];
      assert STEP_IDS[0] == ['1'] && STEP_IDS[1] == ['2'] && STEP_IDS[2] == ['3'] && STEP_IDS[3] == ['4'];
      assert STEP_IDS[4] == ['5'] && STEP_IDS[5] == ['6'] && STEP_IDS[6] == ['7'] && STEP_IDS[7] == ['8'];
    } else {
      LongText(n);
    }
  }

  /** Every step id is one character long, and no number outside 0..9 is
      written with one character. */
  lemma LongText(n: int)
    requires n < 0 || n >= 10
    ensures |ToText(JNum(n))| >= 2
    ensures ToText(JNum(n)) !in STEP_IDS
  {
    if n >= 10 {
      assert |NatToText(n / 10)| >= 1;
    }
  }

  class ProofStore {
    /** The parsed submission object (any value). */
    var submission: Json
    /** The parsed step object (any value). */
    var steps: Json

    constructor (submission: Json, steps: Json)
      ensures this.submission == submission && this.steps == steps
    {
      this.submission := submission;
      this.steps := steps;
    }

    /** `getSubmission()`. */
    function GetSubmission(): (r: Submission)
      reads this
      ensures !IsObjectLike(Some(submission)) ==> r == NO_SUBMISSION
      ensures IsStr(Get(submission, "lovableUrl")) ==> r.lovableUrl == Get(submission, "lovableUrl").value.s
      ensures !IsStr(Get(submission, "lovableUrl")) ==> r.lovableUrl == ""
      ensures IsStr(Get(submission, "githubUrl")) ==> r.githubUrl == Get(submission, "githubUrl").value.s
      ensures !IsStr(Get(submission, "githubUrl")) ==> r.githubUrl == ""
      ensures IsStr(Get(submission, "deployedUrl")) ==> r.deployedUrl == Get(submission, "deployedUrl").value.s
      ensures !IsStr(Get(submission, "deployedUrl")) ==> r.deployedUrl == ""
    {
      StoredSubmission(submission)
    }

    /** `setSubmission({ lovableUrl, githubUrl, deployedUrl })`: the three
        trimmed strings; reading them back gives them again. */
    method SetSubmission(lovableUrl: Option<Json>, githubUrl: Option<Json>, deployedUrl: Option<Json>)
      modifies this`submission
      ensures submission == SubmissionJson(Entered(lovableUrl, githubUrl, deployedUrl))
      ensures GetSubmission() == Entered(lovableUrl, githubUrl, deployedUrl)
    {
      var s := Entered(lovableUrl, githubUrl, deployedUrl);
      submission := SubmissionJson(s);
      assert GetSubmission() == s by {
        SubmissionRoundTrip(s);
      }
    }

    /** `getStoredSteps()`: `{}` for a value that is not an object,
        otherwise the eight step ids, each `true` iff stored as exactly
        `true`. */
    method StoredSteps() returns (out: map<string, Json>)
      ensures !IsObjectLike(Some(steps)) ==> out == map[]
      ensures IsObjectLike(Some(steps)) ==> out.Keys == set i | 0 <= i < |STEP_IDS| :: STEP_IDS[i]
      ensures forall id :: id in out ==> out[id] == JBool(StepDone(steps, id))
    {
      out := map[];
      if !IsObjectLike(Some(steps)) {
        return;
      }
      var i := 0;
      while i < |STEP_IDS|
        invariant 0 <= i <= |STEP_IDS|
        invariant out.Keys == set j | 0 <= j < i :: STEP_IDS[j]
        invariant forall id :: id in out ==> out[id] == JBool(StepDone(steps, id))
      {
        out := out[STEP_IDS[i] := JBool(Property(steps, STEP_IDS[i]) == Some(JBool(true)))];
        i := i + 1;
      }
    }

    /** `getStepCompletion()`: exactly the eight step ids, each true iff
        that step is stored as complete. */
    method GetStepCompletion() returns (out: map<string, bool>)
      ensures out.Keys == set i | 0 <= i < |STEP_IDS| :: STEP_IDS[i]
      ensures forall i :: 0 <= i < |STEP_IDS| ==> out[STEP_IDS[i]] == StepDone(steps, STEP_IDS[i])
    {
      var stored := StoredSteps();
      var parsed := JObj(stored);
      out := map[];
      var i := 0;
      while i < |STEP_IDS|
        invariant 0 <= i <= |STEP_IDS|
        invariant out.Keys == set j | 0 <= j < i :: STEP_IDS[j]
        invariant forall j :: 0 <= j < i ==> out[STEP_IDS[j]] == StepDone(steps, STEP_IDS[j])
      {
        out := out[STEP_IDS[i] := StepDone(parsed, STEP_IDS[i])];
        i := i + 1;
      }
    }

    /** `setStepCompletion(stepId, completed)`: an id that is not one of
        the eight, after `String`, writes nothing; otherwise that step is set
        to `completed === true` and the others keep their state. */
    method SetStepCompletion(stepId: Json, completed: Json)
      modifies this
      ensures ToText(stepId) !in STEP_IDS ==> steps == old(steps)
      ensures ToText(stepId) in STEP_IDS ==>
        && steps.JObj?
        && (StepDone(steps, ToText(stepId)) <==> completed == JBool(true))
        && forall i :: 0 <= i < |STEP_IDS| && STEP_IDS[i] != ToText(stepId) ==>
             (StepDone(steps, STEP_IDS[i]) <==> StepDone(old(steps), STEP_IDS[i]))
      ensures submission == old(submission)
    {
      var key := ToText(stepId);
      if key !in STEP_IDS {
        return;
      }
      var stored := StoredSteps();
      stored := stored[key := JBool(completed == JBool(true))];
      steps := JObj(stored);
    }

    /** `hasValidProofLinks()`. */
    predicate HasValidProofLinks(protocolOf: string -> Option<string>): (r: bool)
      reads this
      ensures r <==> && ValidateUrl(Some(JStr(GetSubmission().lovableUrl)), protocolOf)
                     && ValidateUrl(Some(JStr(GetSubmission().githubUrl)), protocolOf)
                     && ValidateUrl(Some(JStr(GetSubmission().deployedUrl)), protocolOf)
      ensures r ==> IsStr(Get(submission, "lovableUrl")) && IsStr(Get(submission, "githubUrl"))
                    && IsStr(Get(submission, "deployedUrl"))
    {
      LinksValid(GetSubmission(), protocolOf)
    }

    /** `isShipped()`: every step complete, the test checklist complete and
        the three links valid. */
    method IsShipped(checklist: TestChecklistStore, protocolOf: string -> Option<string>) returns (r: bool)
      ensures r <==> AllSteps(steps) && AllChecked(checklist.stored) && LinksValid(GetSubmission(), protocolOf)
      ensures r ==> checklist.IsChecklistComplete()
    {
      var completion := GetStepCompletion();
      var allStepsComplete := forall i :: 0 <= i < |STEP_IDS| ==> completion[STEP_IDS[i]];
      var checklistComplete := checklist.IsChecklistComplete();
      var linksValid := HasValidProofLinks(protocolOf);
      r := allStepsComplete && checklistComplete && linksValid;
    }

    /** `buildFinalSubmissionText()`. */
    function BuildFinalSubmissionText(): (r: string)
      reads this
      ensures Contains(r, "Lovable Project: " + Shown(GetSubmission().lovableUrl))
      ensures Contains(r, "GitHub Repository: " + Shown(GetSubmission().githubUrl))
      ensures Contains(r, "Live Deployment: " + Shown(GetSubmission().deployedUrl))
    {
      FinalTextShowsLinks(GetSubmission());
      FinalText(GetSubmission())
    }
  }
}
