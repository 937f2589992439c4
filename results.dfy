/** The pure helpers of the results page (`ResultsPage.jsx`): the live
    score shown while the candidate marks skills as known, the weak skills
    it lists, the write-back of a confidence toggle, and the plain-text
    export of the plan, the checklist and the questions. */
module Results {
  import opened Wrappers
  import opened Text
  import opened Json
  import opened Schema
  import opened History

  /** `skillConfidenceMap[skill] === 'know'`; a property key is the
      skill's string form. */
  predicate IsKnow(conf: map<string, Json>, skill: Json) {
    ToText(skill) in conf && conf[ToText(skill)] == JStr("know")
  }

  /** How many of the skills are marked 'know'. */
  function KnowCount(conf: map<string, Json>, skills: seq<Json>): (r: nat)
    ensures r <= |skills|
  {
    if skills == [] then 0
    else KnowCount(conf, skills[..|skills| - 1]) + (if IsKnow(conf, skills[|skills| - 1]) then 1 else 0)
  }

  /** `Math.min(100, Math.max(0, score))` (the score is already whole, so
      `Math.round` leaves it as it is). */
  function Clamp(score: int): (r: int)
    ensures 0 <= r <= 100
    ensures 0 <= score <= 100 ==> r == score
    ensures score < 0 ==> r == 0
    ensures score > 100 ==> r == 100
  {
    if score > 100 then 100 else if score < 0 then 0 else score
  }

  /** The live score: the base, plus 2 for each skill marked 'know', minus 2
      for every other skill, kept within 0..100. A skill with no entry, or
      with any other value, counts against the score. */
  function LiveScore(base: int, conf: map<string, Json>, skills: seq<Json>): (r: int)
    ensures 0 <= r <= 100
  {
    var know := KnowCount(conf, skills);
    Clamp(base + 2 * know - 2 * (|skills| - know))
  }

  /** `computeLiveScore(baseScore, skillConfidenceMap, allSkills)`. */
  method ComputeLiveScore(base: int, conf: map<string, Json>, skills: seq<Json>) returns (r: int)
    ensures r == LiveScore(base, conf, skills)
    ensures 0 <= r <= 100
  {
    var knowCount := 0;
    var practiceCount := 0;
    var i := 0;
    while i < |skills|
      invariant 0 <= i <= |skills|
      invariant knowCount == KnowCount(conf, skills[..i])
      invariant knowCount + practiceCount == i
    {
      assert skills[..i + 1][..i] == skills[..i];
      if IsKnow(conf, skills[i]) {
        knowCount := knowCount + 1;
      } else {
        practiceCount := practiceCount + 1;
      }
      i := i + 1;
    }
    assert skills[..i] == skills;
    var score := base + 2 * knowCount - 2 * practiceCount;
    r := Clamp(score);
  }

  /** Two maps that agree on every listed skill give the same count. */
  lemma {:induction false} KnowCountAgrees(conf: map<string, Json>, other: map<string, Json>, skills: seq<Json>)
    requires forall i :: 0 <= i < |skills| ==> (IsKnow(conf, skills[i]) <==> IsKnow(other, skills[i]))
    ensures KnowCount(conf, skills) == KnowCount(other, skills)
  {
    if skills != [] {
      KnowCountAgrees(conf, other, skills[..|skills| - 1]);
    }
  }

  /** An entry for a key that is no listed skill does not change the
      score. */
  lemma UnlistedKeyIrrelevant(base: int, conf: map<string, Json>, skills: seq<Json>, key: string, v: Json)
    requires forall i :: 0 <= i < |skills| ==> ToText(skills[i]) != key
    ensures LiveScore(base, conf[key := v], skills) == LiveScore(base, conf, skills)
  {
    KnowCountAgrees(conf[key := v], conf, skills);
  }

  /** Marking a key 'know' never lowers the number of known skills. */
  lemma {:induction false} KnowCountGrows(conf: map<string, Json>, skills: seq<Json>, key: string)
    ensures KnowCount(conf[key := JStr("know")], skills) >= KnowCount(conf, skills)
  {
    if skills != [] {
      KnowCountGrows(conf, skills[..|skills| - 1], key);
    }
  }

  /** Marking a skill 'know' never lowers the live score. */
  lemma MarkKnownNeverLowers(base: int, conf: map<string, Json>, skills: seq<Json>, key: string)
    ensures LiveScore(base, conf[key := JStr("know")], skills) >= LiveScore(base, conf, skills)
  {
    KnowCountGrows(conf, skills, key);
  }

  /** `allSkills.filter(s => skillConfidenceMap[s] !== 'know')`. */
  function Practice(conf: map<string, Json>, skills: seq<Json>): (r: seq<Json>)
    ensures |r| <= |skills|
    ensures forall k :: 0 <= k < |r| ==> r[k] in skills && !IsKnow(conf, r[k])
  {
    if skills == [] then []
    else
      var last := skills[|skills| - 1];
      Practice(conf, skills[..|skills| - 1]) + (if IsKnow(conf, last) then [] else [last])
  }

  /** Every skill not marked 'know' is among the skills to practise. */
  lemma {:induction false} PracticeHasAllWeak(conf: map<string, Json>, skills: seq<Json>, i: nat)
    requires i < |skills| && !IsKnow(conf, skills[i])
    ensures skills[i] in Practice(conf, skills)
  {
    var n := |skills| - 1;
    if i < n {
      assert skills[..n][i] == skills[i];
      PracticeHasAllWeak(conf, skills[..n], i);
    }
  }

  /** The skills to practise are exactly those the score counts against. */
  lemma {:induction false} PracticeCount(conf: map<string, Json>, skills: seq<Json>)
    ensures |Practice(conf, skills)| + KnowCount(conf, skills) == |skills|
  {
    if skills != [] {
      PracticeCount(conf, skills[..|skills| - 1]);
    }
  }

  /** The live score in terms of the practice list: 2 per skill, less 4 per
      skill to practise. */
  lemma LiveScoreOfPractice(base: int, conf: map<string, Json>, skills: seq<Json>)
    ensures LiveScore(base, conf, skills) == Clamp(base + 2 * |skills| - 4 * |Practice(conf, skills)|)
  {
    PracticeCount(conf, skills);
  }

  /** `practiceSkills.slice(0, 3)`. */
  function Top3Weak(practice: seq<Json>): (r: seq<Json>)
    ensures |r| == if |practice| < 3 then |practice| else 3
    ensures r <= practice
  {
    if |practice| < 3 then practice else practice[..3]
  }

  /** `entry?.id`. */
  function IdOf(entry: Option<Json>): Option<Json> {
    if entry.Some? then Get(entry.value, "id") else None
  }

  /** The updates a confidence toggle writes. */
  function ToggleUpdates(next: map<string, Json>, base: int, skills: seq<Json>, now: string): (r: map<string, Json>)
    ensures ScoreUpdates(r)
    ensures r["finalScore"] == JNum(LiveScore(base, next, skills))
  {
    map["skillConfidenceMap" := JObj(next),
        "finalScore" := JNum(LiveScore(base, next, skills)),
        "updatedAt" := JStr(now)]
  }

  /** `handleSetConfidence(skill, value)`: the new map, written back to the
      stored entry with the live score of the new map when the entry has an
      id. `base` is the page's base score, `now` the clock. */
  method SetConfidence(store: HistoryStore, entry: Option<Json>, base: int, skills: seq<Json>,
                       conf: map<string, Json>, skill: string, value: Json, now: string)
    returns (next: map<string, Json>)
    modifies store
    ensures next == conf[skill := value]
    ensures Truthy(IdOf(entry)) ==>
      store.stored == Update(old(store.stored), IdOf(entry).value, ToggleUpdates(next, base, skills, now))
    ensures !Truthy(IdOf(entry)) ==> store.stored == old(store.stored)
    ensures store.latest == old(store.latest)
  {
    next := conf[skill := value];
    var id := IdOf(entry);
    if Truthy(id) {
      var finalScore := ComputeLiveScore(base, next, skills);
      store.UpdateEntry(id.value, map["skillConfidenceMap" := JObj(next),
                                      "finalScore" := JNum(finalScore),
                                      "updatedAt" := JStr(now)]);
    }
  }

  /** After a toggle, the matching stored entry holds the new map and its
      live score, and stays valid if it was. */
  lemma PersistedScore(stored: Json, id: Json, next: map<string, Json>, base: int, skills: seq<Json>, now: string)
    requires stored.JArr? && FindIndex(stored.items, id).Some?
    ensures var i := FindIndex(stored.items, id).value;
      var e := Update(stored, id, ToggleUpdates(next, base, skills, now)).items[i];
      && Get(e, "finalScore") == Some(JNum(LiveScore(base, next, skills)))
      && Get(e, "skillConfidenceMap") == Some(JObj(next))
      && (ValidateEntry(stored.items[i]) ==> ValidateEntry(e))
  {
    var i := FindIndex(stored.items, id).value;
    var updates := ToggleUpdates(next, base, skills, now);
    var e := Update(stored, id, updates).items[i];
    assert Get(e, "finalScore") == Some(updates["finalScore"]);
    assert Get(e, "skillConfidenceMap") == Some(updates["skillConfidenceMap"]);
    if ValidateEntry(stored.items[i]) {
      ScoreUpdatesKeepValid(stored.items[i].fields, updates);
      assert e == JObj(stored.items[i].fields + updates);
    }
  }
}
