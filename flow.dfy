/** The analyze page's submit path: `saveEntry` on what `runAnalysis`
    returned. For every analysis result, the saved record validates,
    migration returns it unchanged, and looking it up by the returned id
    finds it. */
module SavedAnalysis {
  import opened Wrappers
  import opened Json
  import opened Analysis
  import opened Schema
  import opened Records
  import opened History

  /** The record `saveEntry` stores for an analysis. */
  function SavedRecord(r: AnalysisResult, id: string, createdAt: string, now: string): Json {
    var n := NormalizeAnalysisToEntry(Some(AnalysisJson(r)), now);
    if n.Some? && n.value.JObj? then JObj(Record(id, createdAt, n.value.fields)) else JNull
  }

  /** The record saved for an analysis passes validation, and its scores
      are the readiness score. */
  lemma SavedRecordValidates(r: AnalysisResult, millis: nat, suffix: string, createdAt: string, now: string)
    ensures ValidateEntry(SavedRecord(r, NewId(millis, suffix), createdAt, now))
    ensures Get(SavedRecord(r, NewId(millis, suffix), createdAt, now), "finalScore") == Some(JNum(r.readinessScore))
  {
    AnalysisEntry(r, now);
    var e := NormalizeAnalysisToEntry(Some(AnalysisJson(r)), now).value;
    var id := NewId(millis, suffix);
    RecordIsPut(id, createdAt, e.fields);
    RecordIdentity(id, createdAt, e.fields);
    FieldsIgnoreIdentity(e.fields, Some(JStr(id)), Some(JStr(createdAt)));
    assert id != "";
    assert Get(JObj(Record(id, createdAt, e.fields)), "finalScore") == Get(e, "finalScore");
  }

  /** After saving, the entry found under the returned id is the saved
      record itself, at any later time. */
  lemma SaveThenFind(r: AnalysisResult, stored: Json, millis: nat, suffix: string,
                     createdAt: string, now: string, later: string)
    ensures var record := SavedRecord(r, NewId(millis, suffix), createdAt, now);
      EntryById(Prepend(stored, record), Some(JStr(NewId(millis, suffix))), later) == Some(record)
  {
    var id := NewId(millis, suffix);
    SavedRecordValidates(r, millis, suffix, createdAt, now);
    var record := SavedRecord(r, id, createdAt, now);
    assert MigrateEntry(record, later) == record;
    FoundFirst(stored, record.fields, id, later);
  }

  /** `saveEntry(result)` for the object `runAnalysis` returned: the new
      record goes first, validates, and is found under the returned id. */
  method SaveAnalysis(store: HistoryStore, result: AnalysisResult,
                      millis: nat, suffix: string, createdAt: string, now: string)
    returns (id: string)
    modifies store
    ensures id == NewId(millis, suffix) && id != "" && store.latest == id
    ensures store.stored == Prepend(old(store.stored), SavedRecord(result, id, createdAt, now))
    ensures ValidateEntry(SavedRecord(result, id, createdAt, now))
    ensures store.GetEntryById(Some(JStr(id)), now) == Some(SavedRecord(result, id, createdAt, now))
  {
    AnalysisEntry(result, now);
    var saved := store.SaveEntry(Some(AnalysisJson(result)), millis, suffix, createdAt, now);
    id := saved.value;
    SavedRecordValidates(result, millis, suffix, createdAt, now);
    SaveThenFind(result, old(store.stored), millis, suffix, createdAt, now, now);
  }
}
