/** The saved analyses (`history.js`): a list of entries kept in browser
    storage under one key, and the id of the latest saved entry under
    another. The store holds what `JSON.parse` makes of the first key; a
    missing or unreadable key reads as an empty array. */
module History {
  import opened Wrappers
  import opened Text
  import opened Json
  import opened Schema

  /** `e && e.id === id` for a defined `id`: strict equality compares
      primitives by value, and an object or array read back from storage is
      never the same reference as one the caller holds. */
  predicate Matches(e: Json, id: Json) {
    Truthy(Some(e)) && Get(e, "id") == Some(id) && !id.JArr? && !id.JObj?
  }

  /** `list.findIndex(e => e && e.id === id)`, with `-1` as `None`. */
  function FindIndex(items: seq<Json>, id: Json): (r: Option<nat>)
    ensures r.Some? ==> r.value < |items| && Matches(items[r.value], id)
    ensures r.Some? ==> forall j :: 0 <= j < r.value ==> !Matches(items[j], id)
    ensures r.None? ==> forall j :: 0 <= j < |items| ==> !Matches(items[j], id)
  {
    if items == [] then None
    else if Matches(items[0], id) then Some(0)
    else
      match FindIndex(items[1..], id)
      case None => None
      case Some(k) => Some(k + 1)
  }

  /** A matching entry is an object: only objects have an `id`. */
  lemma MatchIsObject(e: Json, id: Json)
    requires Matches(e, id)
    ensures e.JObj? && "id" in e.fields && e.fields["id"] == id
  {
  }

  /** `Array.isArray(raw) ? raw : []`. */
  function List(stored: Json): (r: seq<Json>)
    ensures stored.JArr? ==> r == stored.items
    ensures !stored.JArr? ==> r == []
  {
    if stored.JArr? then stored.items else []
  }

  /** `migrateEntry` at the time `now`, as a function of the entry
      (`null` where it returns `null` or throws). */
  function MigrateAt(now: string): Json -> Json {
    e => MigrateEntry(e, now)
  }

  /** `f` applied to each item, in order. */
  function Map(items: seq<Json>, f: Json -> Json): (r: seq<Json>)
    ensures |r| == |items|
  {
    if items == [] then [] else Map(items[..|items| - 1], f) + [f(items[|items| - 1])]
  }

  /** The `i`-th result is `f` of the `i`-th item. */
  lemma {:induction false} MapAt(items: seq<Json>, f: Json -> Json, i: nat)
    requires i < |items|
    ensures Map(items, f)[i] == f(items[i])
  {
    var n := |items| - 1;
    if i < n {
      assert items[..n][i] == items[i];
      MapAt(items[..n], f, i);
    }
  }

  /** Mapping one more item appends its image. */
  lemma MapSnoc(items: seq<Json>, f: Json -> Json, i: nat)
    requires i < |items|
    ensures Map(items[..i + 1], f) == Map(items[..i], f) + [f(items[i])]
  {
    assert items[..i + 1][..i] == items[..i];
  }

  /** The values that are not `null`, in order. */
  function NonNull(ms: seq<Json>): (r: seq<Json>)
    ensures forall k :: 0 <= k < |r| ==> r[k] in ms && r[k] != JNull
  {
    if ms == [] then []
    else NonNull(ms[..|ms| - 1]) + (if ms[|ms| - 1] != JNull then [ms[|ms| - 1]] else [])
  }

  /** How many values are `null`. */
  function NullCount(ms: seq<Json>): nat {
    if ms == [] then 0
    else NullCount(ms[..|ms| - 1]) + (if ms[|ms| - 1] != JNull then 0 else 1)
  }

  /** Every value is either kept or counted. */
  lemma {:induction false} NonNullAndNulls(ms: seq<Json>)
    ensures |NonNull(ms)| + NullCount(ms) == |ms|
  {
    if ms != [] {
      NonNullAndNulls(ms[..|ms| - 1]);
    }
  }

  /** Every value that is not `null` is kept. */
  lemma {:induction false} NonNullKeeps(ms: seq<Json>, i: nat)
    requires i < |ms| && ms[i] != JNull
    ensures ms[i] in NonNull(ms)
  {
    var n := |ms| - 1;
    if i < n {
      assert ms[..n][i] == ms[i];
      NonNullKeeps(ms[..n], i);
    }
  }

  /** Migration returns `null` or an object. */
  lemma MigratedIsObject(e: Json, now: string)
    ensures MigrateEntry(e, now) == JNull || MigrateEntry(e, now).JObj?
  {
    if ValidateEntry(e) {
      assert IsStr(Get(e, "id"));
    }
  }

  /** The entries `getHistory` keeps, in stored order: each migrated entry
      that is not `null`. */
  function Kept(items: seq<Json>, now: string): (r: seq<Json>)
    ensures forall k :: 0 <= k < |r| ==> r[k].JObj?
  {
    var ms := Map(items, MigrateAt(now));
    assert forall j :: 0 <= j < |ms| ==> ms[j] == JNull || ms[j].JObj? by {
      forall j | 0 <= j < |ms| ensures ms[j] == JNull || ms[j].JObj? {
        MapAt(items, MigrateAt(now), j);
        MigratedIsObject(items[j], now);
      }
    }
    NonNull(ms)
  }

  /** The number of entries `getHistory` skips. */
  function Dropped(items: seq<Json>, now: string): nat {
    NullCount(Map(items, MigrateAt(now)))
  }

  /** Every stored entry is either kept or counted as skipped. */
  lemma KeptAndDropped(items: seq<Json>, now: string)
    ensures |Kept(items, now)| + Dropped(items, now) == |items|
  {
    NonNullAndNulls(Map(items, MigrateAt(now)));
  }

  /** An entry that already validates is kept as it is. */
  lemma ValidIsKept(items: seq<Json>, now: string, i: nat)
    requires i < |items| && ValidateEntry(items[i])
    ensures items[i] in Kept(items, now)
  {
    var ms := Map(items, MigrateAt(now));
    MapAt(items, MigrateAt(now), i);
    assert ms[i] == items[i];
    assert ms[i] != JNull by { assert IsStr(Get(items[i], "id")); }
    NonNullKeeps(ms, i);
  }

  /** `new Date(e.createdAt)` as a number, given by the caller: the model
      does not parse dates. */
  function Key(e: Json, date: Option<Json> -> int): int {
    date(Get(e, "createdAt"))
  }

  /** Each entry is at least as recent as the one after it. */
  predicate NewestFirst(s: seq<Json>, date: Option<Json> -> int) {
    forall i :: 0 <= i < |s| - 1 ==> Key(s[i], date) >= Key(s[i + 1], date)
  }

  /** Every entry is at least as recent as every entry after it. */
  lemma {:induction false} NewestFirstPairwise(s: seq<Json>, date: Option<Json> -> int, i: nat, j: nat)
    requires NewestFirst(s, date) && i <= j < |s|
    ensures Key(s[i], date) >= Key(s[j], date)
    decreases j - i
  {
    if i < j {
      NewestFirstPairwise(s, date, i + 1, j);
    }
  }

  /** Places `x` before the first entry older than it. */
  function Insert(x: Json, s: seq<Json>, date: Option<Json> -> int): (r: seq<Json>)
    requires NewestFirst(s, date)
    ensures NewestFirst(r, date)
    ensures multiset(r) == multiset(s) + multiset{x}
    ensures |r| == |s| + 1 && (r[0] == x || (s != [] && r[0] == s[0]))
  {
    if s == [] || Key(x, date) >= Key(s[0], date) then [x] + s
    else
      assert s == [s[0]] + s[1..];
      [s[0]] + Insert(x, s[1..], date)
  }

  /** `entries.sort((a, b) => new Date(b.createdAt) - new Date(a.createdAt))`. */
  function SortNewestFirst(xs: seq<Json>, date: Option<Json> -> int): (r: seq<Json>)
    ensures NewestFirst(r, date)
    ensures multiset(r) == multiset(xs)
  {
    if xs == [] then []
    else
      assert xs == [xs[0]] + xs[1..];
      Insert(xs[0], SortNewestFirst(xs[1..], date), date)
  }

  /** The migration loop of `getHistory()`, with `migrateEntry` passed as
      `migrate`: each raw entry migrated, the non-null results kept in order
      and the nulls counted. */
  method MigrateAll(raw: seq<Json>, migrate: Json -> Json) returns (kept: seq<Json>, skippedCount: nat)
    ensures kept == NonNull(Map(raw, migrate))
    ensures skippedCount == NullCount(Map(raw, migrate))
  {
    kept := [];
    skippedCount := 0;
    var i := 0;
    while i < |raw|
      invariant 0 <= i <= |raw|
      invariant kept == NonNull(Map(raw[..i], migrate))
      invariant skippedCount == NullCount(Map(raw[..i], migrate))
    {
      var migrated := migrate(raw[i]);
      MapSnoc(raw, migrate, i);
      NonNullSnoc(Map(raw[..i], migrate), migrated);
      if migrated != JNull {
        kept := kept + [migrated];
      } else {
        skippedCount := skippedCount + 1;
      }
      i := i + 1;
    }
    assert raw[..i] == raw;
  }

  /** One more value: kept when not `null`, counted otherwise. */
  lemma NonNullSnoc(ms: seq<Json>, m: Json)
    ensures NonNull(ms + [m]) == NonNull(ms) + (if m != JNull then [m] else [])
    ensures NullCount(ms + [m]) == NullCount(ms) + (if m != JNull then 0 else 1)
  {
    assert (ms + [m])[..|ms|] == ms;
  }

  /** Sorting keeps every entry, so the sorted entries are objects when
      the kept ones are. */
  lemma SortedObjects(xs: seq<Json>, date: Option<Json> -> int)
    requires forall k :: 0 <= k < |xs| ==> xs[k].JObj?
    ensures |SortNewestFirst(xs, date)| == |xs|
    ensures forall k :: 0 <= k < |SortNewestFirst(xs, date)| ==> SortNewestFirst(xs, date)[k].JObj?
  {
    var r := SortNewestFirst(xs, date);
    assert |r| == |multiset(r)| == |multiset(xs)| == |xs|;
    forall k | 0 <= k < |r| ensures r[k].JObj? {
      assert r[k] in multiset(xs);
    }
  }

  /** The id `saveEntry` makes from the clock and a random base-36 tail. */
  function NewId(millis: nat, suffix: string): (r: string)
    ensures |r| > 3 && r[..3] == "pp-"
  {
    "pp-" + NatToText(millis) + "-" + suffix
  }

  /** `{ id, createdAt, ...normalized }`. */
  function Record(id: string, createdAt: string, normalized: map<string, Json>): map<string, Json> {
    map["id" := JStr(id), "createdAt" := JStr(createdAt)] + normalized
  }

  /** A record keeps the given id and creation time, since a normalized
      entry has neither. */
  lemma RecordIdentity(id: string, createdAt: string, normalized: map<string, Json>)
    requires "id" !in normalized && "createdAt" !in normalized
    ensures Get(JObj(Record(id, createdAt, normalized)), "id") == Some(JStr(id))
    ensures Get(JObj(Record(id, createdAt, normalized)), "createdAt") == Some(JStr(createdAt))
  {
  }

  /** A record is the normalized entry with its two identity fields added. */
  lemma RecordIsPut(id: string, createdAt: string, normalized: map<string, Json>)
    requires "id" !in normalized && "createdAt" !in normalized
    ensures Record(id, createdAt, normalized)
         == Put(Put(normalized, "id", Some(JStr(id))), "createdAt", Some(JStr(createdAt)))
  {
  }

  /** `list.unshift(record)` on the stored list, or on a new list when the
      stored value is not an array. */
  function Prepend(stored: Json, record: Json): (r: Json)
    ensures r.JArr? && r.items == [record] + List(stored)
  {
    JArr([record] + List(stored))
  }

  /** Entry `k` of the stored array is the first whose id is `id`, a
      non-empty string. */
  predicate FirstMatch(stored: Json, id: Option<Json>, k: int) {
    && id.Some? && id.value.JStr? && id.value.s != ""
    && stored.JArr? && 0 <= k < |stored.items| && Matches(stored.items[k], id.value)
    && forall j :: 0 <= j < k ==> !Matches(stored.items[j], id.value)
  }

  /** `getEntryById(id)`: `None` for an id that is not a non-empty string,
      for a stored value that is not an array, when no entry matches, and
      when the first match migrates to `null`. */
  function EntryById(stored: Json, id: Option<Json>, now: string): (r: Option<Json>)
    ensures r.Some? ==> r.value.JObj? && id.Some? && Get(r.value, "id") == id
    ensures r.Some? ==> id.value.JStr? && id.value.s != ""
    ensures !(id.Some? && id.value.JStr? && id.value.s != "") || !stored.JArr? ==> r.None?
    ensures stored.JArr? && id.Some? && (forall j :: 0 <= j < |stored.items| ==> !Matches(stored.items[j], id.value)) ==> r.None?
    ensures forall k :: FirstMatch(stored, id, k) ==>
      r == (if MigrateEntry(stored.items[k], now) == JNull then None else Some(MigrateEntry(stored.items[k], now)))
  {
    if !Truthy(id) || !id.value.JStr? || !stored.JArr? then None
    else
      match FindIndex(stored.items, id.value)
      case None => None
      case Some(i) =>
        var m := MigrateEntry(stored.items[i], now);
        if m == JNull then None else Some(m)
  }

  /** The entry saved last is the one found by its id, migrated. */
  lemma FoundFirst(stored: Json, record: map<string, Json>, id: string, now: string)
    requires id != "" && "id" in record && record["id"] == JStr(id)
    ensures FindIndex(Prepend(stored, JObj(record)).items, JStr(id)) == Some(0)
    ensures MigrateEntry(JObj(record), now) != JNull ==>
      EntryById(Prepend(stored, JObj(record)), Some(JStr(id)), now) == Some(MigrateEntry(JObj(record), now))
  {
    assert Matches(JObj(record), JStr(id));
  }

  /** `{ ...current, ...updates }` stored back at the first match;
      nothing changes when the stored value is not an array or no entry
      matches. */
  function Update(stored: Json, id: Json, updates: map<string, Json>): (r: Json)
    ensures !stored.JArr? || FindIndex(stored.items, id).None? ==> r == stored
    ensures stored.JArr? ==> r.JArr? && |r.items| == |stored.items|
    ensures stored.JArr? ==> forall j :: 0 <= j < |stored.items| && Some(j) != FindIndex(stored.items, id) ==>
      r.items[j] == stored.items[j]
    ensures stored.JArr? && FindIndex(stored.items, id).Some? ==>
      var i := FindIndex(stored.items, id).value;
      && stored.items[i].JObj? && r.items[i].JObj?
      && forall k :: Get(r.items[i], k) == (if k in updates then Some(updates[k]) else Get(stored.items[i], k))
  {
    if !stored.JArr? then stored
    else
      match FindIndex(stored.items, id)
      case None => stored
      case Some(i) =>
        MatchIsObject(stored.items[i], id);
        JArr(stored.items[i := JObj(stored.items[i].fields + updates)])
  }

  /** The updates the results page writes: the confidence map, the final
      score and the time of the change. */
  predicate ScoreUpdates(updates: map<string, Json>) {
    && updates.Keys == {"skillConfidenceMap", "finalScore", "updatedAt"}
    && updates["skillConfidenceMap"].JObj?
    && updates["finalScore"].JNum?
    && updates["updatedAt"].JStr?
  }

  /** Such updates keep a valid entry valid. */
  lemma ScoreUpdatesKeepValid(e: map<string, Json>, updates: map<string, Json>)
    requires ValidateEntry(JObj(e)) && ScoreUpdates(updates)
    ensures ValidateEntry(JObj(e + updates))
  {
    assert Get(JObj(e + updates), "id") == Get(JObj(e), "id");
    assert Get(JObj(e + updates), "createdAt") == Get(JObj(e), "createdAt");
    assert Get(JObj(e + updates), "extractedSkills") == Get(JObj(e), "extractedSkills");
  }

  class HistoryStore {
    /** The parsed history list (any value: storage can hold anything). */
    var stored: Json
    /** The latest saved id; `""` when none was saved. */
    var latest: string

    constructor (stored: Json, latest: string)
      ensures this.stored == stored && this.latest == latest
    {
      this.stored := stored;
      this.latest := latest;
    }

    /** `getHistory()`: the migrated entries, newest first, and how many
        entries were skipped. `now` is the clock migration reads. */
    method GetHistory(date: Option<Json> -> int, now: string) returns (entries: seq<Json>, skippedCount: nat)
      ensures entries == SortNewestFirst(Kept(List(stored), now), date)
      ensures skippedCount == Dropped(List(stored), now)
      ensures |entries| + skippedCount == |List(stored)|
      ensures NewestFirst(entries, date)
      ensures forall k :: 0 <= k < |entries| ==> entries[k].JObj?
    {
      var raw := stored;
      if !raw.JArr? {
        assert List(stored) == [];
        return [], 0;
      }
      var kept;
      kept, skippedCount := MigrateAll(raw.items, MigrateAt(now));
      KeptAndDropped(raw.items, now);
      entries := SortNewestFirst(kept, date);
      SortedObjects(kept, date);
    }

    /** `saveEntry(entry)`: `None` when normalization throws (nothing is
        stored); `""` when the entry is not an object; otherwise the new id,
        with the record put first in the list and remembered as latest.
        `millis`, `suffix` and `createdAt` are the clock and the random tail;
        `now` is the clock normalization reads. */
    method SaveEntry(entry: Option<Json>, millis: nat, suffix: string, createdAt: string, now: string)
      returns (r: Option<string>)
      modifies this
      ensures var n := NormalizeAnalysisToEntry(entry, now);
        n.None? || n == Some(JNull) ==> stored == old(stored) && latest == old(latest)
      ensures NormalizeAnalysisToEntry(entry, now).None? ==> r.None?
      ensures NormalizeAnalysisToEntry(entry, now) == Some(JNull) ==> r == Some("")
      ensures var n := NormalizeAnalysisToEntry(entry, now);
        n.Some? && n.value != JNull ==>
          && r == Some(NewId(millis, suffix))
          && stored == Prepend(old(stored), JObj(Record(NewId(millis, suffix), createdAt, n.value.fields)))
          && latest == NewId(millis, suffix)
    {
      var normalized := NormalizeAnalysisToEntry(entry, now);
      if normalized.None? {
        return None;
      }
      if normalized.value == JNull {
        return Some("");
      }
      var id := NewId(millis, suffix);
      var record := JObj(Record(id, createdAt, normalized.value.fields));
      stored := Prepend(stored, record);
      latest := id;
      r := Some(id);
    }

    /** `getEntryById(id)`. */
    function GetEntryById(id: Option<Json>, now: string): (r: Option<Json>)
      reads this
      ensures r == EntryById(stored, id, now)
      ensures !stored.JArr? ==> r.None?
      ensures forall k :: FirstMatch(stored, id, k) ==>
        r == (if MigrateEntry(stored.items[k], now) == JNull then None else Some(MigrateEntry(stored.items[k], now)))
    {
      EntryById(stored, id, now)
    }

    /** `updateEntry(id, updates)`. */
    method UpdateEntry(id: Json, updates: map<string, Json>)
      modifies this
      ensures stored == Update(old(stored), id, updates) && latest == old(latest)
    {
      stored := Update(stored, id, updates);
    }

    /** `getLatestId()`: `null` when nothing was saved. */
    function GetLatestId(): (r: Option<string>)
      reads this
      ensures r.None? <==> latest == ""
      ensures r.Some? ==> r.value == latest
    {
      if latest == "" then None else Some(latest)
    }
  }
}
