/** The built-in test checklist (`testChecklist.js`): ten fixed test ids,
    each checked or not, kept in browser storage as one object. All ten must
    be checked before the ship step unlocks. */
module TestChecklist {
  import opened Wrappers
  import opened Json

  const TEST_IDS: seq<string> := [
    "jd-required", "short-jd-warning", "skills-extraction", "round-mapping",
    "score-deterministic", "toggles-live", "persist-refresh", "history-saves",
    "export-copy", "no-console-errors"]

  /** `getStored()`: the parsed object, or `{}` when the stored value is
      missing or not an object (an array is an object here). */
  function StoredObject(stored: Json): (r: Json)
    ensures IsObjectLike(Some(r))
    ensures IsObjectLike(Some(stored)) ==> r == stored
  {
    if IsObjectLike(Some(stored)) then stored else EMPTY_OBJECT
  }

  /** `stored[id] === true`. */
  predicate Checked(stored: Json, id: string) {
    Get(StoredObject(stored), id) == Some(JBool(true))
  }

  /** Every one of the ten tests is checked. */
  predicate AllChecked(stored: Json) {
    forall i :: 0 <= i < |TEST_IDS| ==> Checked(stored, TEST_IDS[i])
  }

  /** `stored[id] = checked === true` followed by storing the object: an
      array keeps no named properties once stored, so it is left as it is. */
  function Write(stored: Json, id: string, checked: Json): (r: Json)
    ensures Checked(r, id) <==> (StoredObject(stored).JObj? && checked == JBool(true))
    ensures forall other :: other != id ==> (Checked(r, other) <==> Checked(stored, other))
  {
    match StoredObject(stored)
    case JObj(fields) => JObj(fields[id := JBool(checked == JBool(true))])
    case _ => stored
  }

  /** Checking the ten tests one by one, in any store, completes the
      checklist when the store is not an array. */
  lemma CheckAllCompletes(stored: Json)
    requires !stored.JArr?
    ensures AllChecked(WriteAll(stored, TEST_IDS))
  {
    WriteAllChecks(stored, TEST_IDS);
  }

  /** The store after checking each of `ids` in turn. */
  function WriteAll(stored: Json, ids: seq<string>): Json
    decreases ids
  {
    if ids == [] then stored else WriteAll(Write(stored, ids[0], JBool(true)), ids[1..])
  }

  lemma {:induction false} WriteAllChecks(stored: Json, ids: seq<string>)
    requires !stored.JArr?
    ensures !WriteAll(stored, ids).JArr?
    ensures forall i :: 0 <= i < |ids| ==> Checked(WriteAll(stored, ids), ids[i])
    decreases ids
  {
    if ids != [] {
      var next := Write(stored, ids[0], JBool(true));
      WriteAllChecks(next, ids[1..]);
      WriteAllKeeps(next, ids[1..], ids[0]);
      forall i | 0 <= i < |ids| ensures Checked(WriteAll(stored, ids), ids[i]) {
        if i > 0 { assert ids[i] == ids[1..][i - 1]; }
      }
    }
  }

  /** Checking more tests never unchecks one. */
  lemma {:induction false} WriteAllKeeps(stored: Json, ids: seq<string>, id: string)
    requires Checked(stored, id)
    ensures Checked(WriteAll(stored, ids), id)
    decreases ids
  {
    if ids != [] {
      WriteAllKeeps(Write(stored, ids[0], JBool(true)), ids[1..], id);
    }
  }

  class TestChecklistStore {
    /** The parsed checklist object (any value: storage can hold anything). */
    var stored: Json

    constructor (stored: Json)
      ensures this.stored == stored
    {
      this.stored := stored;
    }

    /** `getChecklist()`: exactly the ten test ids, each true iff stored as
        exactly `true`. */
    method GetChecklist() returns (out: map<string, bool>)
      ensures out.Keys == set i | 0 <= i < |TEST_IDS| :: TEST_IDS[i]
      ensures forall i :: 0 <= i < |TEST_IDS| ==> out[TEST_IDS[i]] == Checked(stored, TEST_IDS[i])
    {
      var s := StoredObject(stored);
      out := map[];
      var i := 0;
      while i < |TEST_IDS|
        invariant 0 <= i <= |TEST_IDS|
        invariant out.Keys == set j | 0 <= j < i :: TEST_IDS[j]
        invariant forall j :: 0 <= j < i ==> out[TEST_IDS[j]] == Checked(stored, TEST_IDS[j])
      {
        out := out[TEST_IDS[i] := Get(s, TEST_IDS[i]) == Some(JBool(true))];
        i := i + 1;
      }
    }

    /** `setChecklistItem(id, checked)`: an id that is not one of the ten
        writes nothing. */
    method SetChecklistItem(id: Json, checked: Json)
      modifies this
      ensures id.JStr? && id.s in TEST_IDS ==> stored == Write(old(stored), id.s, checked)
      ensures !(id.JStr? && id.s in TEST_IDS) ==> stored == old(stored)
    {
      if id.JStr? && id.s in TEST_IDS {
        stored := Write(stored, id.s, checked);
      }
    }

    /** `isChecklistComplete()`. */
    predicate IsChecklistComplete(): (r: bool)
      reads this
      ensures r <==> forall i :: 0 <= i < |TEST_IDS| ==> Checked(stored, TEST_IDS[i])
      ensures r ==> stored.JObj? && forall i :: 0 <= i < |TEST_IDS| ==>
        TEST_IDS[i] in stored.fields && stored.fields[TEST_IDS[i]] == JBool(true)
    {
      if AllChecked(stored) then
        assert Checked(stored, TEST_IDS[0]);
        assert StoredObject(stored) != EMPTY_OBJECT;
        true
      else false
    }

    /** `resetChecklist()`: every test unchecked. */
    method ResetChecklist()
      modifies this
      ensures stored == EMPTY_OBJECT
      ensures forall i :: 0 <= i < |TEST_IDS| ==> !Checked(stored, TEST_IDS[i])
      ensures !IsChecklistComplete()
    {
      stored := EMPTY_OBJECT;
      assert !Checked(stored, TEST_IDS[0]);
    }
  }

  /** A reset store leaves the checklist incomplete. */
  lemma ResetIsIncomplete()
    ensures !AllChecked(EMPTY_OBJECT)
    ensures forall i :: 0 <= i < |TEST_IDS| ==> !Checked(EMPTY_OBJECT, TEST_IDS[i])
  {
    assert !Checked(EMPTY_OBJECT, TEST_IDS[0]);
  }

  /** Unchecking any one test leaves the checklist incomplete. */
  lemma UncheckOneIncomplete(stored: Json, i: nat)
    requires i < |TEST_IDS|
    ensures !AllChecked(Write(stored, TEST_IDS[i], JBool(false)))
  {
  }
}
