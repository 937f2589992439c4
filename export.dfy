/** The plain-text export of the results page (`ResultsPage.jsx`): the
    7-day plan, the round checklist and the interview questions as text. */
module Export {
  import opened Wrappers
  import opened Text
  import opened Json

  const BULLET: string := "  \U{2022} "

  /** `(xs || []).map(x => `  • ${x}`).join('\n')`: `None` (a throw) when
      `xs` is truthy but not an array. */
  function Bullets(xs: Option<Json>): (r: Option<string>)
    ensures r.Some? <==> !Truthy(xs) || xs.value.JArr?
    ensures !Truthy(xs) ==> r == Some("")
  {
    var list := Or(xs, EMPTY_ARRAY);
    if !list.JArr? then None
    else Some(Join(seq(|list.items|, i requires 0 <= i < |list.items| => BULLET + ToText(list.items[i])), "\n"))
  }

  /** One checklist block: the header `roundTitle ?? round ?? ''`, then the
      items as bullets; property access on `null` throws. */
  function ChecklistBlockText(block: Json): (r: Option<string>)
    ensures block.JNull? ==> r.None?
    ensures !Nullish(Get(block, "roundTitle")) && r.Some? ==>
      ToText(Get(block, "roundTitle").value) + "\n" <= r.value
    ensures Nullish(Get(block, "roundTitle")) && !Nullish(Get(block, "round")) && r.Some? ==>
      ToText(Get(block, "round").value) + "\n" <= r.value
  {
    if block.JNull? then None
    else
      var header := Coalesce(CoalesceOpt(Get(block, "roundTitle"), Get(block, "round")), JStr(""));
      var items :- Bullets(Get(block, "items"));
      Some(ToText(header) + "\n" + items)
  }

  /** One plan block: the header `day || focus || ''`, then the tasks as
      bullets. */
  function PlanBlockText(block: Json): (r: Option<string>)
    ensures block.JNull? ==> r.None?
    ensures Truthy(Get(block, "day")) && r.Some? ==>
      ToText(Get(block, "day").value) + "\n" <= r.value
    ensures !Truthy(Get(block, "day")) && Truthy(Get(block, "focus")) && r.Some? ==>
      ToText(Get(block, "focus").value) + "\n" <= r.value
  {
    if block.JNull? then None
    else
      var header := Or(Get(block, "day"), Or(Get(block, "focus"), JStr("")));
      var tasks :- Bullets(Get(block, "tasks"));
      Some(ToText(header) + "\n" + tasks)
  }

  /** `items.map(f)` where `f` may throw. */
  function TextAll(items: seq<Json>, f: Json -> Option<string>): (r: Option<seq<string>>)
    ensures r.Some? <==> forall i :: 0 <= i < |items| ==> f(items[i]).Some?
    ensures r.Some? ==> |r.value| == |items| && forall i :: 0 <= i < |items| ==> r.value[i] == f(items[i]).value
  {
    if items == [] then Some([])
    else
      match f(items[0])
      case None => None
      case Some(t) =>
        match TextAll(items[1..], f)
        case None => None
        case Some(ts) => Some([t] + ts)
  }

  /** Mapping a concatenation maps each part. */
  lemma TextAllAppend(a: seq<Json>, b: seq<Json>, f: Json -> Option<string>)
    requires TextAll(a, f).Some? && TextAll(b, f).Some?
    ensures TextAll(a + b, f) == Some(TextAll(a, f).value + TextAll(b, f).value)
  {
    var ra, rb := TextAll(a, f).value, TextAll(b, f).value;
    assert Defined: forall i :: 0 <= i < |a + b| ==> f((a + b)[i]).Some? by {
      forall i | 0 <= i < |a + b| ensures f((a + b)[i]).Some? {
        if i < |a| { assert (a + b)[i] == a[i]; } else { assert (a + b)[i] == b[i - |a|]; }
      }
    }
    var r := TextAll(a + b, f).value;
    assert r == ra + rb by {
      forall i | 0 <= i < |r| ensures r[i] == (ra + rb)[i] {
        if i < |a| { assert (a + b)[i] == a[i]; } else { assert (a + b)[i] == b[i - |a|]; }
      }
    }
  }

  /** `list.length` is truthy: a non-empty array or string, or an object
      with a truthy `length` property. */
  predicate HasLength(list: Json) {
    match list
    case JArr(items) => items != []
    case JStr(s) => s != ""
    case JObj(_) => Truthy(Get(list, "length"))
    case _ => false
  }

  /** `if (!list.length) return ''; return list.map(f).join('\n\n')`:
      only an array has `map`. */
  function FormatList(list: Json, f: Json -> Option<string>): (r: Option<string>)
    ensures !HasLength(list) ==> r == Some("")
    ensures HasLength(list) && !list.JArr? ==> r.None?
  {
    if !HasLength(list) then Some("")
    else if !list.JArr? then None
    else
      var texts :- TextAll(list.items, f);
      Some(Join(texts, "\n\n"))
  }

  /** `formatChecklistAsText(checklist)`. */
  function FormatChecklist(checklist: Option<Json>): (r: Option<string>)
    ensures Nullish(checklist) ==> r == Some("")
    ensures checklist == Some(EMPTY_ARRAY) ==> r == Some("")
    ensures checklist.Some? && HasLength(checklist.value) && !checklist.value.JArr? ==> r.None?
  {
    FormatList(Coalesce(checklist, EMPTY_ARRAY), ChecklistBlockText)
  }

  /** `formatPlanAsText(plan)`. */
  function FormatPlan(plan: Option<Json>): (r: Option<string>)
    ensures Nullish(plan) ==> r == Some("")
    ensures plan == Some(EMPTY_ARRAY) ==> r == Some("")
    ensures plan.Some? && HasLength(plan.value) && !plan.value.JArr? ==> r.None?
  {
    FormatList(Coalesce(plan, EMPTY_ARRAY), PlanBlockText)
  }

  /** An empty or missing list formats as ''. */
  lemma EmptyListsFormatEmpty(list: Option<Json>)
    requires Nullish(list) || list == Some(EMPTY_ARRAY)
    ensures FormatChecklist(list) == Some("") && FormatPlan(list) == Some("")
  {
  }

  /** The text of a list of blocks is the text of its first part, a blank
      line, and the text of its second part. */
  lemma FormatListAppend(a: seq<Json>, b: seq<Json>, f: Json -> Option<string>)
    requires a != [] && b != []
    requires FormatList(JArr(a), f).Some? && FormatList(JArr(b), f).Some?
    ensures FormatList(JArr(a + b), f) == Some(FormatList(JArr(a), f).value + "\n\n" + FormatList(JArr(b), f).value)
  {
    TextAllAppend(a, b, f);
    JoinAppend(TextAll(a, f).value, TextAll(b, f).value, "\n\n");
  }

  /** Checklist blocks are separated by one blank line. */
  lemma ChecklistBlocksSeparated(a: seq<Json>, b: seq<Json>)
    requires a != [] && b != []
    requires FormatChecklist(Some(JArr(a))).Some? && FormatChecklist(Some(JArr(b))).Some?
    ensures FormatChecklist(Some(JArr(a + b)))
         == Some(FormatChecklist(Some(JArr(a))).value + "\n\n" + FormatChecklist(Some(JArr(b))).value)
  {
    FormatListAppend(a, b, ChecklistBlockText);
  }

  /** Plan blocks are separated by one blank line. */
  lemma PlanBlocksSeparated(a: seq<Json>, b: seq<Json>)
    requires a != [] && b != []
    requires FormatPlan(Some(JArr(a))).Some? && FormatPlan(Some(JArr(b))).Some?
    ensures FormatPlan(Some(JArr(a + b)))
         == Some(FormatPlan(Some(JArr(a))).value + "\n\n" + FormatPlan(Some(JArr(b))).value)
  {
    FormatListAppend(a, b, PlanBlockText);
  }

  /** The numbered lines `${i + 1}. ${q}`. */
  function QuestionLines(items: seq<Json>, from: nat): (r: seq<string>)
    ensures |r| == |items|
    ensures forall i :: 0 <= i < |items| ==> r[i] == NatToText(from + i + 1) + ". " + ToText(items[i])
  {
    if items == [] then [] else [NatToText(from + 1) + ". " + ToText(items[0])] + QuestionLines(items[1..], from + 1)
  }

  /** `formatQuestionsAsText(questions)`: '' for a falsy value or an empty
      list; a non-array with a length throws. */
  function FormatQuestions(questions: Option<Json>): (r: Option<string>)
    ensures !Truthy(questions) || !HasLength(questions.value) ==> r == Some("")
    ensures Truthy(questions) && HasLength(questions.value) ==> (r.Some? <==> questions.value.JArr?)
  {
    if !Truthy(questions) || !HasLength(questions.value) then Some("")
    else if !questions.value.JArr? then None
    else Some(Join(QuestionLines(questions.value.items, 0), "\n"))
  }

  /** The number of times `c` occurs in `s`. */
  function Occurrences(s: string, c: char): nat {
    if s == [] then 0 else Occurrences(s[..|s| - 1], c) + (if s[|s| - 1] == c then 1 else 0)
  }

  lemma {:induction false} OccurrencesAppend(s: string, t: string, c: char)
    ensures Occurrences(s + t, c) == Occurrences(s, c) + Occurrences(t, c)
  {
    if t == [] {
      assert s + t == s;
    } else {
      assert (s + t)[..|s + t| - 1] == s + t[..|t| - 1];
      assert (s + t)[|s + t| - 1] == t[|t| - 1];
      OccurrencesAppend(s, t[..|t| - 1], c);
    }
  }

  /** Joining lines without a line break by '\n' gives one break fewer than
      lines. */
  lemma {:induction false} JoinedLineBreaks(lines: seq<string>)
    requires lines != []
    requires forall i :: 0 <= i < |lines| ==> Occurrences(lines[i], '\n') == 0
    ensures Occurrences(Join(lines, "\n"), '\n') == |lines| - 1
  {
    if |lines| > 1 {
      JoinedLineBreaks(lines[1..]);
      OccurrencesAppend(lines[0], "\n", '\n');
      OccurrencesAppend(lines[0] + "\n", Join(lines[1..], "\n"), '\n');
    }
  }

  lemma {:induction false} DigitsHaveNoBreak(n: nat)
    ensures Occurrences(NatToText(n), '\n') == 0
  {
    var s := NatToText(n);
    if s != [] {
      NoBreakWithoutNewline(s);
    }
  }

  lemma {:induction false} NoBreakWithoutNewline(s: string)
    requires forall i :: 0 <= i < |s| ==> s[i] != '\n'
    ensures Occurrences(s, '\n') == 0
  {
    if s != [] {
      NoBreakWithoutNewline(s[..|s| - 1]);
    }
  }

  /** A list of questions none of which spans lines exports as one line per
      question, the first being "1. " and the first question. */
  lemma QuestionsOnePerLine(items: seq<Json>)
    requires items != []
    requires forall i :: 0 <= i < |items| ==> Occurrences(ToText(items[i]), '\n') == 0
    ensures var text := FormatQuestions(Some(JArr(items))).value;
      && Occurrences(text, '\n') == |items| - 1
      && text[..3 + |ToText(items[0])|] == "1. " + ToText(items[0])
  {
    var lines := QuestionLines(items, 0);
    forall i | 0 <= i < |lines| ensures Occurrences(lines[i], '\n') == 0 {
      DigitsHaveNoBreak(i + 1);
      NoBreakWithoutNewline(". ");
      OccurrencesAppend(NatToText(i + 1), ". ", '\n');
      OccurrencesAppend(NatToText(i + 1) + ". ", ToText(items[i]), '\n');
    }
    JoinedLineBreaks(lines);
    assert NatToText(1) == "1";
  }
}
