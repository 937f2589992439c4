/** The untyped values the core reads back from storage (the result of
    `JSON.parse`) and the JavaScript operations it applies to them: property
    access, truthiness, `typeof`, `Array.isArray`, `??`, `||` and `String(v)`.
    A property that is `undefined` is an absent key: `Get` returns `None`. */
module Json {
  import opened Wrappers
  import opened Text

  datatype Json =
    | JNull
    | JBool(b: bool)
    | JNum(n: int)
    | JStr(s: string)
    | JArr(items: seq<Json>)
    | JObj(fields: map<string, Json>)

  /** `v[key]` for a key that is not an array index or `length`: only objects
      have such properties. */
  function Get(v: Json, key: string): (r: Option<Json>)
    ensures r.Some? <==> v.JObj? && key in v.fields
  {
    if v.JObj? && key in v.fields then Some(v.fields[key]) else None
  }

  /** JavaScript truthiness of a value that may be `undefined`. */
  predicate Truthy(o: Option<Json>) {
    match o
    case None => false
    case Some(JNull) => false
    case Some(JBool(b)) => b
    case Some(JNum(n)) => n != 0
    case Some(JStr(s)) => s != ""
    case Some(JArr(_)) => true
    case Some(JObj(_)) => true
  }

  /** `o === null || o === undefined`. */
  predicate Nullish(o: Option<Json>) {
    o.None? || o.value.JNull?
  }

  /** `o ?? d`. */
  function Coalesce(o: Option<Json>, d: Json): (r: Json)
    ensures Nullish(o) ==> r == d
    ensures !Nullish(o) ==> r == o.value
  {
    if Nullish(o) then d else o.value
  }

  /** `o ?? p`, where `p` may itself be `undefined`. */
  function CoalesceOpt(o: Option<Json>, p: Option<Json>): (r: Option<Json>)
    ensures Nullish(o) ==> r == p
    ensures !Nullish(o) ==> r == o
  {
    if Nullish(o) then p else o
  }

  /** `o || d`. */
  function Or(o: Option<Json>, d: Json): (r: Json)
    ensures Truthy(o) ==> r == o.value
    ensures !Truthy(o) ==> r == d
  {
    if Truthy(o) then o.value else d
  }

  /** `typeof o === 'string'`. */
  predicate IsStr(o: Option<Json>) {
    o.Some? && o.value.JStr?
  }

  /** `typeof o === 'number'`. */
  predicate IsNum(o: Option<Json>) {
    o.Some? && o.value.JNum?
  }

  /** `Array.isArray(o)`. */
  predicate IsArr(o: Option<Json>) {
    o.Some? && o.value.JArr?
  }

  /** `typeof o === 'object'` (true of `null` and of arrays too). */
  predicate TypeofObject(o: Option<Json>) {
    o.Some? && (o.value.JNull? || o.value.JArr? || o.value.JObj?)
  }

  /** `typeof o === 'object' && o !== null`. */
  predicate IsObjectLike(o: Option<Json>) {
    o.Some? && (o.value.JArr? || o.value.JObj?)
  }

  /** The empty object `{}` and the empty array `[]`. */
  const EMPTY_OBJECT: Json := JObj(map[])
  const EMPTY_ARRAY: Json := JArr([])

  /** `String(v)` (also what a template literal `${v}` produces). */
  function ToText(v: Json): string {
    match v
    case JNull => "null"
    case JBool(b) => if b then "true" else "false"
    case JNum(n) => IntToText(n)
    case JStr(s) => s
    case JArr(items) => Join(ElementTexts(items), ",")
    case JObj(_) => "[object Object]"
  }

  /** The element strings `Array.prototype.join` uses: `null` becomes ''. */
  function ElementTexts(items: seq<Json>): (r: seq<string>)
    ensures |r| == |items|
  {
    if items == [] then []
    else [if items[0].JNull? then "" else ToText(items[0])] + ElementTexts(items[1..])
  }

  /** The array of the strings `ss`. */
  function Strings(ss: seq<string>): (r: Json)
    ensures r.JArr? && |r.items| == |ss|
    ensures forall i :: 0 <= i < |ss| ==> r.items[i] == JStr(ss[i])
  {
    JArr(seq(|ss|, i requires 0 <= i < |ss| => JStr(ss[i])))
  }

  /** `{...m, [k]: o}` when `o` may be `undefined` (an undefined property
      disappears once the object is stored as JSON). */
  function Put(m: map<string, Json>, k: string, o: Option<Json>): (r: map<string, Json>)
    ensures o.Some? ==> r == m[k := o.value]
    ensures o.None? ==> r == m
  {
    if o.Some? then m[k := o.value] else m
  }

  /** `items.map(f)` where `f` may throw (`None`): the whole map throws as soon
      as one element does. */
  function MapAll(items: seq<Json>, f: Json -> Option<Json>): (r: Option<seq<Json>>)
    ensures r.Some? <==> forall i :: 0 <= i < |items| ==> f(items[i]).Some?
    ensures r.Some? ==> |r.value| == |items|
    ensures r.Some? ==> forall i :: 0 <= i < |items| ==> r.value[i] == f(items[i]).value
  {
    if items == [] then Some([])
    else
      match f(items[0])
      case None => None
      case Some(y) =>
        match MapAll(items[1..], f)
        case None => None
        case Some(ys) => Some([y] + ys)
  }
}
