/** The JSON values the backend receives from the model's reply, and the
    parts of Python and pydantic (v2, lax mode) that the response parsers
    apply to them: `key in value`, `dict.get(key, default)`, iteration
    followed by `.get`, and the validation of `str` and `int` fields. */
module Json {
  import opened Wrappers
  import opened Text

  /** A value `json.loads` can return. Numbers are kept exact; an integer
      and the float with the same value are the same number here. */
  datatype Json =
    | JNull
    | JBool(b: bool)
    | JNum(n: real)
    | JStr(s: string)
    | JArr(elems: seq<Json>)
    | JObj(fields: map<string, Json>)

  /** Python's `key in value`: a key test on a dict, an equality test on a
      list's elements, a substring test on a string; `None` when Python
      raises `TypeError` (null, booleans and numbers are not containers). */
  function Contains(value: Json, key: string): (r: Option<bool>)
    ensures r.None? <==> value.JNull? || value.JBool? || value.JNum?
    ensures value.JObj? ==> r == Some(key in value.fields)
    ensures value.JArr? ==> r == Some(JStr(key) in value.elems)
    ensures value.JStr? ==> r == Some(IsInfix(key, value.s))
  {
    match value
    case JObj(m) => Some(key in m)
    case JArr(xs) => Some(JStr(key) in xs)
    case JStr(s) => Some(IsInfix(key, s))
    case _ => None
  }

  /** Python's `d.get(key, default)`. */
  function Get(d: map<string, Json>, key: string, default: Json): (r: Json)
    ensures key in d ==> r == d[key]
    ensures key !in d ==> r == default
  {
    if key in d then d[key] else default
  }

  /** Pydantic's validation of a `str` field: only a string is accepted. */
  function AsStr(v: Json): (r: Option<string>)
    ensures r.Some? <==> v.JStr?
    ensures r.Some? ==> r.value == v.s
  {
    if v.JStr? then Some(v.s) else None
  }

  /** Pydantic's lax validation of an `int` field: a number without a
      fractional part, or a boolean (as 0 or 1). */
  function AsInt(v: Json): (r: Option<int>)
    ensures v.JNum? ==> (r.Some? <==> v.n.Floor as real == v.n)
    ensures r.Some? && v.JNum? ==> r.value as real == v.n
    ensures v.JBool? ==> r == Some(if v.b then 1 else 0)
    ensures !v.JNum? && !v.JBool? ==> r.None?
  {
    match v
    case JNum(x) => if x.Floor as real == x then Some(x.Floor) else None
    case JBool(b) => Some(if b then 1 else 0)
    case _ => None
  }

  /** Pydantic's validation of a `List[int]` field. */
  function AsIntList(v: Json): (r: Option<seq<int>>)
    ensures r.Some? <==> v.JArr? && forall k :: 0 <= k < |v.elems| ==> AsInt(v.elems[k]).Some?
    ensures r.Some? ==> |r.value| == |v.elems|
    ensures r.Some? ==> forall k :: 0 <= k < |v.elems| ==> AsInt(v.elems[k]) == Some(r.value[k])
  {
    if v.JArr? then Traverse(v.elems, AsInt) else None
  }

  /** `for x in value:` followed by `x.get(...)` on every element: the
      elements as dicts, or `None` when Python raises. Iterating a dict or a
      string yields strings, which have no `.get`, so only an empty one gets
      through; null, booleans and numbers are not iterable at all. */
  function Dicts(value: Json): (r: Option<seq<map<string, Json>>>)
    ensures value.JArr? ==> (r.Some? <==> forall k :: 0 <= k < |value.elems| ==> value.elems[k].JObj?)
    ensures value.JArr? && r.Some? ==>
      |r.value| == |value.elems| && forall k :: 0 <= k < |r.value| ==> value.elems[k] == JObj(r.value[k])
    ensures value.JObj? ==> (r.Some? <==> value.fields == map[])
    ensures value.JStr? ==> (r.Some? <==> value.s == "")
    ensures value.JNull? || value.JBool? || value.JNum? ==> r.None?
    ensures r.Some? && !value.JArr? ==> r.value == []
  {
    match value
    case JArr(xs) => Traverse(xs, AsDict)
    case JObj(m) => if m == map[] then Some([]) else None
    case JStr(s) => if s == "" then Some([]) else None
    case _ => None
  }

  function AsDict(v: Json): (r: Option<map<string, Json>>)
    ensures r.Some? <==> v.JObj?
    ensures r.Some? ==> v == JObj(r.value)
  {
    if v.JObj? then Some(v.fields) else None
  }

  /** The value a pydantic `str` field receives from keyword arguments `kw`:
      the argument when given (it must be a string), otherwise the field's
      default, where `None` means the field is required. */
  function StrField(kw: map<string, Json>, name: string, default: Option<string>): (r: Option<string>)
    ensures name in kw ==> r == AsStr(kw[name])
    ensures name !in kw ==> r == default
  {
    if name in kw then AsStr(kw[name]) else default
  }
}
