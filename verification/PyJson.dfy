/**
 * Decoded JSON values as the client and the forwarder see them after `json.loads`,
 * with the Python operations applied to them: `==` against an int, truthiness,
 * `int(x)`, `str(x)`, `dict.get`, subscripting and hashing.
 */
module PyJson {
  import opened Wrappers
  import opened PyText

  datatype Json =
    | JNull
    | JBool(b: bool)
    | JInt(i: int)
    | JStr(s: string)
    | JArr(items: seq<Json>)
    | JObj(fields: map<string, Json>)

  /** The integer a value equals under Python's `==`: `bool` is a subclass of `int`. */
  function NumberValue(j: Json): Option<int> {
    match j
    case JInt(n) => Some(n)
    case JBool(b) => Some(if b then 1 else 0)
    case _ => None
  }

  /** Python truthiness (`if x:`). */
  predicate Truthy(j: Json) {
    match j
    case JNull => false
    case JBool(b) => b
    case JInt(n) => n != 0
    case JStr(s) => s != ""
    case JArr(xs) => xs != []
    case JObj(m) => m != map[]
  }

  /** `int(x)`; `None` stands for the `ValueError` or `TypeError` it raises. */
  function PyInt(j: Json): Option<int> {
    match j
    case JInt(n) => Some(n)
    case JBool(b) => Some(if b then 1 else 0)
    case JStr(s) => ParseInt(s)
    case _ => None
  }

  /** `str(x)` for scalar values; arrays and objects are outside the model (`None`). */
  function PyStr(j: Json): Option<string> {
    match j
    case JNull => Some("None")
    case JBool(b) => Some(if b then "True" else "False")
    case JInt(n) => Some(IntToString(n))
    case JStr(s) => Some(s)
    case _ => None
  }

  /** Whatever `int()` accepts also has a `str()` in the model. */
  lemma PyIntHasPyStr(j: Json)
    requires PyInt(j).Some?
    ensures PyStr(j).Some?
  {
  }

  /** An integer id survives `str` then `int`: what a subscription stores, replay can send again. */
  lemma PyStrPyIntRoundTrip(n: int)
    ensures PyStr(JInt(n)).Some? && PyInt(JStr(PyStr(JInt(n)).value)) == Some(n)
  {
    IntToStringRoundTrip(n);
  }

  /** `x.get(key, default)`; `None` when `x` is not a dict (`AttributeError`). */
  function Get(j: Json, key: string, default: Json): (r: Option<Json>)
    ensures r.Some? <==> j.JObj?
    ensures j.JObj? && key !in j.fields ==> r == Some(default)
  {
    match j
    case JObj(m) => Some(if key in m then m[key] else default)
    case _ => None
  }

  /** `x[key]` with a string key; `None` when it raises (`KeyError`, `TypeError`). */
  function Subscript(j: Json, key: string): (r: Option<Json>)
    ensures r.Some? <==> j.JObj? && key in j.fields
  {
    match j
    case JObj(m) => if key in m then Some(m[key]) else None
    case _ => None
  }

  /** `x[0]`; JSON object keys are strings, so a dict never has the key 0. */
  function First(j: Json): (r: Option<Json>)
    ensures r.Some? <==> (j.JArr? && j.items != []) || (j.JStr? && j.s != "")
  {
    match j
    case JArr(xs) => if xs == [] then None else Some(xs[0])
    case JStr(s) => if s == "" then None else Some(JStr([s[0]]))
    case _ => None
  }

  /** Lists and dicts cannot be dict keys or set members. */
  predicate Hashable(j: Json) {
    !j.JArr? && !j.JObj?
  }

  /** Python `==` between two hashable values. */
  predicate PyEq(a: Json, b: Json)
    requires Hashable(a) && Hashable(b)
  {
    if NumberValue(a).Some? && NumberValue(b).Some? then NumberValue(a) == NumberValue(b)
    else a == b
  }

  /** The dict key a hashable value stands for: `True` and `1` are the same key. */
  function KeyOf(j: Json): (k: Json)
    requires Hashable(j)
    ensures Hashable(k) && !k.JBool?
  {
    match j
    case JBool(b) => JInt(if b then 1 else 0)
    case _ => j
  }

  /** Two hashable values select the same dict entry exactly when Python calls them equal. */
  lemma KeyOfIsPyEq(a: Json, b: Json)
    requires Hashable(a) && Hashable(b)
    ensures KeyOf(a) == KeyOf(b) <==> PyEq(a, b)
  {
  }
}
