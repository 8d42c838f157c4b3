/** The JSON-like Python values (dicts, lists, strings, numbers, None) that
    flow between the LLM, the tools and the response envelopes. */
module Json {
  import opened Wrappers

  datatype Json =
    | JNull
    | JBool(b: bool)
    | JNum(n: real)
    | JStr(s: string)
    | JArr(items: seq<Json>)
    | JObj(fields: map<string, Json>)

  /** Python truthiness: None, False, 0, "", [] and {} are falsy. */
  predicate Truthy(j: Json) {
    match j
    case JNull => false
    case JBool(b) => b
    case JNum(n) => n != 0.0
    case JStr(s) => s != ""
    case JArr(a) => a != []
    case JObj(f) => f != map[]
  }

  /** Python's `len`: defined on strings, lists and dicts; a sized value is
      truthy exactly when it is non-empty. */
  function Len(j: Json): (n: Option<nat>)
    ensures n.Some? <==> j.JStr? || j.JArr? || j.JObj?
    ensures n.Some? ==> (Truthy(j) <==> n.value > 0)
  {
    match j
    case JStr(s) => Some(|s|)
    case JArr(a) => Some(|a|)
    case JObj(f) => Some(|f|)
    case _ => None
  }

  /** `d.get(key, default)` on a dict. */
  function Get(d: map<string, Json>, key: string, default: Json): Json {
    if key in d then d[key] else default
  }

  /** A value Python can put in a set or use as a dict key: lists and dicts
      cannot be hashed. */
  predicate Hashable(j: Json) {
    !j.JArr? && !j.JObj?
  }

  /** The value a set compares a hashable value by: `True` and `False` are
      equal to (and hash like) 1 and 0. */
  function HashKey(j: Json): (k: Json)
    ensures !k.JBool?
    ensures !j.JBool? ==> k == j
  {
    match j
    case JBool(b) => JNum(if b then 1.0 else 0.0)
    case _ => j
  }

  /** An abstract JSON parser (`json.loads`): None stands for a decode error. */
  type Parser = string -> Option<Json>
}
