/** Decoded JSON values as the planner sees them after the provider SDK has
    parsed a response, with the few Python operations the planner applies
    to them: truthiness, `or {}`, `dict.get`, the `in` operator and
    iteration. */
module JsonValues {
  import opened Wrappers
  import opened Text

  /** A decoded JSON value. Objects are Python dicts: unique keys. */
  datatype Json =
    | JNull
    | JBool(b: bool)
    | JNum(n: real)
    | JStr(s: string)
    | JArr(items: seq<Json>)
    | JObj(fields: map<string, Json>)

  const EmptyObject: Json := JObj(map[])

  /** Python truthiness: `None`, `False`, zero and empty containers are falsy. */
  predicate Truthy(j: Json) {
    match j
    case JNull => false
    case JBool(b) => b
    case JNum(n) => n != 0.0
    case JStr(s) => |s| > 0
    case JArr(items) => |items| > 0
    case JObj(fields) => |fields| > 0
  }

  /** `j or {}`: a falsy value is replaced by the empty object. */
  function OrEmptyObject(j: Json): (r: Json)
    ensures Truthy(j) ==> r == j
    ensures !Truthy(j) ==> r == EmptyObject
  {
    if Truthy(j) then j else EmptyObject
  }

  /** The value under `key` of an object, `None` (here `JNull`) when the
      key is absent or `j` is not an object. */
  function Member(j: Json, key: string): Json {
    if j.JObj? && key in j.fields then j.fields[key] else JNull
  }

  /** `j.get(key, default)`; `None` where Python raises AttributeError
      because `j` is not a dict. */
  function GetOr(j: Json, key: string, default: Json): (r: Option<Json>)
    ensures r.Some? <==> j.JObj?
    ensures j.JObj? && key in j.fields ==> r == Some(j.fields[key])
    ensures j.JObj? && key !in j.fields ==> r == Some(default)
  {
    match j
    case JObj(fields) => Some(if key in fields then fields[key] else default)
    case _ => None
  }

  /** `j.get(key)`: the default is `None`. */
  function Get(j: Json, key: string): (r: Option<Json>)
    ensures r.Some? <==> j.JObj?
    ensures j.JObj? ==> r == Some(Member(j, key))
  {
    GetOr(j, key, JNull)
  }

  /** `needle in container` for a str needle: key test on a dict, substring
      test on a str, element equality on a list; `None` where Python raises
      TypeError (`None`, bools and numbers are not containers). */
  function Contains(container: Json, needle: string): (r: Option<bool>)
    ensures container.JObj? ==> r == Some(needle in container.fields)
    ensures container.JNull? || container.JBool? || container.JNum? ==> r == None
  {
    match container
    case JObj(fields) => Some(needle in fields)
    case JStr(s) => Some(IsSubstring(needle, s))
    case JArr(items) => Some(JStr(needle) in items)
    case _ => None
  }

  /** What iterating a str visits: its one-character strs. */
  function Chars(s: string): (r: seq<Json>)
    ensures |r| == |s|
    ensures forall i :: 0 <= i < |s| ==> r[i] == JStr([s[i]])
  {
    seq(|s|, i requires 0 <= i < |s| => JStr([s[i]]))
  }
}
