/** The JSON values the client reads from reply bodies, and the Python
    operations it applies to them. Numbers are integers only. */
module Json {

  datatype Json =
    | JNull
    | JBool(b: bool)
    | JInt(i: int)
    | JStr(s: string)
    | JArr(items: seq<Json>)
    | JObj(fields: map<string, Json>)

  /** Python truthiness: None, False, 0, "", [] and {} are false. */
  predicate Truthy(j: Json) {
    match j
    case JNull => false
    case JBool(b) => b
    case JInt(i) => i != 0
    case JStr(s) => s != ""
    case JArr(items) => items != []
    case JObj(fields) => fields != map[]
  }

  /** `d.get(key, default)` on a dict. */
  function Get(d: map<string, Json>, key: string, default: Json): Json {
    if key in d then d[key] else default
  }

  /** A list of strings as a JSON array. */
  function StrArray(xs: seq<string>): (j: Json)
    ensures j.JArr? && |j.items| == |xs|
    ensures forall i | 0 <= i < |xs| :: j.items[i] == JStr(xs[i])
  {
    JArr(seq(|xs|, i requires 0 <= i < |xs| => JStr(xs[i])))
  }

  /** A list of integers as a JSON array. */
  function IntArray(xs: seq<int>): (j: Json)
    ensures j.JArr? && |j.items| == |xs|
    ensures forall i | 0 <= i < |xs| :: j.items[i] == JInt(xs[i])
  {
    JArr(seq(|xs|, i requires 0 <= i < |xs| => JInt(xs[i])))
  }
}
