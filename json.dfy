/**
 * JSON values as `JSON.parse` produces them, with JavaScript's truthiness and
 * property access. Numbers are integers here; objects keep their members in
 * order, and on a repeated name the later member wins, as in `JSON.parse`.
 */
module Json {
  import opened Wrappers

  datatype Json =
    | JNull
    | JBool(b: bool)
    | JNum(n: int)
    | JStr(s: string)
    | JArr(items: seq<Json>)
    | JObj(members: seq<(string, Json)>)

  /** `!!v`: `null`, `false`, `0` and `""` are falsy; arrays and objects, even empty ones, are truthy. */
  predicate Truthy(v: Json) {
    match v
    case JNull => false
    case JBool(b) => b
    case JNum(n) => n != 0
    case JStr(s) => s != ""
    case JArr(_) => true
    case JObj(_) => true
  }

  /** The value of the last member called `name`, if any. */
  function Lookup(members: seq<(string, Json)>, name: string): (r: Option<Json>)
    ensures r.Some? ==> exists i :: 0 <= i < |members| && members[i] == (name, r.value)
                                 && forall j :: i < j < |members| ==> members[j].0 != name
    ensures r.None? ==> forall i :: 0 <= i < |members| ==> members[i].0 != name
    decreases |members|
  {
    if members == [] then None
    else if members[|members| - 1].0 == name then Some(members[|members| - 1].1)
    else Lookup(members[..|members| - 1], name)
  }

  /**
   * `v.name` for a value that is not `null`: a member of an object, and
   * `undefined` (None) on arrays, strings, numbers and booleans.
   */
  function Property(v: Json, name: string): Option<Json>
    requires !v.JNull?
  {
    if v.JObj? then Lookup(v.members, name) else None
  }

  /** `undefined` is falsy too. */
  predicate TruthyProperty(v: Json, name: string)
    requires !v.JNull?
  {
    var p := Property(v, name);
    p.Some? && Truthy(p.value)
  }
}
