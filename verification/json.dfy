/** JSON values as the Python handlers see them after decoding, together with
    the dictionary idioms the handlers use on them: `d.get(k, default)`,
    truthiness tests, and `.get(k, {})` chains that raise when the value found
    is not a dictionary. JSON numbers with a fraction are not modelled. */
module JsonValues {
  import opened Wrappers

  datatype Json =
    | JNull
    | JBool(b: bool)
    | JInt(i: int)
    | JStr(s: string)
    | JArr(items: seq<Json>)
    | JObj(fields: map<string, Json>)

  /** A decoded JSON object, i.e. a Python dict with string keys. */
  type Object = map<string, Json>

  /** Python's `bool(v)`: null, false, 0 and empty containers are false. */
  predicate Truthy(j: Json) {
    match j
    case JNull => false
    case JBool(b) => b
    case JInt(i) => i != 0
    case JStr(s) => |s| > 0
    case JArr(a) => |a| > 0
    case JObj(m) => |m| > 0
  }

  /** `d.get(k, default)`: the default is used only when the key is absent,
      never when the key is present with a null or empty value. */
  function GetOr(m: Object, k: string, default: Json): Json {
    if k in m then m[k] else default
  }

  /** `d.get(k)`, which yields None for an absent key. */
  function Get(m: Object, k: string): Json {
    GetOr(m, k, JNull)
  }

  /** Using `v` as a dict: anything but an object raises AttributeError. */
  function AsObject(v: Json, what: string): (r: Result<Object>)
    ensures r.Success? <==> v.JObj?
    ensures r.Success? ==> r.value == v.fields
  {
    match v
    case JObj(m) => Success(m)
    case _ => Failure("AttributeError: " + what + " is not a dict")
  }

  /** `d.get(k, {})` followed by a further `.get`: an absent key reads as an
      empty dict, a present non-object value raises. */
  function SubObject(m: Object, k: string): (r: Result<Object>)
    ensures k !in m ==> r == Success(map[])
    ensures k in m ==> (r.Success? <==> m[k].JObj?)
    ensures k in m && r.Success? ==> r.value == m[k].fields
  {
    if k in m then AsObject(m[k], k) else Success(map[])
  }

  /** `m[k] = v` performed only when `v` is truthy, the rule the composers
      use for keys the provider treats as meaningful when present. */
  function PutIfTruthy(m: Object, k: string, v: Json): (r: Object)
    ensures k in r <==> k in m || Truthy(v)
    ensures Truthy(v) ==> r[k] == v
    ensures !Truthy(v) ==> r == m
    ensures forall j :: j != k ==> (j in r <==> j in m)
    ensures forall j :: j in m && j != k ==> r[j] == m[j]
  {
    if Truthy(v) then m[k := v] else m
  }
}
