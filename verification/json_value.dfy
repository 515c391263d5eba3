/**
 * The untyped JSON values a webhook payload carries (`data: any` in the
 * service), with the few JavaScript operations the handlers apply to them:
 * truthiness, optional member access, template-literal rendering and object
 * spread. Numbers are integers (amounts are minor currency units).
 */
module JsonValue {
  import opened Wrappers
  import JsText

  datatype Json =
    | JNull
    | JBool(b: bool)
    | JNum(n: int)
    | JStr(s: string)
    | JObj(fields: map<string, Json>)

  /** JavaScript truthiness of a value that may be `undefined`. */
  predicate Truthy(v: Option<Json>) {
    match v
    case None => false
    case Some(JNull) => false
    case Some(JBool(b)) => b
    case Some(JNum(n)) => n != 0
    case Some(JStr(s)) => s != ""
    case Some(JObj(_)) => true
  }

  /** `a || b`: the first operand when it is truthy, the second otherwise. */
  function Or(a: Option<Json>, b: Option<Json>): (r: Option<Json>)
    ensures Truthy(a) ==> r == a
    ensures !Truthy(a) ==> r == b
  {
    if Truthy(a) then a else b
  }

  /** `v.k` on a non-nullish value: only objects have members. */
  function Get(v: Json, k: string): (r: Option<Json>)
    ensures r.Some? <==> v.JObj? && k in v.fields
    ensures r.Some? ==> r.value == v.fields[k]
  {
    if v.JObj? && k in v.fields then Some(v.fields[k]) else None
  }

  /** `v?.k`: `undefined` when `v` is `null` or `undefined`. */
  function GetOpt(v: Option<Json>, k: string): (r: Option<Json>)
    ensures v.None? || v == Some(JNull) ==> r.None?
    ensures v.Some? ==> r == Get(v.value, k)
  {
    if v.Some? then Get(v.value, k) else None
  }

  /** `${v}` inside a template literal. */
  function Interp(v: Option<Json>): (r: string)
    ensures v.Some? && v.value.JStr? ==> r == v.value.s
    ensures v.None? ==> r == "undefined"
    ensures v.Some? && v.value.JNum? ==> r == JsText.Decimal(v.value.n)
  {
    match v
    case None => "undefined"
    case Some(JNull) => "null"
    case Some(JBool(b)) => if b then "true" else "false"
    case Some(JNum(n)) => JsText.Decimal(n)
    case Some(JStr(s)) => s
    case Some(JObj(_)) => "[object Object]"
  }

  /** The own members `{...v}` copies: those of an object, none for anything else. */
  function Spread(v: Option<Json>): (m: map<string, Json>)
    ensures v.Some? && v.value.JObj? ==> m == v.value.fields
    ensures !(v.Some? && v.value.JObj?) ==> m == map[]
  {
    if v.Some? && v.value.JObj? then v.value.fields else map[]
  }

  /**
   * The persisted effect of `{...m, k: v}` in a JSON column: the key takes
   * the value, or disappears when the value is `undefined`, since
   * serialisation drops `undefined` members.
   */
  function SetField(m: map<string, Json>, k: string, v: Option<Json>): (r: map<string, Json>)
    ensures k in r <==> v.Some?
    ensures v.Some? ==> r[k] == v.value
    ensures forall j :: j != k ==> (j in r <==> j in m)
    ensures forall j :: j != k && j in m ==> r[j] == m[j]
  {
    if v.Some? then m[k := v.value] else m - {k}
  }
}
