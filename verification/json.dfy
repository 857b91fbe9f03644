/** JavaScript values as the program sees them after `res.json()`: JSON data,
    with `undefined` (a missing property) written `None`. The operators the
    code relies on are given their JavaScript meaning: optional chaining
    (`?.`), truthiness, `||`, `??`, `Array.isArray`, `find` and `String(...)`, which
    throws for an object carrying its own `toString` property. */
module Json {
  import opened Wrappers
  import Text

  /** A JSON value. Numbers are integers; floating point is not part of this
      model. An object is a map from property names to values. */
  datatype Json =
    | JNull
    | JBool(b: bool)
    | JNum(n: int)
    | JStr(s: string)
    | JArr(items: seq<Json>)
    | JObj(fields: map<string, Json>)

  /** `!!v`: `undefined`, `null`, `false`, `0` and `""` are falsy. */
  predicate Truthy(v: Option<Json>) {
    match v
    case None => false
    case Some(JNull) => false
    case Some(JBool(b)) => b
    case Some(JNum(n)) => n != 0
    case Some(JStr(s)) => s != ""
    case Some(_) => true
  }

  /** `undefined` or `null`: the only values `??` and `?.` skip. */
  predicate Nullish(v: Option<Json>) {
    v == None || v == Some(JNull)
  }

  /** `a || b`. */
  function Or(a: Option<Json>, b: Option<Json>): Option<Json> {
    if Truthy(a) then a else b
  }

  /** `a ?? b`. */
  function Coalesce(a: Option<Json>, b: Option<Json>): Option<Json> {
    if Nullish(a) then b else a
  }

  /** `v?.[key]` for a property name. Only objects carry named properties
      in the projections the program makes. */
  function Get(v: Option<Json>, key: string): Option<Json> {
    match v
    case Some(JObj(fields)) => if key in fields then Some(fields[key]) else None
    case _ => None
  }

  /** `v?.[i]` for a numeric index: an array element, a one-character string,
      or the property named by the decimal index of an object. */
  function At(v: Option<Json>, i: nat): Option<Json> {
    match v
    case Some(JArr(items)) => if i < |items| then Some(items[i]) else None
    case Some(JStr(s)) => if i < |s| then Some(JStr([s[i]])) else None
    case Some(JObj(_)) => Get(v, Text.NatToString(i))
    case _ => None
  }

  /** `Array.isArray(v) ? v : []`. */
  function ArrayOrEmpty(v: Option<Json>): seq<Json> {
    match v
    case Some(JArr(items)) => items
    case _ => []
  }

  predicate IsString(v: Option<Json>, s: string) {
    v == Some(JStr(s))
  }

  /** Whether `String(j)` returns. A parsed object has no callable
      `toString` of its own to use, so an own `"toString"` property (never a
      function in JSON data) makes the conversion throw a TypeError; an array
      converts its non-null elements, so one such element makes it throw
      too. */
  predicate Stringable(j: Json) {
    match j
    case JArr(items) => forall i | 0 <= i < |items| :: items[i] == JNull || Stringable(items[i])
    case JObj(fields) => "toString" !in fields
    case _ => true
  }

  /** The message of the TypeError a failed conversion throws. */
  const ConversionError: string := "Cannot convert object to primitive value"

  /** `String(j)` as a computation that may throw. */
  function ToText(j: Json): (r: Result<string, string>)
    ensures r.Success? <==> Stringable(j)
    ensures r.Success? ==> r.value == JsString(j)
    ensures r.Failure? ==> r.error == ConversionError
  {
    if Stringable(j) then Success(JsString(j)) else Failure(ConversionError)
  }

  /** `String(j)` when it returns, also what a template literal inserts for
      `j`. */
  function JsString(j: Json): string {
    match j
    case JNull => "null"
    case JBool(b) => if b then "true" else "false"
    case JNum(n) => Text.IntToString(n)
    case JStr(s) => s
    case JArr(items) =>
      JoinWithCommas(seq(|items|, i requires 0 <= i < |items| =>
        if items[i] == JNull then "" else JsString(items[i])))
    case JObj(_) => "[object Object]"
  }

  /** Whether `String(v)` returns, where `v` may be `undefined`. */
  predicate ValueStringable(v: Option<Json>) {
    v.None? || Stringable(v.value)
  }

  /** `String(v)` where `v` may be `undefined`, when it returns. */
  function ValueString(v: Option<Json>): string {
    match v
    case None => "undefined"
    case Some(j) => JsString(j)
  }

  /** `String(v)` where `v` may be `undefined`, as a computation that may
      throw. */
  function ValueToText(v: Option<Json>): (r: Result<string, string>)
    ensures r.Success? <==> ValueStringable(v)
    ensures r.Success? ==> r.value == ValueString(v)
    ensures r.Failure? ==> r.error == ConversionError
  {
    match v
    case None => Success("undefined")
    case Some(j) => ToText(j)
  }

  function JoinWithCommas(parts: seq<string>): string {
    if parts == [] then ""
    else if |parts| == 1 then parts[0]
    else parts[0] + "," + JoinWithCommas(parts[1..])
  }

  /** `items.find(i => i?.[key] === value)`: the first element whose property
      `key` is exactly the string `value`, or `undefined`. */
  function FindByString(items: seq<Json>, key: string, value: string): (r: Option<Json>)
    ensures r == None <==> forall i | 0 <= i < |items| :: !IsString(Get(Some(items[i]), key), value)
    ensures r != None ==> exists i :: (0 <= i < |items| && r == Some(items[i])
      && IsString(Get(Some(items[i]), key), value)
      && forall j | 0 <= j < i :: !IsString(Get(Some(items[j]), key), value))
  {
    if items == [] then None
    else if IsString(Get(Some(items[0]), key), value) then Some(items[0])
    else
      var r := FindByString(items[1..], key, value);
      assert forall i | 1 <= i < |items| :: items[i] == items[1..][i - 1];
      r
  }
}
