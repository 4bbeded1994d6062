/** The values `JSON.parse` can return, and the two JavaScript coercions the settings code
    applies to them: truthiness (`x || d`, `if (x)`) and nullishness (`x ?? d`).
    The JSON text syntax itself is not modelled: what `JSON.parse` returns is an input. */
module JsonValue {
  import opened Wrappers

  /** A parsed JSON value. Numbers are integers here. */
  datatype Json =
    | JNull
    | JBool(b: bool)
    | JNum(n: int)
    | JStr(s: string)
    | JArr(items: seq<Json>)
    | JObj(fields: map<string, Json>)

  /** What `JSON.parse(text)` did: returned a value, or threw. */
  datatype ParseOutcome = Parsed(value: Json) | Throws

  /** JavaScript's ToBoolean on a JSON value. */
  predicate Truthy(j: Json) {
    match j
    case JNull => false
    case JBool(b) => b
    case JNum(n) => n != 0
    case JStr(s) => s != ""
    case JArr(_) => true
    case JObj(_) => true
  }

  /** `obj[key]`: `None` is `undefined`. */
  function Field(fields: map<string, Json>, key: string): (r: Option<Json>)
    ensures r.Some? <==> key in fields
    ensures r.Some? ==> r.value == fields[key]
  {
    if key in fields then Some(fields[key]) else None
  }

  /** `typeof obj[key] === 'number'`. */
  predicate IsNumberField(fields: map<string, Json>, key: string) {
    key in fields && fields[key].JNum?
  }

  /** `value || fallback`. */
  function OrElse(value: Option<Json>, fallback: Json): (r: Json)
    ensures value.Some? && Truthy(value.value) ==> r == value.value
    ensures (value.None? || !Truthy(value.value)) ==> r == fallback
  {
    if value.Some? && Truthy(value.value) then value.value else fallback
  }

  /** `value ?? fallback`, read as a flag: `null` and `undefined` give the fallback, any other
      value is kept and later used for its truthiness. */
  function FlagOr(value: Option<Json>, fallback: bool): (r: bool)
    ensures value == None || value == Some(JNull) ==> r == fallback
    ensures value == Some(JBool(true)) ==> r
    ensures value == Some(JBool(false)) ==> !r
  {
    match value
    case None => fallback
    case Some(JNull) => fallback
    case Some(v) => Truthy(v)
  }
}
