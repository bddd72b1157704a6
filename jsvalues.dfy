/**
 * The slice of JavaScript's dynamic values the core inspects: JSON-shaped
 * values, truthiness (what `!x` and `x || y` test), property reads that
 * throw on `null`/`undefined`, and what a `catch` block sees.
 * Numbers are integers here; NaN and fractions are not modelled.
 */
module JsValues {

  datatype JsValue =
    | Undefined
    | Null
    | Bool(b: bool)
    | Number(n: int)
    | Str(s: string)
    | Obj(fields: map<string, JsValue>)

  /** JavaScript truthiness: `undefined`, `null`, `false`, `0` and `""` are falsy. */
  predicate Truthy(v: JsValue) {
    match v
    case Undefined => false
    case Null => false
    case Bool(b) => b
    case Number(n) => n != 0
    case Str(s) => s != ""
    case Obj(_) => true
  }

  /** `a || b`. */
  function Or(a: JsValue, b: JsValue): JsValue {
    if Truthy(a) then a else b
  }

  datatype ErrorKind = TypeError | SyntaxError | OtherError

  /** A thrown value: an `Error` instance of some kind, or anything else. */
  datatype Thrown = ErrorObject(kind: ErrorKind, message: string) | NonError

  /** `error instanceof Error ? error.message : "Unknown error"`. */
  function MessageOf(e: Thrown): string {
    match e
    case ErrorObject(_, m) => m
    case NonError => "Unknown error"
  }

  /** The outcome of an expression that may throw. */
  datatype Eval = Value(v: JsValue) | Throws(e: Thrown)

  /**
   * `v[key]`: reading a property of `undefined` or `null` throws a TypeError;
   * a missing property of an object reads as `undefined`, and so does any
   * property of another primitive.
   */
  function Get(v: JsValue, key: string): (r: Eval)
    ensures r.Throws? <==> (v == Undefined || v == Null)
    ensures v.Obj? ==> r == Value(if key in v.fields then v.fields[key] else Undefined)
  {
    match v
    case Undefined => Throws(ErrorObject(TypeError, "Cannot read properties of undefined (reading '" + key + "')"))
    case Null => Throws(ErrorObject(TypeError, "Cannot read properties of null (reading '" + key + "')"))
    case Obj(fields) => Value(if key in fields then fields[key] else Undefined)
    case _ => Value(Undefined)
  }

  /** The own enumerable properties that `{ ...v }` copies (string spreading is not modelled). */
  function SpreadFields(v: JsValue): map<string, JsValue> {
    if v.Obj? then v.fields else map[]
  }

  /** The result of `JSON.parse` / `response.json()`: a value, or a SyntaxError. */
  datatype Parsed = Parsed(v: JsValue) | Malformed
}
