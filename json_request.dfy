/**
 * What the POST handlers see of a request: the parsed JSON body, JavaScript's
 * truthiness and `typeof`, the destructuring of named fields out of the body,
 * and the JSON response they answer with.
 */
module JsonRequest {
  import opened Basics
  import opened Text

  /** A JSON value as JavaScript holds it; `Undefined` is a field that is absent. */
  datatype JsValue =
    | Undefined
    | Null
    | Bool(b: bool)
    | Number(n: real)
    | Str(s: string)
    | Array(items: seq<JsValue>)
    | Object(fields: map<string, JsValue>)

  /** JavaScript truthiness: `undefined`, `null`, `false`, `0` and `""` are falsy; arrays and objects are truthy. */
  predicate Truthy(v: JsValue)
  {
    match v
    case Undefined => false
    case Null => false
    case Bool(b) => b
    case Number(n) => n != 0.0
    case Str(s) => s != ""
    case Array(_) => true
    case Object(_) => true
  }

  /** Destructuring reads fields of anything except `null` and `undefined`, which throw. */
  predicate Destructurable(body: JsValue)
  {
    !body.Null? && !body.Undefined?
  }

  /** `const { key } = body`: the field of an object, `undefined` when absent or when the body is not an object. */
  function Field(body: JsValue, key: string): (v: JsValue)
    requires Destructurable(body)
    ensures body.Object? && key in body.fields ==> v == body.fields[key]
    ensures !(body.Object? && key in body.fields) ==> v.Undefined?
  {
    if body.Object? && key in body.fields then body.fields[key] else Undefined
  }

  /** The `TypeError` destructuring throws for a `null` body (V8's wording). */
  function DestructureError(body: JsValue, firstKey: string): string
  {
    "Cannot destructure property '" + firstKey + "' of 'body' as it is "
      + (if body.Null? then "null" else "undefined") + "."
  }

  /** `error.message || fallback`. */
  function ThrownMessage(message: string, fallback: string): (m: string)
    ensures m != ""  || fallback == ""
    ensures message != "" ==> m == message
    ensures message == "" ==> m == fallback
  {
    if message != "" then message else fallback
  }

  /** `NextResponse.json({ success, data | error }, { status })`. */
  datatype Response<D> = Response(status: int, success: bool, error: Option<string>, data: Option<D>)

  function Failure<D>(status: int, message: string): (r: Response<D>)
    ensures !r.success && r.status == status && r.error == Some(message) && r.data.None?
  {
    Response(status, false, Some(message), None)
  }

  function Success<D>(status: int, data: D): (r: Response<D>)
    ensures r.success && r.status == status && r.error.None? && r.data == Some(data)
  {
    Response(status, true, None, Some(data))
  }

  /** `typeof v === 'string' && v.trim().length > 0`. */
  predicate NonBlankString(v: JsValue)
  {
    v.Str? && |Trim(v.s)| != 0
  }

  /** `typeof v === 'string' && v.includes('@')`. */
  predicate EmailLike(v: JsValue)
  {
    v.Str? && Includes(v.s, "@")
  }

  /** A non-blank string is a string with a character other than whitespace. */
  lemma NonBlankStringIff(v: JsValue)
    ensures NonBlankString(v) <==> v.Str? && !IsBlank(v.s)
  {
    if v.Str? {
      TrimEmptyIffBlank(v.s);
    }
  }
}
