/** Dynamic JavaScript values as the route handlers and the API projection layer see them:
    parsed JSON request bodies, Prisma records and the objects built from them.
    Numbers are integers here; floating point is not modelled. */
module Js {

  datatype Option<+T> = None | Some(value: T)

  datatype Result<+T, +E> = Ok(value: T) | Err(error: E)

  /** A timestamp. Prisma `DateTime` columns hold `Date` objects; only the order of instants matters. */
  type Instant = int

  datatype Value =
    | Undefined
    | Null
    | Bool(b: bool)
    | Num(n: int)
    | Str(s: string)
    | Arr(items: seq<Value>)
    | Obj(fields: map<string, Value>)
      /** a `Date` object, which has a `toISOString` method */
    | Date(t: Instant)
      /** the string that `Date.prototype.toISOString` returns for instant `t` */
    | IsoText(t: Instant)

  /** `null` or `undefined`: the values on which `?.` and `??` short-circuit. */
  predicate Nullish(v: Value) {
    v.Undefined? || v.Null?
  }

  /** JavaScript truthiness (ECMAScript ToBoolean). */
  predicate Truthy(v: Value) {
    match v
    case Undefined => false
    case Null => false
    case Bool(b) => b
    case Num(n) => n != 0
    case Str(s) => s != ""
    case _ => true
  }

  /** A request field that is a string or absent, in a condition: present and not the empty string. */
  predicate Given(field: Option<string>) {
    field.Some? && field.value != ""
  }

  /** A request field that is a string or absent, as a value: its text, or `undefined`. */
  function Field(field: Option<string>): (r: Value)
    ensures field.None? ==> r == Undefined
    ensures field.Some? ==> r == Str(field.value)
    ensures Truthy(r) <==> Given(field)
  {
    if field.Some? then Str(field.value) else Undefined
  }

  /** `a || b` */
  function Or(a: Value, b: Value): (r: Value)
    ensures Truthy(a) ==> r == a
    ensures !Truthy(a) ==> r == b
    ensures Truthy(r) <==> Truthy(a) || Truthy(b)
  {
    if Truthy(a) then a else b
  }

  /** `a ?? b` */
  function Coalesce(a: Value, b: Value): (r: Value)
    ensures !Nullish(a) ==> r == a
    ensures Nullish(a) ==> r == b
    ensures Nullish(r) <==> Nullish(a) && Nullish(b)
  {
    if Nullish(a) then b else a
  }

  /** Property read `v.k` on a value that is not null or undefined: an own field of an object,
      `undefined` otherwise (none of the keys read here is a built-in property of the other kinds). */
  function Get(v: Value, k: string): (r: Value)
    ensures v.Obj? && k in v.fields ==> r == v.fields[k]
    ensures !(v.Obj? && k in v.fields) ==> r == Undefined
  {
    if v.Obj? && k in v.fields then v.fields[k] else Undefined
  }

  /** A `TypeError` thrown by the engine, with its V8 message. */
  datatype JsError =
    | ReadOfNullish(base: Value, key: string)
    | NotAFunction(callee: string)
    | Thrown(message: string)
  {
    function Message(): string {
      match this
      case ReadOfNullish(base, key) =>
        "Cannot read properties of " + (if base.Null? then "null" else "undefined") + " (reading '" + key + "')"
      case NotAFunction(callee) => callee + " is not a function"
      case Thrown(message) => message
    }
  }

  /** Property read `v.k`: throws on `null` and `undefined`. */
  function Read(v: Value, k: string): (r: Result<Value, JsError>)
    ensures r.Err? <==> Nullish(v)
    ensures r.Err? ==> r.error == ReadOfNullish(v, k)
    ensures r.Ok? ==> r.value == Get(v, k)
  {
    if Nullish(v) then Err(ReadOfNullish(v, k)) else Ok(Get(v, k))
  }

  /** Outcome of `JSON.parse`: the parsed value, or the `SyntaxError` it throws. */
  datatype ParseResult = Parsed(value: Value) | SyntaxError(message: string)

  /** `JSON.parse` and `JSON.stringify` are foreign calls: every operation that uses one takes it
      as a parameter and is proved for all of them. */
  type Parser = string -> ParseResult
  type Stringifier = Value -> string

  /** The response a route handler returns: a status code and a JSON body. */
  datatype Response = Response(status: int, body: Value)

  /** `NextResponse.json({ detail }, { status })` */
  function Detail(status: int, detail: string): (r: Response)
    ensures r.status == status && Get(r.body, "detail") == Str(detail)
  {
    Response(status, Obj(map["detail" := Str(detail)]))
  }

  /** The authenticated user, as `getAuthUser` (src/lib/auth-helpers.ts) returns it. */
  datatype AuthUser = AuthUser(id: int)

  /** `unauthorized()` in src/lib/auth-helpers.ts */
  function Unauthorized(): (r: Response)
    ensures r.status == 401 && Get(r.body, "detail") == Str("Not authenticated")
  {
    Detail(401, "Not authenticated")
  }
}
