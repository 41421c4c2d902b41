/** An optional value: `None` stands for JavaScript's `undefined` or for an exception. */
module Wrappers {
  datatype Option<+T> = None | Some(value: T)
}

/**
 * A parsed JSON body as the route handlers see it, with the few pieces of
 * JavaScript semantics the validators rely on: truthiness, `typeof` and
 * property access.
 */
module Json {
  import opened Wrappers

  /**
   * A JSON value. `JNaN` cannot come out of JSON.parse, but the validators
   * test for it (`!isNaN(...)`), so it is a number value of its own.
   */
  datatype Json =
    | JNull
    | JBool(b: bool)
    | JNumber(n: real)
    | JNaN
    | JString(s: string)
    | JArray(elems: seq<Json>)
    | JObject(fields: map<string, Json>)

  /** The answers of `typeof` that a JSON value (or `undefined`) can give. */
  datatype JsType = Undefined | Object | Boolean | Number | String

  /**
   * `v[key]` for the property names the handlers read. Only objects have
   * them as own properties; on arrays, strings, numbers and booleans none
   * of these names is a property, so the result is `undefined` (`None`).
   * Reading a property of `null` throws; callers test for that first.
   */
  function Get(v: Json, key: string): Option<Json>
  {
    if v.JObject? && key in v.fields then Some(v.fields[key]) else None
  }

  /** `v?.[key]` on a possibly undefined value, used after a truthiness guard. */
  function GetOf(v: Option<Json>, key: string): Option<Json>
  {
    if v.Some? then Get(v.value, key) else None
  }

  function TypeOf(v: Option<Json>): JsType
  {
    match v
    case None => Undefined
    case Some(JNull) => Object
    case Some(JBool(_)) => Boolean
    case Some(JNumber(_)) => Number
    case Some(JNaN) => Number
    case Some(JString(_)) => String
    case Some(JArray(_)) => Object
    case Some(JObject(_)) => Object
  }

  /** JavaScript truthiness: undefined, null, false, 0, NaN and "" are falsy. */
  predicate Truthy(v: Option<Json>)
  {
    match v
    case None => false
    case Some(JNull) => false
    case Some(JBool(b)) => b
    case Some(JNumber(n)) => n != 0.0
    case Some(JNaN) => false
    case Some(JString(s)) => s != ""
    case Some(JArray(_)) => true
    case Some(JObject(_)) => true
  }

  /** typeof v === 'string' */
  predicate IsString(v: Option<Json>)
  {
    TypeOf(v) == String
  }

  /** Array.isArray(v) */
  predicate IsArray(v: Option<Json>)
  {
    v.Some? && v.value.JArray?
  }

  /** `list.includes(v)` for a list of string literals (strict equality). */
  predicate IncludesString(list: seq<string>, v: Option<Json>)
  {
    v.Some? && v.value.JString? && v.value.s in list
  }
}

/**
 * The parts of the two proxy routes (/api/foda and /api/indicadores) that
 * surround the validators: where the backend URL comes from, what the fetch
 * can yield, and how the payload is taken out of the body.
 */
module Backend {
  import opened Wrappers
  import opened Json

  /** The fallback used when FODA_IA_BACKEND_URL is unset or empty. */
  const DEFAULT_BACKEND_URL: string := "http://localhost:8000"

  /** The version reported when the body does not carry a truthy one. */
  const DEFAULT_VERSION: string := "1.0.0"

  /**
   * What the request to the backend produced. `Failed` covers a rejected
   * fetch, the timeout of fetchWithTimeout, a status that is not ok and a
   * body that is not JSON: each of them throws inside the handler's `try`.
   */
  datatype FetchOutcome = Failed | Received(body: Json)

  /**
   * `process.env.FODA_IA_BACKEND_URL || 'http://localhost:8000'`. Because of
   * the default the URL is never empty, so the handlers' "backend URL not
   * configured" branch cannot be taken.
   */
  function BackendUrl(env: Option<string>): (url: string)
    ensures url != ""
    ensures env.Some? && env.value != "" ==> url == env.value
    ensures env.None? || env.value == "" ==> url == DEFAULT_BACKEND_URL
  {
    if env.Some? && env.value != "" then env.value else DEFAULT_BACKEND_URL
  }

  /**
   * `data.data || data`. Reading `.data` of a `null` body throws, which is
   * `None` here; otherwise the payload is the truthy `data` field or, when
   * there is none, the body itself, and it is never null.
   */
  function Payload(body: Json): (r: Option<Json>)
    ensures r.None? <==> body == JNull
    ensures r.Some? ==> r.value != JNull
    ensures r.Some? ==> (if Truthy(Get(body, "data")) then r == Get(body, "data") else r.value == body)
  {
    if body.JNull? then None
    else if Truthy(Get(body, "data")) then Get(body, "data")
    else Some(body)
  }

  /** `data.version || '1.0.0'`: a truthy version is kept, any other gives the default; the result is truthy. */
  function Version(body: Json): (v: Json)
    ensures Truthy(Some(v))
    ensures Truthy(Get(body, "version")) ==> Some(v) == Get(body, "version")
    ensures !Truthy(Get(body, "version")) ==> v == JString(DEFAULT_VERSION)
  {
    var v := Get(body, "version");
    if Truthy(v) then v.value else JString(DEFAULT_VERSION)
  }

  /** The envelope `{ "data": payload }` some backends wrap their answer in. */
  function Envelope(payload: Json): Json
  {
    JObject(map["data" := payload])
  }

  /**
   * The backend may answer with the payload itself or wrapped in an
   * envelope: a truthy payload comes out unchanged either way, and a body
   * that is not null and has no truthy `data` is its own payload.
   */
  lemma PayloadUnwrapsEnvelope(payload: Json)
    ensures Truthy(Some(payload)) ==> Payload(Envelope(payload)) == Some(payload)
    ensures payload != JNull && !Truthy(Get(payload, "data")) ==> Payload(payload) == Some(payload)
  {
  }
}
