/** The body argument of `withBody` and what the builder stores for it. */
module JsBody {
  import opened Headers

  /**
    The JavaScript values a caller can hand to `withBody`.  Numbers are
    written as reals; functions and symbols are not modelled.
   */
  datatype JsValue =
    | JsNull
    | JsUndefined
    | JsBool(b: bool)
    | JsNumber(n: real)
    | JsString(s: string)
    | JsArray(items: seq<JsValue>)
    | JsObject(fields: map<string, JsValue>)

  /** The `typeof` operator; note that `typeof null` is `"object"`. */
  function TypeOf(v: JsValue): (t: string)
    ensures t == "object" <==> v.JsNull? || v.JsArray? || v.JsObject?
    ensures t == "string" <==> v.JsString?
    ensures t in {"object", "undefined", "boolean", "number", "string"}
  {
    match v
    case JsNull => "object"
    case JsUndefined => "undefined"
    case JsBool(_) => "boolean"
    case JsNumber(_) => "number"
    case JsString(_) => "string"
    case JsArray(_) => "object"
    case JsObject(_) => "object"
  }

  /** `Array.isArray`. */
  predicate IsArray(v: JsValue) {
    v.JsArray?
  }

  /** The test `Array.isArray(body) || typeof body === "object"` that sends a body through `JSON.stringify`. */
  predicate IsJsonEncoded(v: JsValue) {
    IsArray(v) || TypeOf(v) == "object"
  }

  /** Exactly arrays, plain objects and `null` are JSON-encoded; strings and other scalars are not. */
  lemma JsonEncodedValues(v: JsValue)
    ensures IsJsonEncoded(v) <==> v.JsArray? || v.JsObject? || v.JsNull?
  {
  }

  /** The HTTP method (verb) after `withBody`: `"GET"` becomes `"POST"`, every other method is kept. */
  function PromotedMethod(verb: string): (r: string)
    ensures r != "GET"
    ensures verb != "GET" ==> r == verb
    ensures r == verb || r == "POST"
  {
    if verb == "GET" then "POST" else verb
  }

  /** A second `withBody` leaves the method where the first one put it. */
  lemma PromotionIsIdempotent(verb: string)
    ensures PromotedMethod(PromotedMethod(verb)) == PromotedMethod(verb)
  {
  }

  /**
    The body `withBody(v)` stores: `JSON.stringify(v)` for arrays, objects and
    `null`; any other value, a string in particular, verbatim.  What is stored
    is never of type `"object"`.
   */
  function StoredBody(v: JsValue, stringify: JsValue -> string): (r: JsValue)
    ensures IsJsonEncoded(v) ==> r == JsString(stringify(v))
    ensures !IsJsonEncoded(v) ==> r == v
    ensures TypeOf(r) != "object"
  {
    if IsJsonEncoded(v) then JsString(stringify(v)) else v
  }

  /** The content type `withBody` merges for JSON-encoded bodies. */
  function JsonContentType(): (h: HeaderMap)
    ensures h.Keys == {"content-type"} && h["content-type"] == "application/json"
  {
    map["content-type" := "application/json"]
  }

  /**
    The headers after `withBody(v)`: a JSON-encoded body merges
    `content-type: application/json`; any other body leaves them untouched.
   */
  function BodyHeaders(headers: HeaderMap, v: JsValue): (r: HeaderMap)
    ensures IsJsonEncoded(v) ==> "content-type" in r && r["content-type"] == "application/json"
    ensures !IsJsonEncoded(v) ==> r == headers
    ensures r.Keys <= headers.Keys + {"content-type"}
    ensures forall k :: k in headers && k != "content-type" ==> k in r && r[k] == headers[k]
  {
    if IsJsonEncoded(v) then Merge(headers, JsonContentType()) else headers
  }

  /** A raw string body is stored as given, with no content type inferred. */
  lemma StringBodyIsRaw(headers: HeaderMap, s: string, stringify: JsValue -> string)
    ensures StoredBody(JsString(s), stringify) == JsString(s)
    ensures BodyHeaders(headers, JsString(s)) == headers
  {
  }
}
