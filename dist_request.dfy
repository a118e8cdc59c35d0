/**
  The distribution build of the request builder: the helper `ka_http_req`,
  the class `KasimirHttpRequest` whose methods update the request record in
  place and return the builder for chaining, and its completion rule
  `onError !== null && status >= 400`.
 */
module DistRequest {
  import opened Wrappers
  import opened UrlTemplate
  import opened QueryString
  import opened Headers
  import opened JsBody
  import opened HttpResponse

  /**
    What the ready-state handler does for one notification.  Before ready
    state 4 nothing happens.  At 4 it logs, then calls `onError` when one is
    set and the status is at least 400 (calling a non-function throws), and
    `onSuccess` otherwise, a 404 without a handler included.
   */
  function DistCompletion(readyState: int, status: int, responseText: string, onError: OnErrorValue): (effects: seq<Effect>)
    ensures readyState != 4 ==> effects == []
    ensures readyState == 4 ==> |effects| >= 1 && effects[0] == Log
    ensures readyState == 4 && !onError.NotAFunction? ==> |Callbacks(effects)| == 1
    ensures CallError(Response(responseText, status)) in effects <==>
      readyState == 4 && onError.Handler? && status >= 400
    ensures CallSuccess(Response(responseText, status)) in effects <==>
      readyState == 4 && (onError.NoHandler? || status < 400)
    ensures TypeErrorThrown in effects <==> readyState == 4 && onError.NotAFunction? && status >= 400
    ensures forall e :: e in effects && IsCallback(e) ==> e.response == Response(responseText, status)
    ensures Warn !in effects && Alert !in effects
  {
    var response := Response(responseText, status);
    if readyState != 4 then []
    else if onError != NoHandler && status >= 400 then
      [Log] + (if onError.Handler? then [CallError(response)] else [TypeErrorThrown])
    else [Log, CallSuccess(response)]
  }

  /** The request record `this.request`, as fields of the builder. */
  class KasimirHttpRequest {
    var url: string
    var verb: string
    var body: JsValue
    var headers: HeaderMap
    var onError: OnErrorValue

    /**
      A new builder for `template`, after substitution of its first
      placeholder.  The constructor throws when that placeholder is missing
      from `params`; a Dafny constructor cannot fail, so it requires success,
      and `KaHttpReq` models the throwing call.
     */
    constructor (template: string, params: map<string, string> := map[], encodeURI: string -> string)
      requires Substitute(template, params, encodeURI).Success?
      ensures url == Substitute(template, params, encodeURI).value
      ensures verb == "GET" && body == JsNull && headers == map[] && onError == NoHandler
    {
      var substituted := Substitute(template, params, encodeURI);
      url := substituted.value;
      verb := "GET";
      body := JsNull;
      headers := map[];
      onError := NoHandler;
    }

    /** Appends a separator and the encoded own properties of `params` to the URL. */
    method WithParams(params: seq<Property>, encodeURIComponent: string -> string) returns (self: KasimirHttpRequest)
      modifies this`url
      ensures self == this
      ensures url == WithQuery(old(url), params, encodeURIComponent)
    {
      if '?' !in url {
        url := url + "?";
      } else {
        url := url + "&";
      }
      var str: seq<string> := [];
      var i := 0;
      while i < |params|
        invariant 0 <= i <= |params|
        invariant str == EncodedPairs(params[..i], encodeURIComponent)
      {
        if params[i].own {
          str := str + [EncodedPair(params[i], encodeURIComponent)];
        }
        assert params[..i + 1][..i] == params[..i];
        i := i + 1;
      }
      assert params[..|params|] == params;
      url := url + Join(str, "&");
      self := this;
    }

    /** Overwrites the method unconditionally. */
    method WithMethod(m: string) returns (self: KasimirHttpRequest)
      modifies this`verb
      ensures self == this
      ensures verb == m
    {
      verb := m;
      self := this;
    }

    /** Merges `authorization: bearer <token>` into the headers. */
    method WithBearerToken(token: string) returns (self: KasimirHttpRequest)
      modifies this`headers
      ensures self == this
      ensures headers == Merge(old(headers), BearerHeader(token))
    {
      var _ := WithHeaders(BearerHeader(token));
      self := this;
    }

    /** `Object.assign(this.request.headers, extra)`. */
    method WithHeaders(extra: HeaderMap) returns (self: KasimirHttpRequest)
      modifies this`headers
      ensures self == this
      ensures headers == Merge(old(headers), extra)
    {
      headers := Merge(headers, extra);
      self := this;
    }

    /** Promotes `"GET"` to `"POST"`, JSON-encodes arrays, objects and `null`, and stores the body. */
    method WithBody(v: JsValue, stringify: JsValue -> string) returns (self: KasimirHttpRequest)
      modifies this`verb, this`body, this`headers
      ensures self == this
      ensures verb == PromotedMethod(old(verb))
      ensures body == StoredBody(v, stringify)
      ensures headers == BodyHeaders(old(headers), v)
    {
      if verb == "GET" {
        verb := "POST";
      }
      var value := v;
      if IsArray(v) || TypeOf(v) == "object" {
        value := JsString(stringify(v));
        var _ := WithHeaders(JsonContentType());
      }
      body := value;
      self := this;
    }

    /** Registers the error callback. */
    method WithOnError(callback: OnErrorValue) returns (self: KasimirHttpRequest)
      modifies this`onError
      ensures self == this
      ensures onError == callback
    {
      onError := callback;
      self := this;
    }

    /** The ready-state handler `send` installs, reading the handler registered at that time. */
    method OnReadyStateChange(readyState: int, status: int, responseText: string) returns (effects: seq<Effect>)
      ensures effects == DistCompletion(readyState, status, responseText, onError)
    {
      effects := [];
      if readyState == 4 {
        effects := [Log];
        var response := Response(responseText, status);
        if onError != NoHandler && status >= 400 {
          if onError.Handler? {
            effects := effects + [CallError(response)];
          } else {
            effects := effects + [TypeErrorThrown];
          }
          return;
        }
        effects := effects + [CallSuccess(response)];
      }
    }
  }

  /** `ka_http_req(url, params)`: a new builder, or the constructor's thrown message. */
  method KaHttpReq(template: string, params: map<string, string> := map[], encodeURI: string -> string)
    returns (r: Result<KasimirHttpRequest, string>)
    ensures r.Failure? <==> Substitute(template, params, encodeURI).Failure?
    ensures r.Failure? ==> r.error == Substitute(template, params, encodeURI).error
    ensures r.Success? ==> fresh(r.value) && r.value.url == Substitute(template, params, encodeURI).value
    ensures r.Success? ==>
      r.value.verb == "GET" && r.value.body == JsNull && r.value.headers == map[] && r.value.onError == NoHandler
  {
    var substituted := Substitute(template, params, encodeURI);
    if substituted.Failure? {
      return Failure(substituted.error);
    }
    var request := new KasimirHttpRequest(template, params, encodeURI);
    return Success(request);
  }

  /**
    A client of the builder: `"/users/{id}"` with `id = "42"` and a `sort`
    parameter.  The closing brace of the template survives substitution.
   */
  method ChainedUrl(encodeURI: string -> string, encodeURIComponent: string -> string)
    requires encodeURI("42") == "42"
    requires encodeURIComponent("sort") == "sort" && encodeURIComponent("name") == "name"
  {
    BracePlaceholderKeepsClosingBrace(encodeURI);
    var request := new KasimirHttpRequest("/users/{id}", map["id" := "42"], encodeURI);
    ghost var u := request.url;
    assert u == "/users/42}";
    var query := [Property("sort", "name", true)];
    var self := request.WithParams(query, encodeURIComponent);
    SortQueryExample(u, query, encodeURIComponent);
    assert request.url == "/users/42}?sort=name";
  }

  /** A client of the builder: a JSON body, a bearer token and a successful completion. */
  method ChainedBody(request: KasimirHttpRequest, stringify: JsValue -> string)
    requires request.verb == "GET" && request.onError == NoHandler
    modifies request
  {
    var payload := JsObject(map["x" := JsNumber(1.0)]);
    var self := request.WithBody(payload, stringify);
    assert request.verb == "POST" && request.body == JsString(stringify(payload));
    assert request.headers["content-type"] == "application/json";
    self := request.WithBearerToken("t");
    assert request.headers["authorization"] == "bearer t";
    var effects := request.OnReadyStateChange(4, 200, "{}");
    assert CallSuccess(Response("{}", 200)) in effects;
  }
}
