/**
  The source build of the request builder: the same class as the
  distribution build plus a `debug` flag set by `withDebug`, and a different
  completion rule, `onError !== null || parseInt(status) >= 400`, on whose
  path `onError` is called only when it is a function.
 */
module SrcRequest {
  import opened UrlTemplate
  import opened QueryString
  import opened Headers
  import opened JsBody
  import opened HttpResponse

  /**
    What the ready-state handler does for one notification.  Before ready
    state 4 nothing happens.  At 4 the error path is taken when any handler
    is set or the status is at least 400: it warns, alerts in debug mode, and
    calls `onError` only if it is a function.  Otherwise `onSuccess` is called.
    As a consequence a registered handler suppresses `onSuccess` even on 200,
    and without a handler a failing status fires no callback at all.
   */
  function SrcCompletion(readyState: int, status: int, responseText: string, onError: OnErrorValue, debug: bool): (effects: seq<Effect>)
    ensures readyState != 4 ==> effects == []
    ensures |Callbacks(effects)| <= 1
    ensures CallSuccess(Response(responseText, status)) in effects <==>
      readyState == 4 && onError.NoHandler? && status < 400
    ensures CallError(Response(responseText, status)) in effects <==> readyState == 4 && onError.Handler?
    ensures Warn in effects <==> readyState == 4 && (!onError.NoHandler? || status >= 400)
    ensures Alert in effects <==> Warn in effects && debug
    ensures TypeErrorThrown !in effects && Log !in effects
    ensures forall e :: e in effects && IsCallback(e) ==> e.response == Response(responseText, status)
  {
    var response := Response(responseText, status);
    if readyState != 4 then []
    else if onError != NoHandler || status >= 400 then
      [Warn] + (if debug then [Alert] else []) + (if onError.Handler? then [CallError(response)] else [])
    else [CallSuccess(response)]
  }

  /** `onSuccess` and `onError` never both fire. */
  lemma NeverBothCallbacks(readyState: int, status: int, responseText: string, onError: OnErrorValue, debug: bool)
    ensures var effects := SrcCompletion(readyState, status, responseText, onError, debug);
            !(CallSuccess(Response(responseText, status)) in effects && CallError(Response(responseText, status)) in effects)
  {
  }

  /** Once a handler is registered, only it is called, whatever the status, 200 included. */
  lemma HandlerSuppressesSuccess(status: int, responseText: string, id: nat, debug: bool)
    ensures Callbacks(SrcCompletion(4, status, responseText, Handler(id), debug)) == [CallError(Response(responseText, status))]
  {
    var tail := if debug then [Alert, CallError(Response(responseText, status))] else [CallError(Response(responseText, status))];
    assert SrcCompletion(4, status, responseText, Handler(id), debug) == [Warn] + tail;
    CallbacksAppend([Warn], tail);
    if debug {
      CallbacksAppend([Alert], [CallError(Response(responseText, status))]);
      assert tail == [Alert] + [CallError(Response(responseText, status))];
    }
  }

  /** Without a handler a failing status is only warned about: no callback fires. */
  lemma UnhandledFailureIsOnlyLogged(status: int, responseText: string, debug: bool)
    requires status >= 400
    ensures var effects := SrcCompletion(4, status, responseText, NoHandler, debug);
            Callbacks(effects) == [] && Warn in effects
  {
  }

  /**
    The debug flag only adds an alert: dropping the alerts from the debug
    run gives the non-debug run, so the same callbacks fire in the same order.
   */
  lemma DebugOnlyAddsAlert(readyState: int, status: int, responseText: string, onError: OnErrorValue)
    ensures WithoutAlerts(SrcCompletion(readyState, status, responseText, onError, true)) ==
            SrcCompletion(readyState, status, responseText, onError, false)
    ensures Callbacks(SrcCompletion(readyState, status, responseText, onError, true)) ==
            Callbacks(SrcCompletion(readyState, status, responseText, onError, false))
  {
    if readyState == 4 && (onError != NoHandler || status >= 400) {
      var last := if onError.Handler? then [CallError(Response(responseText, status))] else [];
      assert SrcCompletion(readyState, status, responseText, onError, true) == [Warn, Alert] + last;
      assert SrcCompletion(readyState, status, responseText, onError, false) == [Warn] + last;
      AlertDropped(last);
    }
  }

  /** The error path's effects with and without the alert, for a tail without alerts. */
  lemma AlertDropped(last: seq<Effect>)
    requires last == [] || (|last| == 1 && last[0].CallError?)
    ensures WithoutAlerts([Warn, Alert] + last) == [Warn] + last
    ensures Callbacks([Warn, Alert] + last) == Callbacks([Warn] + last)
  {
    assert ([Warn, Alert] + last)[1..] == [Alert] + last;
    assert ([Alert] + last)[1..] == last;
    assert ([Warn] + last)[1..] == last;
    assert WithoutAlerts(last) == last;
  }

  /** The request record `this.request`, as fields of the builder. */
  class KasimirHttpRequest {
    var url: string
    var verb: string
    var body: JsValue
    var headers: HeaderMap
    var onError: OnErrorValue
    var debug: bool

    /**
      A new builder for `template`, after substitution of its first
      placeholder, with debug mode off.  The constructor throws when that
      placeholder is missing from `params` (`Substitute` fails); a Dafny
      constructor cannot fail, so it requires success.
     */
    constructor (template: string, params: map<string, string> := map[], encodeURI: string -> string)
      requires Substitute(template, params, encodeURI).Success?
      ensures url == Substitute(template, params, encodeURI).value
      ensures verb == "GET" && body == JsNull && headers == map[] && onError == NoHandler && !debug
    {
      var substituted := Substitute(template, params, encodeURI);
      url := substituted.value;
      verb := "GET";
      body := JsNull;
      headers := map[];
      onError := NoHandler;
      debug := false;
    }

    /** Appends a separator and the encoded own properties of `params` to the URL. */
    method WithParams(params: seq<Property>, encodeURIComponent: string -> string) returns (self: KasimirHttpRequest)
      modifies this`url
      ensures self == this
      ensures url == WithQuery(old(url), params, encodeURIComponent)
    {
      if '?' !in url {
        url := url + "?";
      } else {
        url := url + "&";
      }
      var str: seq<string> := [];
      var i := 0;
      while i < |params|
        invariant 0 <= i <= |params|
        invariant str == EncodedPairs(params[..i], encodeURIComponent)
      {
        if params[i].own {
          str := str + [EncodedPair(params[i], encodeURIComponent)];
        }
        assert params[..i + 1][..i] == params[..i];
        i := i + 1;
      }
      assert params[..|params|] == params;
      url := url + Join(str, "&");
      self := this;
    }

    /** Overwrites the method unconditionally. */
    method WithMethod(m: string) returns (self: KasimirHttpRequest)
      modifies this`verb
      ensures self == this
      ensures verb == m
    {
      verb := m;
      self := this;
    }

    /** Merges `authorization: bearer <token>` into the headers. */
    method WithBearerToken(token: string) returns (self: KasimirHttpRequest)
      modifies this`headers
      ensures self == this
      ensures headers == Merge(old(headers), BearerHeader(token))
    {
      var _ := WithHeaders(BearerHeader(token));
      self := this;
    }

    /** `Object.assign(this.request.headers, extra)`. */
    method WithHeaders(extra: HeaderMap) returns (self: KasimirHttpRequest)
      modifies this`headers
      ensures self == this
      ensures headers == Merge(old(headers), extra)
    {
      headers := Merge(headers, extra);
      self := this;
    }

    /** Promotes `"GET"` to `"POST"`, JSON-encodes arrays, objects and `null`, and stores the body. */
    method WithBody(v: JsValue, stringify: JsValue -> string) returns (self: KasimirHttpRequest)
      modifies this`verb, this`body, this`headers
      ensures self == this
      ensures verb == PromotedMethod(old(verb))
      ensures body == StoredBody(v, stringify)
      ensures headers == BodyHeaders(old(headers), v)
    {
      if verb == "GET" {
        verb := "POST";
      }
      var value := v;
      if IsArray(v) || TypeOf(v) == "object" {
        value := JsString(stringify(v));
        var _ := WithHeaders(JsonContentType());
      }
      body := value;
      self := this;
    }

    /** Registers the error callback. */
    method WithOnError(callback: OnErrorValue) returns (self: KasimirHttpRequest)
      modifies this`onError
      ensures self == this
      ensures onError == callback
    {
      onError := callback;
      self := this;
    }

    /** Switches debug mode on. */
    method WithDebug() returns (self: KasimirHttpRequest)
      modifies this`debug
      ensures self == this
      ensures debug
    {
      debug := true;
      self := this;
    }

    /** The ready-state handler `send` installs, reading the handler and the flag at that time. */
    method OnReadyStateChange(readyState: int, status: int, responseText: string) returns (effects: seq<Effect>)
      ensures effects == SrcCompletion(readyState, status, responseText, onError, debug)
    {
      effects := [];
      if readyState == 4 {
        var response := Response(responseText, status);
        if onError != NoHandler || status >= 400 {
          effects := effects + [Warn];
          if debug {
            effects := effects + [Alert];
          }
          if onError.Handler? {
            effects := effects + [CallError(response)];
          }
          return;
        }
        effects := effects + [CallSuccess(response)];
      }
    }
  }
}
