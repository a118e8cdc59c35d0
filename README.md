# kasimir-http-request in Dafny

A model of the fluent HTTP request builder `KasimirHttpRequest` and of its
response value `KasimirHttpResponse`. The repository holds two copies of the builder:
- the distribution build (`www/dist/kasimir-http-request.js`), which also defines
  the helper `ka_http_req` and the response class;
- the source build (`src/kasimir-http-request.js`), which adds `withDebug` and
  applies a different completion rule.

The builder holds a mutable request record: URL, method, body, headers,
error callback and, in the source build, a debug flag. Chained methods
change that record in place and return the same builder. Once the
transport reports ready state 4, the handler makes one decision: call the
success callback, call the error callback, or call nothing.

Layout:

- `wrappers.dfy`: the `Option` and `Result` types.
- `url_template.dfy` (`UrlTemplate`): the constructor's placeholder
  substitution, as pure functions. It also gives a reference definition of
  the leftmost greedy match.
- `query_string.dfy` (`QueryString`): the query text that `withParams` appends.
- `headers.dfy` (`Headers`): the `Object.assign` merge of header dictionaries.
- `js_body.dfy` (`JsBody`): JavaScript values given to `withBody`, `typeof`,
  method promotion, the stored body and content-type header.
- `response.dfy` (`HttpResponse`): the response value, the error-callback
  value, and the list of effects one completion produces.
- `dist_request.dfy` (`DistRequest`): the distribution build's class, its
  completion rule and `ka_http_req`. It also has two client methods,
  `ChainedUrl` and `ChainedBody`, which chain calls using only the contracts.
- `src_request.dfy` (`SrcRequest`): the source build's class with `debug`,
  and its completion rule.
- `variants.dfy` (`Variants`): where the two completion rules agree and
  where they differ.

The class methods are imperative: each changes only the fields named in its
field-granular `modifies` clause (`modifies this`url`). Each method
ensures the new field value as a specification function of the old value,
and returns `this`. `withParams` keeps its accumulating loop, which has an
invariant over the pairs pushed so far. The completion handler is a
method that changes nothing; its result is tied to a pure classification
function, and the properties of that function are proved.

`encodeURI`, `encodeURIComponent` and `JSON.stringify` are function-valued
parameters. The model says where their results go, not what they compute.

The model follows the code in these places, where other behaviour might be
expected:
- The template regular expression has no `g` flag, so only the first
  placeholder is replaced (`LaterPlaceholdersSurvive`).
- The match covers `{name` but not a closing `}`, so the template
  `"/users/{id}"` becomes `"/users/42}"`, not `"/users/42"`
  (`BracePlaceholderKeepsClosingBrace`).
- The source build takes the error path when `onError !== null || status >= 400`.
  The distribution build uses `&&`. Each build is modelled as written
  (`Variants`).

## Model

| member | source | states |
|---|---|---|
| UrlTemplate.NameRunEnd | www/dist/kasimir-http-request.js:18 | the greedy `[a-zA-Z0-9_\-]+` run stops at the end of the string or at the first character outside the class |
| UrlTemplate.FirstPlaceholderFrom | www/dist/kasimir-http-request.js:18 | the scan finds a greedy match with no match starting earlier in the scanned range, or reports that no index matches |
| UrlTemplate.FirstPlaceholder | www/dist/kasimir-http-request.js:18 | the match `replace` acts on is the leftmost greedy match of `(\{\|\:)` followed by name characters; none exists exactly when no index starts a match |
| UrlTemplate.LeftmostGreedyMatchIsFound | www/dist/kasimir-http-request.js:18 | any greedy match with no earlier match is the one found, so the reference definition fixes the match uniquely |
| UrlTemplate.NameOf | www/dist/kasimir-http-request.js:18 | the captured group `p2` is the name run, one character shorter than the match |
| UrlTemplate.MissingParameterMessage | www/dist/kasimir-http-request.js:20 | the thrown string embeds the placeholder name after `parameter '` and the original template just before the closing quote |
| UrlTemplate.MissingIdMessage | www/dist/kasimir-http-request.js:20 | the message for `id` and `"/users/{id}"` is the literal `parameter 'id' missing in url '/users/{id}'` |
| UrlTemplate.Substitute | www/dist/kasimir-http-request.js:18-22 | without a match the template is unchanged; construction throws exactly when the first placeholder's name is not a key of `params`; the thrown message names the placeholder and the original template |
| UrlTemplate.SubstitutionKeepsSurroundings | www/dist/kasimir-http-request.js:18-22 | on success, the text before the opener is kept, `encodeURI(params[name])` takes the opener's and the name's place, and every later character is kept |
| UrlTemplate.LaterPlaceholdersSurvive | src/kasimir-http-request.js:7-11 | without the `g` flag, every placeholder after the first is still a placeholder in the result, at the same position shifted by the length change |
| UrlTemplate.BracePlaceholderKeepsClosingBrace | src/kasimir-http-request.js:7-11 | `"/users/{id}"` with `id = "42"` becomes `"/users/" + encodeURI("42") + "}"`, so the closing brace stays |
| UrlTemplate.MissingNameThrows | www/dist/kasimir-http-request.js:19-20 | `"/users/{id}"` without `id` throws `parameter 'id' missing in url '/users/{id}'` |
| QueryString.EncodedPair | www/dist/kasimir-http-request.js:52 | the pushed text is `encodeURIComponent(name)`, then `=` right after it, then `encodeURIComponent(value)` as the suffix |
| QueryString.EncodedPairs | www/dist/kasimir-http-request.js:49-54 | the loop pushes at most one pair per enumerated property |
| QueryString.OwnPropertiesEncoded | www/dist/kasimir-http-request.js:50-53 | every own property contributes its `encodeURIComponent(name)=encodeURIComponent(value)` pair |
| QueryString.OnlyOwnPropertiesEncoded | www/dist/kasimir-http-request.js:50-53 | every pushed pair comes from an own property; inherited properties contribute nothing |
| QueryString.OwnProperties | www/dist/kasimir-http-request.js:50-51 | the properties that pass `hasOwnProperty`, each drawn from `params` and all of them own |
| QueryString.PairsFollowOwnProperties | www/dist/kasimir-http-request.js:50-54 | for any mix of own and inherited properties, the pairs are exactly one per own property, in enumeration order |
| QueryString.AllOwnPropertiesInOrder | src/kasimir-http-request.js:40-44 | when every property is own, pair `i` is the encoding of property `i`, in enumeration order, one per property |
| QueryString.Join | www/dist/kasimir-http-request.js:55 | `str.join("&")`: empty for no parts, begins with the first part, ends with the last, and puts the separator right after the first part when there are two or more |
| QueryString.Separator | www/dist/kasimir-http-request.js:44-48 | the separator is `?` exactly when the URL has no `?`, and `&` exactly when it has one |
| QueryString.WithQuery | www/dist/kasimir-http-request.js:43-56 | the old URL is a prefix; one separator follows, even for empty `params`; then the pairs joined by `&`; the result always contains `?` |
| QueryString.SecondQueryUsesAmpersand | src/kasimir-http-request.js:34-38 | a second `withParams` appends with `&`, because the first left a `?` |
| QueryString.SortQueryExample | src/kasimir-http-request.js:33-46 | `withParams({sort: "name"})` on `"/users/42}"` yields `"/users/42}?sort=name"` |
| Headers.Merge | www/dist/kasimir-http-request.js:85-88 | `Object.assign`: the keys are the union; keys of the new headers take the new values (last write wins); all other keys keep their old values |
| Headers.BearerHeader | www/dist/kasimir-http-request.js:75 | the one header `authorization`, whose value is `bearer ` followed by the token unchanged |
| Headers.BearerTokenSetsOnlyAuthorization | www/dist/kasimir-http-request.js:74-77 | `withBearerToken(t)` sets `authorization` to `"bearer " + t` and changes no other header |
| Headers.MergeTwice | src/kasimir-http-request.js:75-78 | two merges in a row equal one merge of the second map over the first |
| Headers.LastWriteWinsExample | src/kasimir-http-request.js:75-77 | merging `{a: "1"}` and then `{a: "2", b: "3"}` into empty headers gives `{a: "2", b: "3"}` |
| JsBody.TypeOf | www/dist/kasimir-http-request.js:99 | `typeof` gives `"object"` exactly for `null`, arrays and objects, `"string"` exactly for strings, and one of the five type names `object`, `undefined`, `boolean`, `number`, `string` |
| JsBody.JsonEncodedValues | www/dist/kasimir-http-request.js:99 | `Array.isArray(v) \|\| typeof v === "object"` holds exactly for arrays, objects and `null` |
| JsBody.PromotedMethod | www/dist/kasimir-http-request.js:97-98 | after `withBody` the method is never `"GET"`; a non-GET method is kept; otherwise it is `"POST"` |
| JsBody.PromotionIsIdempotent | src/kasimir-http-request.js:87-88 | a second `withBody` does not change the method again |
| JsBody.StoredBody | www/dist/kasimir-http-request.js:99-104 | arrays, objects and `null` are stored as `JSON.stringify(v)`; other values are stored verbatim; the stored body is never of type `"object"` |
| JsBody.JsonContentType | www/dist/kasimir-http-request.js:101 | the merged literal has the single key `content-type`, with value `application/json` |
| JsBody.BodyHeaders | www/dist/kasimir-http-request.js:99-102 | a JSON-encoded body gains `content-type: application/json` and keeps every other header; any other body leaves the headers untouched |
| JsBody.StringBodyIsRaw | src/kasimir-http-request.js:89-94 | a string body is stored as given and adds no content type |
| HttpResponse.Response.GetBody | www/dist/kasimir-http-request.js:184-186 | returns the stored body unchanged |
| HttpResponse.Response.IsOk | www/dist/kasimir-http-request.js:192-194 | true exactly when the status equals 200 |
| HttpResponse.OnlyStatus200IsOk | www/dist/kasimir-http-request.js:192-194 | no other 2xx status counts as ok |
| DistRequest.DistCompletion | www/dist/kasimir-http-request.js:144-153 | other ready states do nothing; at 4 the handler logs and fires exactly one callback; `onError` fires exactly when a function handler is set and the status is at least 400; `onSuccess` fires exactly when no handler is set or the status is below 400, so a 404 without a handler reaches `onSuccess`; a non-function handler on a failing status throws; no warning or alert is ever issued |
| DistRequest.KasimirHttpRequest.constructor | www/dist/kasimir-http-request.js:16-32 | the URL is the substituted template; method `"GET"`, body `null`, empty headers, no error callback |
| DistRequest.KasimirHttpRequest.WithParams | www/dist/kasimir-http-request.js:43-57 | only the URL changes, to `WithQuery` of the old URL; the loop invariant tracks the pairs pushed so far |
| DistRequest.KasimirHttpRequest.WithMethod | www/dist/kasimir-http-request.js:64-67 | only the method changes, to the given value |
| DistRequest.KasimirHttpRequest.WithBearerToken | www/dist/kasimir-http-request.js:74-77 | only the headers change: the bearer header is merged in |
| DistRequest.KasimirHttpRequest.WithHeaders | www/dist/kasimir-http-request.js:85-88 | only the headers change: they become the old headers merged with the given ones |
| DistRequest.KasimirHttpRequest.WithBody | www/dist/kasimir-http-request.js:96-106 | the method is promoted, the body is stored as `StoredBody`, the headers become `BodyHeaders`; the URL and error callback are untouched |
| DistRequest.KasimirHttpRequest.WithOnError | www/dist/kasimir-http-request.js:113-116 | only the error callback changes |
| DistRequest.KasimirHttpRequest.OnReadyStateChange | www/dist/kasimir-http-request.js:144-155 | the installed handler produces exactly `DistCompletion` for the error callback registered at that time |
| DistRequest.KaHttpReq | www/dist/kasimir-http-request.js:8-10 | fails with the constructor's message exactly when substitution fails; otherwise it returns a fresh builder in the initial state |
| SrcRequest.SrcCompletion | src/kasimir-http-request.js:145-167 | other ready states do nothing; at most one callback fires; `onSuccess` fires exactly when no handler is set and the status is below 400; `onError` fires exactly when a function handler is set; the warning is issued exactly on the error path; the alert exactly on the error path in debug mode |
| SrcRequest.NeverBothCallbacks | src/kasimir-http-request.js:148-166 | `onSuccess` and `onError` never both fire |
| SrcRequest.HandlerSuppressesSuccess | src/kasimir-http-request.js:148-163 | with a function handler registered, only `onError` fires, for every status, 200 included |
| SrcRequest.UnhandledFailureIsOnlyLogged | src/kasimir-http-request.js:148-163 | without a handler and with a status of at least 400, no callback fires but the warning is issued |
| SrcRequest.DebugOnlyAddsAlert | src/kasimir-http-request.js:159-162 | removing the alerts from the debug-mode effects gives the non-debug effects, so the callbacks fired are unchanged |
| SrcRequest.KasimirHttpRequest.constructor | src/kasimir-http-request.js:5-22 | the URL is the substituted template; method `"GET"`, body `null`, empty headers, no error callback, debug off |
| SrcRequest.KasimirHttpRequest.WithParams | src/kasimir-http-request.js:33-47 | only the URL changes, to `WithQuery` of the old URL |
| SrcRequest.KasimirHttpRequest.WithMethod | src/kasimir-http-request.js:54-57 | only the method changes, to the given value |
| SrcRequest.KasimirHttpRequest.WithBearerToken | src/kasimir-http-request.js:64-67 | only the headers change: the bearer header is merged in |
| SrcRequest.KasimirHttpRequest.WithHeaders | src/kasimir-http-request.js:75-78 | only the headers change: they become the old headers merged with the given ones |
| SrcRequest.KasimirHttpRequest.WithBody | src/kasimir-http-request.js:86-96 | the method is promoted, the body is stored as `StoredBody`, the headers become `BodyHeaders`; nothing else changes |
| SrcRequest.KasimirHttpRequest.WithOnError | src/kasimir-http-request.js:103-106 | only the error callback changes |
| SrcRequest.KasimirHttpRequest.WithDebug | src/kasimir-http-request.js:114-117 | only the debug flag changes, to true |
| SrcRequest.KasimirHttpRequest.OnReadyStateChange | src/kasimir-http-request.js:145-168 | the installed handler produces exactly `SrcCompletion` for the error callback and debug flag at that time |
| Variants.RegisteredHandlerBelow400 | src/kasimir-http-request.js:148 | with a handler and a status below 400, the distribution build calls `onSuccess` but the source build calls `onError` and not `onSuccess` |
| Variants.UnhandledFailure | www/dist/kasimir-http-request.js:147-151 | without a handler and with a status of at least 400, the distribution build calls `onSuccess` but the source build calls nothing |
| Variants.HandledFailureAgrees | www/dist/kasimir-http-request.js:147-149 | with a function handler and a status of at least 400, both builds call exactly `onError` |

## Left out

- The transport is not modelled: `new XMLHttpRequest`, `open`, `setRequestHeader` over the header dictionary, `send(body)` and the wiring of `onreadystatechange`. This is browser I/O and asynchronous event delivery. Only the handler's decision at each ready-state notification is modelled.
- `console.log`, `console.warn` and `alert` appear only as markers in the effect list, without their messages. The message text uses `JSON.parse` on the response and reads `errData.error.msg`, which is foreign parsing.
- The bodies of `encodeURI`, `encodeURIComponent` and `JSON.stringify` are function-valued parameters and are not modelled. So is `encodeURI`'s `URIError`. `getBodyJson` is not modelled: it only calls `JSON.parse`.
- The `json` and `plain` setters are not modelled. They only wrap `send` around `getBodyJson` and `getBody`.
- The enumeration order of the header dictionary is not modelled, since headers are a `map`. The unused `dataType` and `data` fields are left out, as is the response's back-reference to its request.
- Parameter and header values are strings. JavaScript's coercion of other values to strings is not modelled. Function and symbol bodies are also not modelled.
- SrcRequest.SrcCompletion: assumes that building the warning message (src/kasimir-http-request.js:149-156) does not throw. It throws only when the body parses to an object that cannot be converted to a string, such as `{"toString":1}`. Then `console.warn`, `alert` and `onError` are all skipped. `SrcRequest.HandlerSuppressesSuccess`, `SrcRequest.UnhandledFailureIsOnlyLogged`, `Variants.RegisteredHandlerBelow400` and `Variants.HandledFailureAgrees` rest on the same assumption.
- The status is an unbounded integer. `parseInt(status)` equals the status for the integer statuses a transport reports.
- DistRequest.KasimirHttpRequest.constructor: requires the substitution to succeed, because a Dafny constructor cannot throw. The throwing path is modelled by `UrlTemplate.Substitute`'s `Failure` and by `DistRequest.KaHttpReq`.
- SrcRequest.KasimirHttpRequest.constructor: requires the substitution to succeed, for the same reason. The thrown message is stated by `UrlTemplate.Substitute`.
