/** The header dictionary of a request and the `Object.assign` merge that updates it. */
module Headers {

  type HeaderMap = map<string, string>

  /**
    `Object.assign(headers, extra)`: every key of `extra` takes its value from
    `extra` (the last write wins), every other key keeps its old value, and no
    other key appears.
   */
  function Merge(headers: HeaderMap, extra: HeaderMap): (r: HeaderMap)
    ensures r.Keys == headers.Keys + extra.Keys
    ensures forall k :: k in extra ==> r[k] == extra[k]
    ensures forall k :: k in headers && k !in extra ==> r[k] == headers[k]
  {
    headers + extra
  }

  /** The single header `withBearerToken` merges: `authorization: bearer <token>`, token not validated. */
  function BearerHeader(token: string): (h: HeaderMap)
    ensures h.Keys == {"authorization"}
    ensures |h["authorization"]| == 7 + |token|
    ensures h["authorization"][..7] == "bearer " && h["authorization"][7..] == token
  {
    var value := "bearer " + token;
    assert value[..7] == "bearer " && value[7..] == token;
    map["authorization" := value]
  }

  /** `withBearerToken` sets `authorization` and leaves every other header as it was. */
  lemma BearerTokenSetsOnlyAuthorization(headers: HeaderMap, token: string)
    ensures var r := Merge(headers, BearerHeader(token));
            && r.Keys == headers.Keys + {"authorization"}
            && r["authorization"] == "bearer " + token
            && forall k :: k in headers && k != "authorization" ==> r[k] == headers[k]
  {
  }

  /** Two merges in a row are one merge of the second over the first. */
  lemma {:induction false} MergeTwice(headers: HeaderMap, a: HeaderMap, b: HeaderMap)
    ensures Merge(Merge(headers, a), b) == Merge(headers, Merge(a, b))
  {
    var left := Merge(Merge(headers, a), b);
    var right := Merge(headers, Merge(a, b));
    assert left.Keys == right.Keys;
    forall k | k in left ensures left[k] == right[k] {
      if k in b {
      } else if k in a {
      }
    }
  }

  /** `withHeaders({a: "1"})` then `withHeaders({a: "2", b: "3"})` gives `{a: "2", b: "3"}`. */
  lemma LastWriteWinsExample()
    ensures Merge(Merge(map[], map["a" := "1"]), map["a" := "2", "b" := "3"]) == map["a" := "2", "b" := "3"]
  {
  }
}
