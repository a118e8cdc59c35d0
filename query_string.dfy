/**
  The query string `withParams` appends: a separator, then the
  `encodeURIComponent(name)=encodeURIComponent(value)` pairs of the own
  properties of `params`, in enumeration order, joined with `&`.
 */
module QueryString {

  /**
    One property that `for (let name in params)` enumerates: `own` is
    `params.hasOwnProperty(name)`; inherited enumerable properties are
    enumerated too but skipped.
   */
  datatype Property = Property(name: string, value: string, own: bool)

  /** The text pushed for one property. */
  function EncodedPair(p: Property, encodeURIComponent: string -> string): (pair: string)
    ensures var k, v := encodeURIComponent(p.name), encodeURIComponent(p.value);
            && |pair| == |k| + 1 + |v|
            && pair[..|k|] == k && pair[|k|] == '=' && pair[|k| + 1..] == v
  {
    encodeURIComponent(p.name) + "=" + encodeURIComponent(p.value)
  }

  /** The array `str` after the loop has visited `props`: one pair per own property, in order. */
  function EncodedPairs(props: seq<Property>, encodeURIComponent: string -> string): (r: seq<string>)
    ensures |r| <= |props|
    decreases |props|
  {
    if props == [] then []
    else
      var init := EncodedPairs(props[..|props| - 1], encodeURIComponent);
      var last := props[|props| - 1];
      if last.own then init + [EncodedPair(last, encodeURIComponent)] else init
  }

  /** `Array.prototype.join`: the parts with `sep` between consecutive ones. */
  function Join(parts: seq<string>, sep: string): (r: string)
    ensures |parts| == 0 ==> r == ""
    ensures |parts| > 0 ==> |r| >= |parts[0]| && r[..|parts[0]|] == parts[0]
    ensures |parts| > 0 ==> |r| >= |parts[|parts| - 1]| && r[|r| - |parts[|parts| - 1]|..] == parts[|parts| - 1]
    ensures |parts| > 1 ==> |r| >= |parts[0]| + |sep| && r[|parts[0]|..|parts[0]| + |sep|] == sep
    decreases |parts|
  {
    if |parts| == 0 then ""
    else if |parts| == 1 then parts[0]
    else Join(parts[..|parts| - 1], sep) + sep + parts[|parts| - 1]
  }

  /** The separator: `?` exactly when `url.indexOf("?") === -1`, `&` otherwise. */
  function Separator(url: string): (sep: string)
    ensures sep == "?" <==> '?' !in url
    ensures sep == "&" <==> '?' in url
  {
    if '?' !in url then "?" else "&"
  }

  /**
    The URL after `withParams(props)`: the old URL stays a prefix, one
    separator follows (also when there are no own properties), then the
    joined pairs; the result always contains `?`.
   */
  function WithQuery(url: string, props: seq<Property>, encodeURIComponent: string -> string): (r: string)
    ensures |r| > |url| && r[..|url|] == url
    ensures r[|url|] == (if '?' in url then '&' else '?')
    ensures r[|url| + 1..] == Join(EncodedPairs(props, encodeURIComponent), "&")
    ensures '?' in r
  {
    var r := url + Separator(url) + Join(EncodedPairs(props, encodeURIComponent), "&");
    assert r[|url|] == Separator(url)[0];
    r
  }

  /** Every own property contributes its pair. */
  lemma {:induction false} OwnPropertiesEncoded(props: seq<Property>, encodeURIComponent: string -> string, i: nat)
    requires i < |props| && props[i].own
    ensures EncodedPair(props[i], encodeURIComponent) in EncodedPairs(props, encodeURIComponent)
    decreases |props|
  {
    if i < |props| - 1 {
      var init := props[..|props| - 1];
      assert init[i] == props[i];
      OwnPropertiesEncoded(init, encodeURIComponent, i);
    }
  }

  /** Every pair comes from an own property; inherited ones contribute nothing. */
  lemma {:induction false} OnlyOwnPropertiesEncoded(props: seq<Property>, encodeURIComponent: string -> string, pair: string)
    requires pair in EncodedPairs(props, encodeURIComponent)
    ensures exists i :: 0 <= i < |props| && props[i].own && pair == EncodedPair(props[i], encodeURIComponent)
    decreases |props|
  {
    var init := props[..|props| - 1];
    var last := props[|props| - 1];
    if pair in EncodedPairs(init, encodeURIComponent) {
      OnlyOwnPropertiesEncoded(init, encodeURIComponent, pair);
      var i :| 0 <= i < |init| && init[i].own && pair == EncodedPair(init[i], encodeURIComponent);
      assert props[i] == init[i];
    } else {
      assert props[|props| - 1] == last && last.own && pair == EncodedPair(last, encodeURIComponent);
    }
  }

  /** The own properties among `props`, in enumeration order. */
  function OwnProperties(props: seq<Property>): (r: seq<Property>)
    ensures |r| <= |props|
    ensures forall i :: 0 <= i < |r| ==> r[i].own && r[i] in props
    decreases |props|
  {
    if props == [] then []
    else
      var init := OwnProperties(props[..|props| - 1]);
      var last := props[|props| - 1];
      if last.own then init + [last] else init
  }

  /** The pairs are exactly those of the own properties, one each, in enumeration order. */
  lemma {:induction false} PairsFollowOwnProperties(props: seq<Property>, encodeURIComponent: string -> string)
    ensures |EncodedPairs(props, encodeURIComponent)| == |OwnProperties(props)|
    ensures forall i :: 0 <= i < |OwnProperties(props)| ==>
      EncodedPairs(props, encodeURIComponent)[i] == EncodedPair(OwnProperties(props)[i], encodeURIComponent)
    decreases |props|
  {
    if props != [] {
      PairsFollowOwnProperties(props[..|props| - 1], encodeURIComponent);
    }
  }

  /** When every property is own, each one gives exactly one pair, in enumeration order. */
  lemma {:induction false} AllOwnPropertiesInOrder(props: seq<Property>, encodeURIComponent: string -> string)
    requires forall i :: 0 <= i < |props| ==> props[i].own
    ensures |EncodedPairs(props, encodeURIComponent)| == |props|
    ensures forall i :: 0 <= i < |props| ==>
      EncodedPairs(props, encodeURIComponent)[i] == EncodedPair(props[i], encodeURIComponent)
    decreases |props|
  {
    if props != [] {
      var init := props[..|props| - 1];
      AllOwnPropertiesInOrder(init, encodeURIComponent);
    }
  }

  /** A second `withParams` always uses `&`, since the first one left a `?` behind. */
  lemma SecondQueryUsesAmpersand(url: string, first: seq<Property>, second: seq<Property>, encodeURIComponent: string -> string)
    ensures var u := WithQuery(url, first, encodeURIComponent);
            WithQuery(u, second, encodeURIComponent)[|u|] == '&'
  {
  }

  /** `withParams({sort: "name"})` on the URL `"/users/42}"` that the template `"/users/{id}"` yields. */
  lemma SortQueryExample(url: string, props: seq<Property>, encodeURIComponent: string -> string)
    requires url == "/users/42}" && props == [Property("sort", "name", true)]
    requires encodeURIComponent("sort") == "sort" && encodeURIComponent("name") == "name"
    ensures WithQuery(url, props, encodeURIComponent) == "/users/42}?sort=name"
  {
    var pairs := EncodedPairs(props, encodeURIComponent);
    assert pairs == ["sort=name"] by {
      assert props[..0] == [];
      assert EncodedPairs(props[..0], encodeURIComponent) == [];
      assert props[|props| - 1] == props[0] && props[0].own;
      assert pairs == EncodedPairs(props[..0], encodeURIComponent) + [EncodedPair(props[0], encodeURIComponent)];
      assert EncodedPair(props[0], encodeURIComponent) == "sort" + "=" + "name" == "sort=name";
    }
    assert Join(pairs, "&") == "sort=name";
    assert '?' !in url;
  }
}
