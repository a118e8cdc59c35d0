/**
  The substitution the request constructor applies to its URL template:
  `url.replace(/(\{|\:)([a-zA-Z0-9_\-]+)/, callback)`.  The regular expression
  has no `g` flag, so only the leftmost match is replaced; the callback throws
  when the captured name is not an own key of `params`.
 */
module UrlTemplate {
  import opened Wrappers

  /** The character class `[a-zA-Z0-9_\-]` of a placeholder name. */
  predicate IsNameChar(c: char) {
    ('a' <= c <= 'z') || ('A' <= c <= 'Z') || ('0' <= c <= '9') || c == '_' || c == '-'
  }

  /** The first group `(\{|\:)`. */
  predicate IsOpener(c: char) {
    c == '{' || c == ':'
  }

  /** The pattern can start a match at index `i`: an opener followed by at least one name character. */
  predicate PlaceholderAt(s: string, i: int) {
    0 <= i && i + 1 < |s| && IsOpener(s[i]) && IsNameChar(s[i + 1])
  }

  /** A match: the opener sits at `start`, the name is `s[start + 1..end]`. */
  datatype Placeholder = Placeholder(start: nat, end: nat)

  /**
    `p` is a match of the pattern in `s` whose name run is greedy: it starts
    with an opener, takes at least one name character, and stops only at the
    end of `s` or at a character outside the class.
   */
  ghost predicate IsGreedyMatch(s: string, p: Placeholder) {
    && PlaceholderAt(s, p.start)
    && p.start + 2 <= p.end <= |s|
    && (forall k :: p.start + 1 <= k < p.end ==> IsNameChar(s[k]))
    && (p.end == |s| || !IsNameChar(s[p.end]))
  }

  /** No match of the pattern starts at an index in `[from, to)`. */
  ghost predicate NoPlaceholderIn(s: string, from: int, to: int) {
    forall k :: from <= k < to ==> !PlaceholderAt(s, k)
  }

  /** The end of the run of name characters that begins at `i` (the greedy `+`). */
  function NameRunEnd(s: string, i: nat): (j: nat)
    requires i <= |s|
    ensures i <= j <= |s|
    ensures forall k :: i <= k < j ==> IsNameChar(s[k])
    ensures j == |s| || !IsNameChar(s[j])
    decreases |s| - i
  {
    if i < |s| && IsNameChar(s[i]) then NameRunEnd(s, i + 1) else i
  }

  /** The leftmost match that starts at or after `i`, scanning as the regular-expression engine does. */
  function FirstPlaceholderFrom(s: string, i: nat): (r: Option<Placeholder>)
    requires i <= |s|
    ensures r.Some? ==> i <= r.value.start && IsGreedyMatch(s, r.value) && NoPlaceholderIn(s, i, r.value.start)
    ensures r.None? ==> NoPlaceholderIn(s, i, |s|)
    decreases |s| - i
  {
    if i == |s| then None
    else if PlaceholderAt(s, i) then Some(Placeholder(i, NameRunEnd(s, i + 1)))
    else FirstPlaceholderFrom(s, i + 1)
  }

  /** The match the non-global `replace` acts on: the leftmost one, if any. */
  function FirstPlaceholder(s: string): (r: Option<Placeholder>)
    ensures r.Some? ==> IsGreedyMatch(s, r.value) && NoPlaceholderIn(s, 0, r.value.start)
    ensures r.None? ==> NoPlaceholderIn(s, 0, |s|)
  {
    FirstPlaceholderFrom(s, 0)
  }

  /** The captured group `p2`: the placeholder's name. */
  function NameOf(s: string, p: Placeholder): (name: string)
    requires p.start + 1 <= p.end <= |s|
    ensures |name| == p.end - p.start - 1
  {
    s[p.start + 1..p.end]
  }

  /** The string the callback throws when a name is missing. */
  function MissingParameterMessage(name: string, template: string): (message: string)
    ensures |message| == 30 + |name| + |template|
    ensures message[11..11 + |name|] == name
    ensures message[|message| - 1 - |template|..|message| - 1] == template
  {
    var message := "parameter '" + name + "' missing in url '" + template + "'";
    assert message[11..11 + |name|] == name;
    assert message[|message| - 1 - |template|..|message| - 1] == template;
    message
  }

  /**
    The constructor's substitution.  Without a match the template is returned
    unchanged; a match whose name is not an own key of `params` throws the
    message naming the placeholder and the original template; otherwise the
    opener and the name (and nothing else) are replaced by `encodeURI(params[name])`.
   */
  function Substitute(template: string, params: map<string, string>, encodeURI: string -> string): (r: Result<string, string>)
    ensures FirstPlaceholder(template).None? ==> r == Success(template)
    ensures r.Failure? <==>
      FirstPlaceholder(template).Some? && NameOf(template, FirstPlaceholder(template).value) !in params
    ensures r.Failure? ==>
      r.error == MissingParameterMessage(NameOf(template, FirstPlaceholder(template).value), template)
  {
    match FirstPlaceholder(template)
    case None => Success(template)
    case Some(p) =>
      var name := NameOf(template, p);
      if name !in params then Failure(MissingParameterMessage(name, template))
      else Success(template[..p.start] + encodeURI(params[name]) + template[p.end..])
  }

  /** The leftmost greedy match is the only one the engine can pick: any such match is the one found. */
  lemma LeftmostGreedyMatchIsFound(s: string, p: Placeholder)
    requires IsGreedyMatch(s, p) && NoPlaceholderIn(s, 0, p.start)
    ensures FirstPlaceholder(s) == Some(p)
  {
  }

  /**
    A successful substitution of the placeholder `p` keeps the text before the
    opener, puts the encoded value in its place, and keeps every character
    after the name, a closing `}` included.
   */
  lemma SubstitutionKeepsSurroundings(template: string, params: map<string, string>, encodeURI: string -> string)
    requires FirstPlaceholder(template).Some?
    requires Substitute(template, params, encodeURI).Success?
    ensures var p := FirstPlaceholder(template).value;
            var r := Substitute(template, params, encodeURI).value;
            var v := encodeURI(params[NameOf(template, p)]);
            && NameOf(template, p) in params
            && |r| == p.start + |v| + (|template| - p.end)
            && r[..p.start] == template[..p.start]
            && r[p.start..p.start + |v|] == v
            && r[p.start + |v|..] == template[p.end..]
  {
    var p := FirstPlaceholder(template).value;
    var v := encodeURI(params[NameOf(template, p)]);
    var r := Substitute(template, params, encodeURI).value;
    assert r == template[..p.start] + v + template[p.end..];
  }

  /**
    Only the first placeholder is replaced: every match that starts after the
    first one's name is still a match, shifted by the change in length, in the
    resulting URL.
   */
  lemma LaterPlaceholdersSurvive(template: string, params: map<string, string>, encodeURI: string -> string, q: nat)
    requires FirstPlaceholder(template).Some?
    requires Substitute(template, params, encodeURI).Success?
    requires q >= FirstPlaceholder(template).value.end && PlaceholderAt(template, q)
    ensures var p := FirstPlaceholder(template).value;
            var v := encodeURI(params[NameOf(template, p)]);
            PlaceholderAt(Substitute(template, params, encodeURI).value, q - p.end + p.start + |v|)
  {
    var p := FirstPlaceholder(template).value;
    var v := encodeURI(params[NameOf(template, p)]);
    var r := Substitute(template, params, encodeURI).value;
    SubstitutionKeepsSurroundings(template, params, encodeURI);
    var shift := q - p.end + p.start + |v|;
    assert r[shift] == template[q] by {
      assert r[p.start + |v|..][q - p.end] == template[p.end..][q - p.end];
    }
    assert r[shift + 1] == template[q + 1] by {
      assert r[p.start + |v|..][q + 1 - p.end] == template[p.end..][q + 1 - p.end];
    }
  }

  /** `"/users/{id}"` with `id` given: the opener and the name are replaced and the closing brace stays. */
  lemma BracePlaceholderKeepsClosingBrace(encodeURI: string -> string)
    ensures Substitute("/users/{id}", map["id" := "42"], encodeURI) == Success("/users/" + encodeURI("42") + "}")
  {
    var s := "/users/{id}";
    var p := Placeholder(7, 10);
    assert IsGreedyMatch(s, p);
    assert NoPlaceholderIn(s, 0, 7) by {
      forall k | 0 <= k < 7 ensures !PlaceholderAt(s, k) { assert !IsOpener(s[k]); }
    }
    LeftmostGreedyMatchIsFound(s, p);
    assert NameOf(s, p) == "id";
    assert s[..7] == "/users/" && s[10..] == "}";
  }

  /** `"/users/{id}"` without `id`: construction throws the message naming `id` and the template. */
  lemma MissingNameThrows(encodeURI: string -> string)
    ensures Substitute("/users/{id}", map[], encodeURI) == Failure("parameter 'id' missing in url '/users/{id}'")
  {
    var s := "/users/{id}";
    var p := Placeholder(7, 10);
    assert NoPlaceholderIn(s, 0, 7) by {
      forall k | 0 <= k < 7 ensures !PlaceholderAt(s, k) { assert !IsOpener(s[k]); }
    }
    LeftmostGreedyMatchIsFound(s, p);
    assert NameOf(s, p) == "id";
    MissingIdMessage();
  }

  /** The text of the message for `id` and `"/users/{id}"`. */
  lemma MissingIdMessage()
    ensures MissingParameterMessage("id", "/users/{id}") == "parameter 'id' missing in url '/users/{id}'"
  {
    var m := MissingParameterMessage("id", "/users/{id}");
    var t := "parameter 'id' missing in url '/users/{id}'";
    assert |m| == |t|;
    forall i | 0 <= i < |t| ensures m[i] == t[i] {
    }
  }
}
